/**
 * The rows of the pharmacy store's tables, the clock values the store reads,
 * and the constraint violations its operations can raise.
 */
module Records {

  datatype Option<+T> = None | Some(value: T)

  /** Outcome of a store operation that may fail with a constraint violation. */
  datatype Result<+T> = Ok(value: T) | Err(error: DbError)

  /** The store constraints the core can violate; the core never catches them. */
  datatype DbError =
    | NameIsNull        // NOT NULL on products.name
    | DuplicateInvoice  // UNIQUE on sales.invoice_number

  /** A calendar date as a day number: later dates are larger numbers. */
  type Day = int

  /**
   * The ten caller-supplied columns of a products row, in the order in which
   * add and update take them. `category` is the column named `type`.
   */
  datatype Product = Product(
    barcode: Option<string>,
    name: Option<string>,
    unit: Option<string>,
    category: Option<string>,
    manufacturer: Option<string>,
    purchasePrice: real,
    salePrice: real,
    quantity: int,
    minStock: int,
    expiry: Option<Day>)

  /** A products row as a query returns it: its identifier and its columns. */
  datatype ProductRow = ProductRow(id: int, data: Product)

  /** One entry of a sale's item list: a snapshot of a cart line. */
  datatype LineItem = LineItem(productId: int, name: Option<string>, quantity: int, price: real, total: real)

  /** A sales row: the columns that the sale composer fills in. */
  datatype Sale = Sale(invoice: string, date: Day, total: real, items: seq<LineItem>)
}
