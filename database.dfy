/**
 * The store: three tables behind one handle, the product CRUD operations,
 * the dashboard aggregates and the sale composer.
 */
module Database {
  import opened Records
  import opened Collation
  import opened Invoice
  import opened Cart

  datatype Table = ProductsTable | CustomersTable | SalesTable

  /** The tables the schema declares, in the order it creates them. */
  const Schema: seq<Table> := [ProductsTable, CustomersTable, SalesTable]
  const AllTables: set<Table> := set t | t in Schema

  /**
   * The content of the database file: which tables exist, the products by
   * identifier, the next identifier AUTOINCREMENT hands out, the number of
   * customer rows and the sales rows in insertion order.
   */
  datatype DbFile = DbFile(
    tables: set<Table>,
    products: map<int, Product>,
    nextId: int,
    customerCount: nat,
    sales: seq<Sale>)

  function Invoices(sales: seq<Sale>): set<string>
  {
    set s | s in sales :: s.invoice
  }

  /** What the schema's constraints guarantee of a file. */
  ghost predicate WellFormed(f: DbFile)
  {
    && 1 <= f.nextId
    && (forall id :: id in f.products ==> 1 <= id < f.nextId && f.products[id].name.Some?)
    && (forall i, j :: 0 <= i < j < |f.sales| ==> f.sales[i].invoice != f.sales[j].invoice)
    && (ProductsTable !in f.tables ==> f.products == map[] && f.nextId == 1)
    && (CustomersTable !in f.tables ==> f.customerCount == 0)
    && (SalesTable !in f.tables ==> f.sales == [])
  }

  // ---------------------------------------------------------------- listing

  predicate RowLe(a: ProductRow, b: ProductRow)
  {
    NameLe(a.data.name, b.data.name)
  }

  ghost predicate SortedByName(rows: seq<ProductRow>)
  {
    forall i, j :: 0 <= i < j < |rows| ==> RowLe(rows[i], rows[j])
  }

  /** Places `row` after every row whose name sorts before it. */
  function InsertByName(rows: seq<ProductRow>, row: ProductRow): (r: seq<ProductRow>)
    ensures multiset(r) == multiset(rows) + multiset{row}
  {
    if rows == [] then [row]
    else if RowLe(row, rows[0]) then [row] + rows
    else
      assert rows == [rows[0]] + rows[1..];
      [rows[0]] + InsertByName(rows[1..], row)
  }

  lemma {:induction false} InsertSorted(rows: seq<ProductRow>, row: ProductRow)
    requires SortedByName(rows)
    ensures SortedByName(InsertByName(rows, row))
  {
    if rows == [] {
    } else if RowLe(row, rows[0]) {
      forall j | 0 <= j < |rows| ensures RowLe(row, rows[j]) {
        if j > 0 {
          NameLeTransitive(row.data.name, rows[0].data.name, rows[j].data.name);
        }
      }
    } else {
      NameLeTotal(row.data.name, rows[0].data.name);
      InsertSorted(rows[1..], row);
      var tail := InsertByName(rows[1..], row);
      forall j | 0 <= j < |tail| ensures RowLe(rows[0], tail[j]) {
        assert tail[j] in multiset(tail);
        if tail[j] != row {
          assert tail[j] in multiset(rows[1..]);
          assert tail[j] in rows[1..];
        }
      }
    }
  }

  /**
   * `rows` lists the products whose identifiers are in `ids`, each once, with
   * the columns the table holds for it.
   */
  ghost predicate Lists(rows: seq<ProductRow>, products: map<int, Product>, ids: set<int>)
  {
    && |rows| == |ids|
    && (forall i :: 0 <= i < |rows| ==> rows[i].id in ids && rows[i].id in products && products[rows[i].id] == rows[i].data)
    && (forall id :: id in ids ==> exists i :: 0 <= i < |rows| && rows[i].id == id)
  }

  lemma InsertLists(rows: seq<ProductRow>, products: map<int, Product>, ids: set<int>, id: int)
    requires Lists(rows, products, ids) && id in products && id !in ids
    ensures Lists(InsertByName(rows, ProductRow(id, products[id])), products, ids + {id})
  {
    var row := ProductRow(id, products[id]);
    var next := InsertByName(rows, row);
    forall i | 0 <= i < |next| ensures next[i] == row || next[i] in rows {
      assert next[i] in multiset(next);
    }
    forall id' | id' in ids + {id} ensures exists i :: 0 <= i < |next| && next[i].id == id' {
      if id' == id {
        assert row in multiset(next);
      } else {
        var i :| 0 <= i < |rows| && rows[i].id == id';
        assert rows[i] in multiset(next);
      }
    }
  }

  // ------------------------------------------------------------ aggregates

  /** SUM(total_amount) over the sales dated `day`; 0 when there are none. */
  function SalesOn(sales: seq<Sale>, day: Day): real
  {
    if sales == [] then 0.0
    else (if sales[0].date == day then sales[0].total else 0.0) + SalesOn(sales[1..], day)
  }

  lemma {:induction false} SalesOnAppend(sales: seq<Sale>, s: Sale, day: Day)
    ensures SalesOn(sales + [s], day) == SalesOn(sales, day) + (if s.date == day then s.total else 0.0)
  {
    if sales != [] {
      assert (sales + [s])[1..] == sales[1..] + [s];
      SalesOnAppend(sales[1..], s, day);
    }
  }

  lemma {:induction false} SalesOnNoneThatDay(sales: seq<Sale>, day: Day)
    requires forall i :: 0 <= i < |sales| ==> sales[i].date != day
    ensures SalesOn(sales, day) == 0.0
  {
    if sales != [] {
      SalesOnNoneThatDay(sales[1..], day);
    }
  }

  /** The expiry test: a known expiry date inside the inclusive window [first, last]. */
  predicate ExpiresWithin(p: Product, first: Day, last: Day)
  {
    p.expiry.Some? && first <= p.expiry.value <= last
  }

  function ExpiringIds(products: map<int, Product>, first: Day, last: Day): set<int>
  {
    set id | id in products && ExpiresWithin(products[id], first, last)
  }

  /** A new product adds one to the count exactly when its expiry is inside the window. */
  lemma ExpiringAfterAdd(products: map<int, Product>, id: int, p: Product, first: Day, last: Day)
    requires id !in products
    ensures |ExpiringIds(products[id := p], first, last)|
         == |ExpiringIds(products, first, last)| + (if ExpiresWithin(p, first, last) then 1 else 0)
  {
    var before := ExpiringIds(products, first, last);
    if ExpiresWithin(p, first, last) {
      assert ExpiringIds(products[id := p], first, last) == before + {id};
    } else {
      assert ExpiringIds(products[id := p], first, last) == before;
    }
  }

  lemma {:induction false} SubsetNoLarger(a: set<int>, b: set<int>)
    requires a <= b
    ensures |a| <= |b|
  {
    if a != {} {
      assert (forall y :: y !in a) ==> a == {};
      var x :| x in a;
      SubsetNoLarger(a - {x}, b - {x});
    }
  }

  // ---------------------------------------------------------- sale composer

  function ItemOf(line: CartLine): LineItem
  {
    LineItem(line.product.id, line.product.data.name, line.quantity, line.product.data.salePrice, line.total)
  }

  /** The item list stored with a sale: one snapshot per cart line, in cart order. */
  function Items(lines: seq<CartLine>): (items: seq<LineItem>)
    ensures |items| == |lines|
    ensures forall i :: 0 <= i < |lines| ==>
      && items[i].productId == lines[i].product.id
      && items[i].name == lines[i].product.data.name
      && items[i].quantity == lines[i].quantity
      && items[i].price == lines[i].product.data.salePrice
      && items[i].total == lines[i].total
  {
    seq(|lines|, i requires 0 <= i < |lines| => ItemOf(lines[i]))
  }

  function ItemsTotal(items: seq<LineItem>): real
  {
    if items == [] then 0.0 else items[0].total + ItemsTotal(items[1..])
  }

  /** A sale's total agrees with the totals in its own item list. */
  lemma {:induction false} ItemsTotalIsCartTotal(lines: seq<CartLine>)
    ensures ItemsTotal(Items(lines)) == Total(lines)
  {
    if lines != [] {
      assert Items(lines)[1..] == Items(lines[1..]);
      ItemsTotalIsCartTotal(lines[1..]);
    }
  }

  /** The sales row the composer inserts for `cart`. */
  function SaleOf(cart: seq<CartLine>, stamp: nat, today: Day): Sale
  {
    Sale(InvoiceNumber(stamp), today, Total(cart), Items(cart))
  }

  /** The summed quantity of the cart lines naming product `id`. */
  function Ordered(lines: seq<CartLine>, id: int): int
  {
    if lines == [] then 0
    else Ordered(lines[..|lines| - 1], id)
         + (if lines[|lines| - 1].product.id == id then lines[|lines| - 1].quantity else 0)
  }

  /** UPDATE products SET quantity = quantity - q WHERE id = ... for one line. */
  function Decrement(products: map<int, Product>, line: CartLine): map<int, Product>
  {
    var id := line.product.id;
    if id in products then products[id := products[id].(quantity := products[id].quantity - line.quantity)]
    else products
  }

  /** The products after each line's decrement, applied in cart order. */
  function StockAfter(products: map<int, Product>, lines: seq<CartLine>): map<int, Product>
  {
    if lines == [] then products
    else Decrement(StockAfter(products, lines[..|lines| - 1]), lines[|lines| - 1])
  }

  /**
   * `after` is `before` with each product's quantity lowered by what the
   * cart orders of it, with no floor; every other column and every product
   * the cart does not name are as they were.
   */
  ghost predicate StockDecremented(before: map<int, Product>, after: map<int, Product>, cart: seq<CartLine>)
  {
    && after.Keys == before.Keys
    && forall id :: id in after ==> after[id] == before[id].(quantity := before[id].quantity - Ordered(cart, id))
  }

  lemma {:induction false} StockAfterDecrements(products: map<int, Product>, lines: seq<CartLine>)
    ensures StockDecremented(products, StockAfter(products, lines), lines)
  {
    if lines != [] {
      StockAfterDecrements(products, lines[..|lines| - 1]);
    }
  }

  lemma StockAfterStep(products: map<int, Product>, lines: seq<CartLine>, k: nat)
    requires k < |lines|
    ensures StockAfter(products, lines[..k + 1]) == Decrement(StockAfter(products, lines[..k]), lines[k])
  {
    assert lines[..k + 1][..k] == lines[..k];
  }

  /** A sale under a fresh invoice number and its decrements keep a file well formed. */
  lemma SoldWellFormed(f: DbFile, cart: seq<CartLine>, sale: Sale)
    requires WellFormed(f) && f.tables == AllTables && sale.invoice !in Invoices(f.sales)
    ensures WellFormed(f.(sales := f.sales + [sale], products := StockAfter(f.products, cart)))
  {
  }

  // ------------------------------------------------------------- the store

  class DatabaseManager {
    var tables: set<Table>
    var products: map<int, Product>
    var nextId: int
    var customerCount: nat
    var sales: seq<Sale>

    function Snapshot(): DbFile
      reads this
    {
      DbFile(tables, products, nextId, customerCount, sales)
    }

    ghost predicate Valid()
      reads this
    {
      WellFormed(Snapshot()) && tables == AllTables
    }

    /** Opens a database file, new or existing, and ensures the schema. */
    constructor Open(file: DbFile)
      requires WellFormed(file)
      ensures Valid()
      ensures Snapshot() == file.(tables := AllTables)
    {
      tables, products, nextId, customerCount, sales := file.tables, file.products, file.nextId, file.customerCount, file.sales;
      new;
      CreateTables();
    }

    /** CREATE TABLE IF NOT EXISTS for each table of the schema. */
    method CreateTables()
      requires WellFormed(Snapshot())
      modifies this`tables
      ensures WellFormed(Snapshot())
      ensures Snapshot() == old(Snapshot()).(tables := AllTables)
      ensures old(tables) == AllTables ==> Snapshot() == old(Snapshot())
    {
      for k := 0 to |Schema|
        invariant WellFormed(Snapshot())
        invariant tables == old(tables) + set t | t in Schema[..k]
      {
        if Schema[k] !in tables {
          tables := tables + {Schema[k]};
        }
      }
      assert Schema[..|Schema|] == Schema;
      forall t | t in old(tables) ensures t in AllTables {
        match t
        case ProductsTable =>
        case CustomersTable =>
        case SalesTable =>
      }
    }

    method AddProduct(data: Product) returns (r: Result<int>)
      requires Valid()
      modifies this`products, this`nextId
      ensures Valid()
      ensures data.name.None? ==> r == Err(NameIsNull) && Snapshot() == old(Snapshot())
      ensures data.name.Some? ==>
        && r == Ok(old(nextId))
        && (forall id :: id in old(products) ==> id < r.value)
        && Snapshot() == old(Snapshot()).(products := old(products)[r.value := data], nextId := old(nextId) + 1)
    {
      if data.name.None? {
        return Err(NameIsNull);
      }
      r := Ok(nextId);
      products := products[nextId := data];
      nextId := nextId + 1;
    }

    method GetAllProducts() returns (rows: seq<ProductRow>)
      ensures SortedByName(rows)
      ensures Lists(rows, products, products.Keys)
    {
      rows := [];
      var rest := products.Keys;
      ghost var done: set<int> := {};
      while rest != {}
        invariant done + rest == products.Keys && done !! rest
        invariant SortedByName(rows)
        invariant Lists(rows, products, done)
        decreases |rest|
      {
        assert (forall x :: x !in rest) ==> rest == {};
        var id :| id in rest;
        var row := ProductRow(id, products[id]);
        InsertSorted(rows, row);
        InsertLists(rows, products, done, id);
        rows, rest, done := InsertByName(rows, row), rest - {id}, done + {id};
      }
    }

    method GetProduct(id: int) returns (r: Option<ProductRow>)
      ensures r.None? <==> id !in products
      ensures r.Some? ==> r.value == ProductRow(id, products[id])
    {
      if id in products {
        r := Some(ProductRow(id, products[id]));
      } else {
        r := None;
      }
    }

    method UpdateProduct(id: int, data: Product) returns (r: Result<()>)
      requires Valid()
      modifies this`products
      ensures Valid()
      ensures id in old(products) && data.name.None? ==> r == Err(NameIsNull) && Snapshot() == old(Snapshot())
      ensures id in old(products) && data.name.Some? ==>
        r == Ok(()) && Snapshot() == old(Snapshot()).(products := old(products)[id := data])
      ensures id !in old(products) ==> r == Ok(()) && Snapshot() == old(Snapshot())
    {
      if id in products {
        if data.name.None? {
          return Err(NameIsNull);
        }
        products := products[id := data];
      }
      r := Ok(());
    }

    method DeleteProduct(id: int)
      requires Valid()
      modifies this`products
      ensures Valid()
      ensures Snapshot() == old(Snapshot()).(products := old(products) - {id})
    {
      products := products - {id};
    }

    method GetTotalProducts() returns (n: nat)
      ensures n == |products|
    {
      n := |products|;
    }

    method GetTotalCustomers() returns (n: nat)
      ensures n == customerCount
    {
      n := customerCount;
    }

    method GetTodaySales(today: Day) returns (total: real)
      ensures total == SalesOn(sales, today)
      ensures (forall i :: 0 <= i < |sales| ==> sales[i].date != today) ==> total == 0.0
    {
      total := SalesOn(sales, today);
      if forall i :: 0 <= i < |sales| ==> sales[i].date != today {
        SalesOnNoneThatDay(sales, today);
      }
    }

    /**
     * The clock is read twice: `limitDay` is the date the upper bound is
     * computed from, `today` the date used as the lower bound. They differ
     * only when the call straddles midnight.
     */
    method GetExpiringSoon(limitDay: Day, today: Day, days: int := 90) returns (n: nat)
      ensures n == |ExpiringIds(products, today, limitDay + days)|
      ensures n <= |products|
    {
      var ids := ExpiringIds(products, today, limitDay + days);
      assert ids <= products.Keys;
      SubsetNoLarger(ids, products.Keys);
      n := |ids|;
    }

    /**
     * Inserts the sale for `cart` under the invoice number of `stamp`, then
     * decrements the stock of every product the cart names.
     */
    method CreateSale(cart: seq<CartLine>, stamp: nat, today: Day) returns (r: Result<string>)
      requires Valid() && IsStamp(stamp)
      modifies this`products, this`sales
      ensures Valid()
      ensures tables == old(tables) && nextId == old(nextId) && customerCount == old(customerCount)
      ensures InvoiceNumber(stamp) in Invoices(old(sales)) ==>
        r == Err(DuplicateInvoice) && Snapshot() == old(Snapshot())
      ensures InvoiceNumber(stamp) !in Invoices(old(sales)) ==>
        && r == Ok(InvoiceNumber(stamp))
        && sales == old(sales) + [SaleOf(cart, stamp, today)]
        && StockDecremented(old(products), products, cart)
        && SalesOn(sales, today) == SalesOn(old(sales), today) + Total(cart)
    {
      var invoice := InvoiceNumber(stamp);
      if invoice in Invoices(sales) {
        return Err(DuplicateInvoice);
      }
      ghost var before := Snapshot();
      SalesOnAppend(sales, SaleOf(cart, stamp, today), today);
      SoldWellFormed(before, cart, SaleOf(cart, stamp, today));
      sales := sales + [Sale(invoice, today, Total(cart), Items(cart))];
      ghost var inserted := sales;
      for k := 0 to |cart|
        invariant sales == inserted
        invariant products == StockAfter(old(products), cart[..k])
      {
        StockAfterStep(old(products), cart, k);
        var id := cart[k].product.id;
        if id in products {
          products := products[id := products[id].(quantity := products[id].quantity - cart[k].quantity)];
        }
      }
      assert cart[..|cart|] == cart;
      StockAfterDecrements(old(products), cart);
      r := Ok(invoice);
    }
  }
}
