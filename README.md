# Pharmacy store and sales flow, modelled in Dafny

This project models the data layer of a small pharmacy point-of-sale app,
plus the sales screen's cart. The SQLite file becomes a `DatabaseManager`
object with five fields:

- the set of tables that exist;
- the products, a map from identifier to the ten caller-supplied columns;
- the next identifier AUTOINCREMENT hands out;
- the number of customer rows;
- the sales rows, in insertion order.

Modules follow the program:

- `Records`: rows and errors.
- `Collation`: the order `ORDER BY name` sorts in.
- `Invoice`: the invoice number format.
- `Cart`: cart lines and their total.
- `Database`: the `DatabaseManager` class, with the specification functions its methods are proved against.
- `Screens`: the `SalesScreen` class.

The clock is a parameter. A date is a day number (`Day`). The invoice timestamp is the 14-digit number `YYYYMMDDHHMMSS` (`IsStamp`). `create_sale` reads the clock once for the invoice number and once more for the date, so `CreateSale` takes the two as separate parameters. `get_expiring_soon` also reads it twice: one read gives the upper bound (that day plus `days`) and the other the lower bound. `GetExpiringSoon` therefore takes `limitDay` and `today` separately. Prices are `real`.

Contracts state these behaviours:

- Adding a product with a NULL name fails with `NameIsNull`. Updating fails the same way, but only when the identifier exists, because SQLite checks NOT NULL per updated row.
- Reusing an invoice number fails with `DuplicateInvoice`. The failed INSERT leaves the store unchanged.
- `CompleteSale` reports that failure and keeps the cart, just as the exception escapes before `self.cart = []`.
- Stock decrements have no floor. A product the cart names but the store no longer holds is skipped, because the UPDATE matches no row.
- `add_to_cart` checks each line against the stock it reads at that moment. It does not add up earlier lines for the same product. The model keeps this, so a cart can order more than the stock.

`Screens.CheckoutExample` is a verified client. It uses only the contracts to check out three units of one product at 10.0 and two of another at 5.0. It proves that the sale totals 40.0 and carries two items, and that each stock drops by the quantity sold. A third request, for more than the stock, leaves the cart unchanged.

## Model

| member | source | states |
|---|---|---|
| `Database.DatabaseManager.Open` | database.py:16-19 | opening a well-formed file yields a valid store with every table present and every existing row kept |
| `Database.DatabaseManager.CreateTables` | database.py:21-62 | creates exactly the missing tables (empty); on a store that has all three, nothing changes |
| `Database.DatabaseManager.AddProduct` | database.py:65-72 | a NULL name fails and changes nothing; otherwise returns an id larger than every existing id, stores exactly the ten given columns under it, advances the counter, leaves everything else unchanged |
| `Database.DatabaseManager.GetProduct` | database.py:78-81 | returns None exactly when the id is absent, otherwise the row with that id and its stored columns |
| `Database.DatabaseManager.UpdateProduct` | database.py:83-90 | on a present id, replaces all ten columns (fails unchanged on a NULL name); on an absent id, succeeds and changes nothing; other rows unchanged |
| `Database.DatabaseManager.DeleteProduct` | database.py:92-94 | removes exactly that id (no-op when absent); the id counter and all other rows and tables unchanged |
| `Database.DatabaseManager.GetAllProducts` | database.py:74-76 | returns rows sorted by name (NULL first), as many as there are products, each carrying its stored columns, every product present |
| `Database.DatabaseManager.GetTotalProducts` | database.py:97-99 | equals the number of product rows |
| `Database.DatabaseManager.GetTotalCustomers` | database.py:101-103 | equals the number of customer rows |
| `Database.DatabaseManager.GetTodaySales` | database.py:105-109 | equals the sum of totals of the sales dated today, and 0.0 when no sale is dated today |
| `Database.DatabaseManager.GetExpiringSoon` | database.py:111-118 | counts the products with a known expiry in [today, limit day + days], the two days being the two clock reads (days defaults to 90); never more than the number of products |
| `Database.DatabaseManager.CreateSale` | database.py:120-155 | a taken invoice number fails with DuplicateInvoice and changes nothing; otherwise appends exactly one sale (invoice, today, cart total, item list), lowers each product's stock by its ordered quantity, leaves the rest unchanged, raises today's sales by the cart total and returns the invoice number |
| `Database.InsertByName` | database.py:75 | the result is the input rows plus the new row, as a multiset |
| `Database.InsertSorted` | database.py:75 | inserting into rows sorted by name keeps them sorted |
| `Database.InsertLists` | database.py:74-76 | inserting a product not yet listed lists it together with the ones already listed, each with its stored columns |
| `Database.SalesOnAppend` | database.py:107 | appending a sale adds its total to that day's sum exactly when it is dated that day |
| `Database.SalesOnNoneThatDay` | database.py:107-109 | with no sale on a day, that day's sum is 0.0 |
| `Database.ExpiringAfterAdd` | database.py:113-117 | a new product raises the expiring count by one exactly when its expiry lies in the window; one with no expiry never counts |
| `Database.Items` | database.py:125-134 | one item per cart line, in order, carrying the line's product id, name, quantity, sale price and total |
| `Database.ItemsTotalIsCartTotal` | database.py:122-134 | a sale's total equals the sum of the totals in its own item list |
| `Database.StockAfterDecrements` | database.py:148-152 | running the per-line decrements lowers each product's quantity by the summed quantity of the lines naming it, with no floor; other columns and other products unchanged |
| `Database.SoldWellFormed` | database.py:50 | a sale under a fresh invoice number, with its decrements, keeps ids below the counter, names non-null and invoice numbers unique |
| `Invoice.InvoiceNumber` | database.py:121 | the invoice number is 18 characters: "INV-" followed by 14 decimal digits |
| `Invoice.Digits` | database.py:121 | the fixed-width rendering of a number has the requested length and only decimal digits |
| `Invoice.DigitsRoundTrip` | database.py:121 | reading the digits back gives the number, when it fits the width |
| `Invoice.InvoiceRoundTrip` | database.py:121 | the clock reading can be recovered from its invoice number |
| `Invoice.InvoiceNumberInjective` | database.py:50 | two readings give the same invoice number exactly when they are the same second, so only same-second sales collide |
| `Collation.TextLeTotal` | database.py:75 | any two names are comparable |
| `Collation.TextLeTransitive` | database.py:75 | the name order is transitive |
| `Collation.NameLeTotal` | database.py:75 | any two possibly-NULL names are comparable |
| `Collation.NameLeTransitive` | database.py:75 | the NULL-first order is transitive |
| `Cart.TotalAppend` | main.py:103 | appending a line raises the cart total by exactly that line's total |
| `Screens.SalesScreen.constructor` | main.py:86-89 | the screen opens its own store and starts with an empty cart |
| `Screens.SalesScreen.AddToCart` | main.py:91-100 | when the product exists and its stock covers the quantity, appends one line whose total is sale price times quantity, and the displayed total grows by it; otherwise the cart is unchanged |
| `Screens.SalesScreen.UpdateCart` | main.py:102-104 | the displayed total is the sum of the line totals, 0 for an empty cart |
| `Screens.SalesScreen.CompleteSale` | main.py:106-110 | an empty cart changes nothing; otherwise the cart goes to the sale composer once; on success the cart is emptied; on a duplicate invoice the failure is reported and cart and store are unchanged |

## Left out

- Choosing the database path by platform and importing the Android storage module: platform I/O.
- SQLite connection, cursor, `row_factory` and commit calls. The tables are fields. The crash window between the two commits in `create_sale` is not modelled: it needs a model of durability.
- `datetime.now()`: the current day and the timestamp are parameters. Years before 1000, whose `%Y` would not give four digits, are outside `IsStamp`.
- JSON encoding of the item list (`json.dumps`): `items` is a sequence of `LineItem` records. The text round trip belongs to the JSON library, which is not part of this model.
- Floating point: prices and totals are exact `real`s. No rounding and no `:.2f` display formatting.
- NULL in numeric columns: prices, quantity and minimum stock are always numbers. The `min_stock` default and the `created_at` defaults are not modelled: every insert supplies `min_stock`, and nothing reads `created_at`.
- The sales row identifier, and `patient_name` and `payment_method`, which `create_sale` leaves NULL: no code reads them.
- Customer CRUD: `get_all_customers` is called by the customers screen but defined nowhere, so only the customer count is modelled.
- The other screens, widget and label plumbing, the app class and its pause/resume hooks: UI code.
- `Database.DatabaseManager.GetExpiringSoon`: does not model the OverflowError that `timedelta` and date addition raise when `days` is out of range or the upper bound leaves the years 1 to 9999; day numbers are unbounded, so the model returns a count there.
- Integer limits: identifiers and quantities are unbounded, so SQLite's 64-bit rowid limit is not modelled.
- `Database.DatabaseManager.GetAllProducts`: the order among products with equal names is left open, as SQLite leaves it.
