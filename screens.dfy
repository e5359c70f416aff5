/** The sales screen: a cart kept in memory and handed to the store on checkout. */
module Screens {
  import opened Records
  import opened Invoice
  import opened Cart
  import opened Database

  class SalesScreen {
    const db: DatabaseManager
    var cart: seq<CartLine>

    ghost predicate Valid()
      reads this, db
    {
      db.Valid()
    }

    /** Opens the store on `file` and starts with an empty cart. */
    constructor (file: DbFile)
      requires WellFormed(file)
      ensures Valid() && fresh(db)
      ensures cart == [] && db.Snapshot() == file.(tables := AllTables)
    {
      db := new DatabaseManager.Open(file);
      cart := [];
    }

    /**
     * Appends a line for `quantity` of product `productId` when the product
     * exists and its stock, as read now, covers the quantity; otherwise the
     * cart stays as it was.
     */
    method AddToCart(productId: int, quantity: int)
      requires Valid()
      modifies this`cart
      ensures Valid()
      ensures productId in db.products && db.products[productId].quantity >= quantity ==>
        && cart == old(cart) + [LineFor(ProductRow(productId, db.products[productId]), quantity)]
        && cart[|cart| - 1].total == db.products[productId].salePrice * (quantity as real)
        && Total(cart) == Total(old(cart)) + cart[|cart| - 1].total
      ensures !(productId in db.products && db.products[productId].quantity >= quantity) ==> cart == old(cart)
    {
      var product := db.GetProduct(productId);
      if product.Some? && product.value.data.quantity >= quantity {
        var line := LineFor(product.value, quantity);
        TotalAppend(cart, line);
        cart := cart + [line];
        var _ := UpdateCart();
      }
    }

    /** The total the screen displays for the cart. */
    method UpdateCart() returns (total: real)
      ensures total == Total(cart)
      ensures cart == [] ==> total == 0.0
    {
      total := Total(cart);
    }

    /**
     * On a non-empty cart, records the sale under the clock reading `stamp`
     * on day `today` and empties the cart; a duplicate invoice number leaves
     * store and cart as they were and is reported.
     */
    method CompleteSale(stamp: nat, today: Day) returns (failure: Option<DbError>)
      requires Valid() && IsStamp(stamp)
      modifies this`cart, db`products, db`sales
      ensures Valid()
      ensures old(cart) == [] ==> failure == None && cart == [] && db.Snapshot() == old(db.Snapshot())
      ensures old(cart) != [] && InvoiceNumber(stamp) in Invoices(old(db.sales)) ==>
        failure == Some(DuplicateInvoice) && cart == old(cart) && db.Snapshot() == old(db.Snapshot())
      ensures old(cart) != [] && InvoiceNumber(stamp) !in Invoices(old(db.sales)) ==>
        && failure == None
        && cart == []
        && db.sales == old(db.sales) + [SaleOf(old(cart), stamp, today)]
        && StockDecremented(old(db.products), db.products, old(cart))
        && db.tables == old(db.tables) && db.nextId == old(db.nextId) && db.customerCount == old(db.customerCount)
    {
      failure := None;
      if cart != [] {
        var r := db.CreateSale(cart, stamp, today);
        if r.Err? {
          return Some(r.error);
        }
        cart := [];
        var _ := UpdateCart();
      }
    }
  }

  /**
   * A client of the contracts: two products, three of the first at 10.0 and
   * two of the second at 5.0, checked out under one clock reading.
   */
  method CheckoutExample(stamp: nat, today: Day)
    requires IsStamp(stamp)
  {
    var first := Product(None, Some("Aspirin"), None, None, None, 6.0, 10.0, 5, 10, None);
    var second := Product(None, Some("Bandage"), None, None, None, 3.0, 5.0, 4, 10, None);
    var file := DbFile(AllTables, map[1 := first, 2 := second], 3, 0, []);
    assert WellFormed(file);
    var screen := new SalesScreen(file);
    screen.AddToCart(1, 3);
    screen.AddToCart(2, 2);
    screen.AddToCart(2, 9);
    var cart := [LineFor(ProductRow(1, first), 3), LineFor(ProductRow(2, second), 2)];
    assert screen.cart == cart;
    assert Total(cart) == 40.0;
    assert Ordered(cart, 1) == 3 && Ordered(cart, 2) == 2 by {
      assert cart[..1] == [cart[0]] && cart[..1][..0] == [];
      assert cart[0].product.id == 1 && cart[1].product.id == 2;
      assert Ordered(cart[..1], 1) == 3 && Ordered(cart[..1], 2) == 0;
    }
    assert InvoiceNumber(stamp) !in Invoices([]);
    var failure := screen.CompleteSale(stamp, today);
    assert failure == None && screen.cart == [];
    var sale := screen.db.sales[0];
    assert sale.invoice == InvoiceNumber(stamp) && sale.date == today && sale.total == 40.0;
    assert |sale.items| == 2 && sale.items[0].productId == 1 && sale.items[1].total == 10.0;
    assert screen.db.products[1].quantity == 2 && screen.db.products[2].quantity == 2;
  }
}
