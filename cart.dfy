/** The sales screen's cart: lines built from a product read and a quantity. */
module Cart {
  import opened Records

  /** A cart line: the product as read when it was added, the quantity, the line total. */
  datatype CartLine = CartLine(product: ProductRow, quantity: int, total: real)

  /** The line that adding `quantity` of `row` appends: its total is priced at add time. */
  function LineFor(row: ProductRow, quantity: int): CartLine
  {
    CartLine(row, quantity, row.data.salePrice * (quantity as real))
  }

  /** The sum of the line totals, 0 for no lines. */
  function Total(lines: seq<CartLine>): real
  {
    if lines == [] then 0.0 else lines[0].total + Total(lines[1..])
  }

  lemma {:induction false} TotalAppend(lines: seq<CartLine>, line: CartLine)
    ensures Total(lines + [line]) == Total(lines) + line.total
  {
    if lines != [] {
      assert (lines + [line])[1..] == lines[1..] + [line];
      TotalAppend(lines[1..], line);
    }
  }
}
