/**
 * The order in which the store sorts product names: SQLite's default
 * BINARY collation compares the UTF-8 bytes, which orders text exactly as
 * comparing code points one by one does; NULL sorts before every text.
 */
module Collation {
  import opened Records

  /** Lexicographic order on code points; a proper prefix comes first. */
  predicate TextLe(a: string, b: string)
  {
    if a == [] then true
    else if b == [] then false
    else if a[0] != b[0] then a[0] < b[0]
    else TextLe(a[1..], b[1..])
  }

  lemma {:induction false} TextLeTotal(a: string, b: string)
    ensures TextLe(a, b) || TextLe(b, a)
  {
    if a != [] && b != [] && a[0] == b[0] {
      TextLeTotal(a[1..], b[1..]);
    }
  }

  lemma {:induction false} TextLeTransitive(a: string, b: string, c: string)
    requires TextLe(a, b) && TextLe(b, c)
    ensures TextLe(a, c)
  {
    if a != [] && b != [] && c != [] && a[0] == b[0] && b[0] == c[0] {
      TextLeTransitive(a[1..], b[1..], c[1..]);
    }
  }

  /** ORDER BY name: NULL first, then texts in TextLe order. */
  predicate NameLe(a: Option<string>, b: Option<string>)
  {
    match a
    case None => true
    case Some(x) => b.Some? && TextLe(x, b.value)
  }

  lemma NameLeTotal(a: Option<string>, b: Option<string>)
    ensures NameLe(a, b) || NameLe(b, a)
  {
    if a.Some? && b.Some? {
      TextLeTotal(a.value, b.value);
    }
  }

  lemma NameLeTransitive(a: Option<string>, b: Option<string>, c: Option<string>)
    requires NameLe(a, b) && NameLe(b, c)
    ensures NameLe(a, c)
  {
    if a.Some? {
      TextLeTransitive(a.value, b.value, c.value);
    }
  }
}
