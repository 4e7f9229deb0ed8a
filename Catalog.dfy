/** The product catalog as the sale screen sees it, and the search box that
    filters it: a product is listed when its lower-cased name contains the
    lower-cased query. */
module Catalog {

  /** A catalog product (price in cents, stock in thousandths). */
  datatype Product = Product(id: int, name: string, unit: string, price: int, stock: int)

  /** Whether `c` is an upper-case letter that `toLowerCase` changes: the
      ASCII letters and the Latin-1 letters U+00C0..U+00DE except the
      multiplication sign U+00D7. */
  predicate IsUpper(c: char)
  {
    ('A' <= c <= 'Z') || ('À' <= c <= 'Þ' && c != '×')
  }

  /** `toLowerCase` on one character: upper-case letters move up by 32
      code points, everything else is unchanged. */
  function LowerChar(c: char): (r: char)
    ensures !IsUpper(r)
    ensures IsUpper(c) ==> r as int == c as int + 32
    ensures !IsUpper(c) ==> r == c
  {
    if IsUpper(c) then (c as int + 32) as char else c
  }

  /** `toLowerCase` on a string, character by character. */
  function Lower(s: string): (r: string)
    ensures |r| == |s|
    ensures forall i :: 0 <= i < |s| ==> r[i] == LowerChar(s[i])
  {
    if s == [] then [] else [LowerChar(s[0])] + Lower(s[1..])
  }

  /** Lower-casing twice is lower-casing once. */
  lemma LowerIdempotent(s: string)
    ensures Lower(Lower(s)) == Lower(s)
  {
  }

  /** `needle` occurs in `hay` starting at position `i`. */
  predicate OccursAt(hay: string, needle: string, i: int)
    requires 0 <= i <= |hay| - |needle|
  {
    hay[i..i + |needle|] == needle
  }

  /** `String.prototype.includes`: `needle` occurs somewhere in `hay` (the
      empty needle occurs everywhere). */
  predicate Includes(hay: string, needle: string): (b: bool)
    ensures b <==> exists i :: 0 <= i <= |hay| - |needle| && OccursAt(hay, needle, i)
    decreases |hay|
  {
    if |needle| > |hay| then false
    else if hay[..|needle|] == needle then
      assert OccursAt(hay, needle, 0);
      true
    else
      var b := Includes(hay[1..], needle);
      if b then
        var j :| 0 <= j <= |hay| - 1 - |needle| && OccursAt(hay[1..], needle, j);
        assert hay[1..][j..j + |needle|] == hay[j + 1..j + 1 + |needle|];
        assert OccursAt(hay, needle, j + 1);
        true
      else
        assert forall i :: 0 <= i <= |hay| - |needle| ==> !OccursAt(hay, needle, i) by {
          forall i | 0 <= i <= |hay| - |needle| ensures !OccursAt(hay, needle, i) {
            if i > 0 {
              assert !OccursAt(hay[1..], needle, i - 1);
              assert hay[1..][i - 1..i - 1 + |needle|] == hay[i..i + |needle|];
            }
          }
        }
        false
  }

  /** The search box's test for one product. */
  predicate Matches(p: Product, query: string): (b: bool)
    ensures b <==> exists i :: 0 <= i <= |Lower(p.name)| - |Lower(query)| && OccursAt(Lower(p.name), Lower(query), i)
    ensures query == [] ==> b
  {
    assert query == [] ==> OccursAt(Lower(p.name), Lower(query), 0);
    Includes(Lower(p.name), Lower(query))
  }

  /** The products the search box lists, in catalog order. */
  function Search(products: seq<Product>, query: string): (r: seq<Product>)
    ensures |r| <= |products|
    ensures forall p :: p in r <==> p in products && Matches(p, query)
  {
    if products == [] then []
    else if Matches(products[0], query) then [products[0]] + Search(products[1..], query)
    else Search(products[1..], query)
  }

  /** Filtering works product by product: the listed products keep their
      catalog order. */
  lemma {:induction false} SearchConcat(a: seq<Product>, b: seq<Product>, query: string)
    ensures Search(a + b, query) == Search(a, query) + Search(b, query)
  {
    if a == [] {
      assert a + b == b;
    } else {
      assert (a + b)[0] == a[0];
      assert (a + b)[1..] == a[1..] + b;
      SearchConcat(a[1..], b, query);
    }
  }

  /** An empty search box lists the whole catalog. */
  lemma {:induction false} SearchEmptyQuery(products: seq<Product>)
    ensures Search(products, "") == products
  {
    if products != [] {
      assert OccursAt(Lower(products[0].name), Lower(""), 0);
      SearchEmptyQuery(products[1..]);
      assert products == [products[0]] + products[1..];
    }
  }

  /** The search ignores case: a query and its lower-case form list the
      same products. */
  lemma {:induction false} SearchIgnoresCase(products: seq<Product>, query: string)
    ensures Search(products, Lower(query)) == Search(products, query)
  {
    LowerIdempotent(query);
    if products != [] {
      SearchIgnoresCase(products[1..], query);
    }
  }
}
