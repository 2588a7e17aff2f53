/**
 * The catalog filter (page.tsx `filteredProducts`): a case-insensitive
 * substring search over name and description, and an exact category match
 * unless the selected category is "all". Lower-casing is ASCII only.
 */
module Catalog {
  import opened Entities
  import opened Subsequences

  function LowerChar(c: char): char
  {
    if 'A' <= c <= 'Z' then (c as int + 32) as char else c
  }

  /** `toLowerCase()`, restricted to the ASCII letters. */
  function Lower(s: string): (r: string)
    ensures |r| == |s|
    ensures forall i :: 0 <= i < |s| ==> r[i] == LowerChar(s[i])
  {
    if s == [] then [] else [LowerChar(s[0])] + Lower(s[1..])
  }

  /** `hay.includes(needle)`: the needle is a prefix of some suffix of the haystack. */
  predicate Includes(hay: string, needle: string)
    decreases |hay|
  {
    needle <= hay || (hay != [] && Includes(hay[1..], needle))
  }

  /** Reference definition: the needle occurs in the haystack starting at position `i`. */
  ghost predicate OccursAt(hay: string, needle: string, i: nat)
  {
    i + |needle| <= |hay| && hay[i..i + |needle|] == needle
  }

  /** Every occurrence is found by `Includes`. */
  lemma {:induction false} OccurrenceIsIncluded(hay: string, needle: string, i: nat)
    requires OccursAt(hay, needle, i)
    ensures Includes(hay, needle)
    decreases i
  {
    if i > 0 {
      assert hay[1..][i - 1..i - 1 + |needle|] == hay[i..i + |needle|];
      OccurrenceIsIncluded(hay[1..], needle, i - 1);
    } else {
      assert needle <= hay;
    }
  }

  /** `Includes` only answers yes when there is an occurrence; `i` is one. */
  lemma {:induction false} IncludedHasOccurrence(hay: string, needle: string) returns (i: nat)
    requires Includes(hay, needle)
    ensures OccursAt(hay, needle, i)
    decreases |hay|
  {
    if needle <= hay {
      i := 0;
    } else {
      var j := IncludedHasOccurrence(hay[1..], needle);
      assert hay[j + 1..j + 1 + |needle|] == hay[1..][j..j + |needle|];
      i := j + 1;
    }
  }

  lemma IncludesIffOccurs(hay: string, needle: string)
    ensures Includes(hay, needle) <==> exists i: nat :: OccursAt(hay, needle, i)
  {
    if Includes(hay, needle) {
      var i := IncludedHasOccurrence(hay, needle);
    }
    forall i: nat | OccursAt(hay, needle, i) ensures Includes(hay, needle) {
      OccurrenceIsIncluded(hay, needle, i);
    }
  }

  /** The filter's test for one product. */
  predicate Matches(p: Product, searchTerm: string, category: string)
  {
    var term := Lower(searchTerm);
    && (Includes(Lower(p.name), term) || Includes(Lower(p.description), term))
    && (category == "all" || p.category == category)
  }

  /** `products.filter(...)`: the matching products, in catalog order. */
  function FilterProducts(products: seq<Product>, searchTerm: string, category: string): (r: seq<Product>)
    ensures IsSubsequence(r, products)
    ensures forall p :: p in r <==> p in products && Matches(p, searchTerm, category)
  {
    if products == [] then []
    else
      var rest := FilterProducts(products[1..], searchTerm, category);
      if Matches(products[0], searchTerm, category) then
        assert ([products[0]] + rest)[1..] == rest;
        [products[0]] + rest
      else rest
  }

  /** An empty search in category "all" shows the whole catalog, in order. */
  lemma {:induction false} EmptySearchShowsAll(products: seq<Product>)
    ensures FilterProducts(products, "", "all") == products
  {
    if products != [] {
      EmptySearchShowsAll(products[1..]);
      assert Lower("") == "";
      assert Matches(products[0], "", "all");
      assert [products[0]] + products[1..] == products;
    }
  }

  /** The search is insensitive to the case of the term. */
  lemma SearchIgnoresCase(products: seq<Product>, term: string, category: string)
    ensures FilterProducts(products, Lower(term), category) == FilterProducts(products, term, category)
  {
    LowerIdempotent(term);
    assert forall p :: Matches(p, Lower(term), category) == Matches(p, term, category);
    FilterSameTest(products, Lower(term), term, category);
  }

  lemma {:induction false} LowerIdempotent(s: string)
    ensures Lower(Lower(s)) == Lower(s)
  {
    if s != [] {
      LowerIdempotent(s[1..]);
    }
  }

  lemma {:induction false} FilterSameTest(products: seq<Product>, t1: string, t2: string, category: string)
    requires forall p :: Matches(p, t1, category) == Matches(p, t2, category)
    ensures FilterProducts(products, t1, category) == FilterProducts(products, t2, category)
  {
    if products != [] {
      FilterSameTest(products[1..], t1, t2, category);
    }
  }
}
