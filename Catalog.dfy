/**
 * The product store: a list of products, a search term and a selected
 * category, with the derived list of products that pass both filters.
 */
module Catalog {
  import opened Wrappers
  import opened Text

  /** One catalog entry. The price is kept as data only; nothing computes with it. */
  datatype Product = Product(
    id: string,
    name: string,
    description: string,
    price: real,
    stock: int,
    imageUrl: string,
    category: string,
    createdAt: string)

  /** The name or the description includes the search term, ignoring case. */
  predicate MatchesSearch(p: Product, term: string)
    ensures term == "" ==> MatchesSearch(p, term)
    ensures MatchesSearch(p, term) ==> |term| <= |p.name| || |term| <= |p.description|
  {
    Contains(Lower(p.name), Lower(term)) || Contains(Lower(p.description), Lower(term))
  }

  /** No category selected (the empty string is falsy), or exactly the selected one. */
  predicate MatchesCategory(p: Product, category: string)
    ensures category == "" ==> MatchesCategory(p, category)
    ensures category != "" ==> (MatchesCategory(p, category) <==> p.category == category)
  {
    category == "" || p.category == category
  }

  predicate Matches(p: Product, term: string, category: string)
  {
    MatchesSearch(p, term) && MatchesCategory(p, category)
  }

  /**
   * `Array.prototype.filter`: the elements for which `keep` holds, in their
   * original order.
   */
  function Select<T>(s: seq<T>, keep: T -> bool): (r: seq<T>)
    ensures |r| <= |s|
    ensures multiset(r) <= multiset(s)
    ensures forall x :: x in r ==> keep(x)
  {
    if s == [] then []
    else
      var rest := Select(s[1..], keep);
      assert s == [s[0]] + s[1..];
      if keep(s[0]) then [s[0]] + rest else rest
  }

  /** The callback of `filteredProducts` for a given search term and category. */
  function MatchesFilter(term: string, category: string): Product -> bool
  {
    p => Matches(p, term, category)
  }

  /** `filteredProducts` on the store's three fields. */
  function Filter(products: seq<Product>, term: string, category: string): (r: seq<Product>)
    ensures |r| <= |products|
    ensures forall p :: p in r ==> p in products && Matches(p, term, category)
  {
    var r := Select(products, MatchesFilter(term, category));
    assert forall p :: p in r ==> p in products by {
      forall p | p in r ensures p in products {
        assert multiset(r)[p] > 0;
      }
    }
    r
  }

  /** Strictly increasing positions. */
  ghost predicate Increasing(idx: seq<nat>)
  {
    forall j, k :: 0 <= j < k < |idx| ==> idx[j] < idx[k]
  }

  /** Every position moved one step to the right. */
  function Shift(idx: seq<nat>): (r: seq<nat>)
  {
    seq(|idx|, k requires 0 <= k < |idx| => idx[k] + 1)
  }

  lemma ShiftFacts(idx: seq<nat>, n: nat)
    requires Increasing(idx)
    requires forall k :: 0 <= k < |idx| ==> idx[k] < n
    ensures Increasing(Shift(idx)) && Increasing([0] + Shift(idx))
    ensures forall k :: 0 <= k < |idx| ==> Shift(idx)[k] < n + 1
    ensures 0 !in Shift(idx)
    ensures forall i :: 1 <= i ==> (i in Shift(idx) <==> i - 1 in idx)
  {
    forall i | 1 <= i ensures i in Shift(idx) <==> i - 1 in idx {
      if i - 1 in idx {
        var k :| 0 <= k < |idx| && idx[k] == i - 1;
        assert Shift(idx)[k] == i;
      }
    }
  }

  /** `r[k]` is the element of `s` at position `idx[k]`, for every k. */
  ghost predicate PicksAt<T>(r: seq<T>, s: seq<T>, idx: seq<nat>)
  {
    |idx| == |r| && forall k :: 0 <= k < |idx| ==> idx[k] < |s| && r[k] == s[idx[k]]
  }

  /** Picking from the tail of `s` is picking from `s` one position further right. */
  lemma PicksAtCons<T>(r: seq<T>, s: seq<T>, idx: seq<nat>, keepHead: bool)
    requires s != [] && PicksAt(r, s[1..], idx)
    ensures keepHead ==> PicksAt([s[0]] + r, s, [0] + Shift(idx))
    ensures !keepHead ==> PicksAt(r, s, Shift(idx))
  {
  }

  /**
   * The result is the subsequence of `s` made of exactly the kept positions:
   * `idx` lists them in increasing order and the k-th result is the element
   * at `idx[k]`.
   */
  lemma {:induction false} SelectKeepsPositions<T>(s: seq<T>, keep: T -> bool) returns (idx: seq<nat>)
    ensures Increasing(idx)
    ensures PicksAt(Select(s, keep), s, idx)
    ensures forall i :: 0 <= i < |s| ==> (i in idx <==> keep(s[i]))
  {
    if s == [] {
      idx := [];
    } else {
      var tail := s[1..];
      var rest := SelectKeepsPositions(tail, keep);
      ShiftFacts(rest, |tail|);
      PicksAtCons(Select(tail, keep), s, rest, keep(s[0]));
      idx := if keep(s[0]) then [0] + Shift(rest) else Shift(rest);
      forall i | 0 <= i < |s|
        ensures i in idx <==> keep(s[i])
      {
        if i > 0 {
          assert s[i] == tail[i - 1];
        }
      }
    }
  }

  /** An element is selected iff it occurs in the input and is kept. */
  lemma {:induction false} SelectMembership<T>(s: seq<T>, keep: T -> bool, x: T)
    ensures x in Select(s, keep) <==> x in s && keep(x)
  {
    if s != [] {
      SelectMembership(s[1..], keep, x);
      assert s == [s[0]] + s[1..];
    }
  }

  /** A callback that keeps everything returns the input unchanged. */
  lemma {:induction false} SelectAll<T>(s: seq<T>, keep: T -> bool)
    requires forall x :: x in s ==> keep(x)
    ensures Select(s, keep) == s
  {
    if s != [] {
      SelectAll(s[1..], keep);
      assert s == [s[0]] + s[1..];
    }
  }

  /** Callbacks that agree on every element select the same elements. */
  lemma {:induction false} SelectAgrees<T>(s: seq<T>, f: T -> bool, g: T -> bool)
    requires forall x :: x in s ==> f(x) == g(x)
    ensures Select(s, f) == Select(s, g)
  {
    if s != [] {
      SelectAgrees(s[1..], f, g);
      assert s[0] in s;
    }
  }

  /**
   * The filtered list is the subsequence of the products that pass both
   * filters: exactly the matching positions, in their original order.
   */
  lemma FilterKeepsMatchingPositions(products: seq<Product>, term: string, category: string)
    returns (idx: seq<nat>)
    ensures Increasing(idx)
    ensures PicksAt(Filter(products, term, category), products, idx)
    ensures forall i :: 0 <= i < |products| ==> (i in idx <==> Matches(products[i], term, category))
  {
    idx := SelectKeepsPositions(products, MatchesFilter(term, category));
  }

  /** A product is in the result iff it is in the list and passes both filters. */
  lemma FilterMembership(products: seq<Product>, term: string, category: string, p: Product)
    ensures p in Filter(products, term, category) <==> p in products && Matches(p, term, category)
  {
    SelectMembership(products, MatchesFilter(term, category), p);
  }

  /** With no search term and no category every product is kept, in order. */
  lemma EmptyFiltersKeepAll(products: seq<Product>)
    ensures Filter(products, "", "") == products
  {
    forall p | p in products ensures Matches(p, "", "") {
      assert Lower("") == "";
      ContainsEmpty(Lower(p.name));
    }
    SelectAll(products, MatchesFilter("", ""));
  }

  /** Two search terms that lower-case alike select the same products. */
  lemma SearchIgnoresCase(products: seq<Product>, t1: string, t2: string, category: string)
    requires Lower(t1) == Lower(t2)
    ensures Filter(products, t1, category) == Filter(products, t2, category)
  {
    SelectAgrees(products, MatchesFilter(t1, category), MatchesFilter(t2, category));
  }

  /** In particular the term and its lower-cased form select the same products. */
  lemma LowerTermSameResult(products: seq<Product>, term: string, category: string)
    ensures Filter(products, Lower(term), category) == Filter(products, term, category)
  {
    LowerIdempotent(term);
    SearchIgnoresCase(products, Lower(term), term, category);
  }

  /** A selected category is matched exactly, letter case included. */
  lemma CategoryIsExact(products: seq<Product>, term: string, category: string)
    requires category != ""
    ensures forall p :: p in Filter(products, term, category) ==> p.category == category
  {
  }

  /**
   * The three products the store starts with. Each product reads the clock
   * for its own creation timestamp: `t1`, `t2` and `t3` are those readings.
   */
  function MockProducts(t1: string, t2: string, t3: string): (r: seq<Product>)
    ensures |r| == 3
    ensures r[0].createdAt == t1 && r[1].createdAt == t2 && r[2].createdAt == t3
  {
    [ Product("1", "Wireless Headphones",
              "High-quality wireless headphones with noise cancellation",
              129.99, 50,
              "https://images.unsplash.com/photo-1505740420928-5e560c06d30e?w=300&q=80",
              "Electronics", t1),
      Product("2", "Smart Watch",
              "Feature-rich smartwatch with health tracking",
              199.99, 30,
              "https://images.unsplash.com/photo-1523275335684-37898b6baf30?w=300&q=80",
              "Electronics", t2),
      Product("3", "Laptop Stand",
              "Ergonomic laptop stand for better posture",
              49.99, 100,
              "https://images.unsplash.com/photo-1527864550417-7fd91fc51a46?w=300&q=80",
              "Accessories", t3) ]
  }

  /** The store. `loading` and `error` are declared by the source but never changed. */
  class ProductStore {
    var products: seq<Product>
    var loading: bool
    var error: Option<string>
    var searchTerm: string
    var category: string

    /** The initial state; the three clock readings for `createdAt` are parameters. */
    constructor (t1: string, t2: string, t3: string)
      ensures products == MockProducts(t1, t2, t3) && !loading && error == None
      ensures searchTerm == "" && category == ""
      ensures FilteredProducts() == products
    {
      products := MockProducts(t1, t2, t3);
      loading := false;
      error := None;
      searchTerm := "";
      category := "";
      new;
      EmptyFiltersKeepAll(products);
    }

    method SetSearchTerm(term: string)
      modifies this
      ensures searchTerm == term
      ensures products == old(products) && category == old(category)
      ensures loading == old(loading) && error == old(error)
    {
      searchTerm := term;
    }

    method SetCategory(c: string)
      modifies this
      ensures category == c
      ensures products == old(products) && searchTerm == old(searchTerm)
      ensures loading == old(loading) && error == old(error)
    {
      category := c;
    }

    /** The filtered list; a reader of the store, it changes nothing. */
    function FilteredProducts(): (r: seq<Product>)
      reads this
      ensures |r| <= |products|
      ensures forall p :: p in r <==> p in products && Matches(p, searchTerm, category)
    {
      var r := Filter(products, searchTerm, category);
      assert forall p :: p in r <==> p in products && Matches(p, searchTerm, category) by {
        forall p ensures p in r <==> p in products && Matches(p, searchTerm, category) {
          FilterMembership(products, searchTerm, category, p);
        }
      }
      r
    }
  }
}
