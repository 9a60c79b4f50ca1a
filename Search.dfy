/**
 * The search results screen: the products a search returned, narrowed by the
 * search mode, and the lookups that pick the header's icon and mode entry.
 *
 * The search request itself (`getSearchValue` and the HTTP call) is outside the
 * model; its answer arrives as a parameter. The table of search modes lives in a
 * file that is not part of this model and is a parameter as well.
 */
module Search {
  import opened Wrappers

  /** The fields of a product the screen's logic looks at. */
  datatype Product = Product(id: string, name: string, status: string)

  /** One entry of the table of search modes (`caption` is the entry's label). */
  datatype ModeInfo = ModeInfo(value: string, caption: string, icon: string)

  /** The mode in which only available products are shown. */
  const DEFAULT_MODE: string := "default"

  /** A product is still on offer: approved, or in a transaction. */
  predicate Listed(p: Product) {
    p.status == "Approved" || p.status == "In_Transaction"
  }

  /** The listed products of `ps`, in their order (`Array.prototype.filter`):
      never more than `ps` holds, and only listed ones. */
  function KeepListed(ps: seq<Product>): (r: seq<Product>)
    ensures |r| <= |ps|
    ensures forall k :: 0 <= k < |r| ==> Listed(r[k])
    decreases |ps|
  {
    if ps == [] then []
    else (if Listed(ps[0]) then [ps[0]] else []) + KeepListed(ps[1..])
  }

  /** `filterProducts`: in the default mode only listed products remain; every
      other mode shows the search results as they came. */
  function FilterProducts(mode: string, ps: seq<Product>): (r: seq<Product>)
    ensures mode != DEFAULT_MODE ==> r == ps
    ensures |r| <= |ps|
  {
    if mode == DEFAULT_MODE then KeepListed(ps) else ps
  }

  /** A product appears in the filtered list exactly when it is in the input and
      listed. */
  lemma {:induction false} KeepListedMembers(ps: seq<Product>, p: Product)
    ensures p in KeepListed(ps) <==> p in ps && Listed(p)
    decreases |ps|
  {
    if ps != [] {
      KeepListedMembers(ps[1..], p);
      assert ps == [ps[0]] + ps[1..];
    }
  }

  /** Every copy of a listed product is kept and every copy of an unlisted one is
      dropped, so the default-mode count in the header is the number of listed
      results, duplicates included. */
  lemma {:induction false} KeepListedCounts(ps: seq<Product>, p: Product)
    ensures multiset(KeepListed(ps))[p] == if Listed(p) then multiset(ps)[p] else 0
    decreases |ps|
  {
    if ps != [] {
      KeepListedCounts(ps[1..], p);
      assert ps == [ps[0]] + ps[1..];
    }
  }

  /** `idx` lists, in increasing order, positions of `b` that spell out `a`. */
  ghost predicate Embeds<T>(a: seq<T>, b: seq<T>, idx: seq<nat>) {
    && |idx| == |a|
    && (forall k :: 0 <= k < |idx| ==> idx[k] < |b| && a[k] == b[idx[k]])
    && (forall k, l :: 0 <= k < l < |idx| ==> idx[k] < idx[l])
  }

  /** `a` is an order-preserving subsequence of `b`. */
  ghost predicate IsSubsequence<T>(a: seq<T>, b: seq<T>) {
    exists idx :: Embeds(a, b, idx)
  }

  /** Positions in the tail of `b` are positions in `b`, one further on. */
  lemma Shifted<T>(a: seq<T>, b: seq<T>, idx: seq<nat>) returns (moved: seq<nat>)
    requires b != [] && Embeds(a, b[1..], idx)
    ensures Embeds(a, b, moved) && Embeds([b[0]] + a, b, [0] + moved)
    ensures forall k :: 0 <= k < |moved| ==> moved[k] == idx[k] + 1
  {
    moved := seq(|idx|, k requires 0 <= k < |idx| => idx[k] + 1);
    forall k | 0 <= k < |moved| ensures a[k] == b[moved[k]] {
      assert b[1..][idx[k]] == b[moved[k]];
    }
  }

  /** The positions of the input that the filter keeps. */
  lemma {:induction false} KeptPositions(ps: seq<Product>) returns (idx: seq<nat>)
    ensures Embeds(KeepListed(ps), ps, idx)
    decreases |ps|
  {
    if ps == [] {
      idx := [];
    } else {
      var tail := KeepListed(ps[1..]);
      var rest := KeptPositions(ps[1..]);
      var moved := Shifted(tail, ps, rest);
      if Listed(ps[0]) {
        idx := [0] + moved;
        assert KeepListed(ps) == [ps[0]] + tail;
      } else {
        idx := moved;
        assert KeepListed(ps) == tail;
      }
    }
  }

  /** Whatever the mode, the results shown are a subsequence of the results
      received: the filter neither reorders nor invents products. */
  lemma FilterIsSubsequence(mode: string, ps: seq<Product>)
    ensures IsSubsequence(FilterProducts(mode, ps), ps)
  {
    if mode == DEFAULT_MODE {
      var idx := KeptPositions(ps);
      assert Embeds(KeepListed(ps), ps, idx);
    } else {
      var idx := seq(|ps|, k requires 0 <= k < |ps| => k);
      assert Embeds(ps, ps, idx);
    }
  }

  /** A list of listed products passes the filter unchanged. */
  lemma {:induction false} KeepListedOfListed(ps: seq<Product>)
    requires forall k :: 0 <= k < |ps| ==> Listed(ps[k])
    ensures KeepListed(ps) == ps
    decreases |ps|
  {
    if ps != [] {
      KeepListedOfListed(ps[1..]);
    }
  }

  /** The default-mode filter is exactly the listed products, and filtering the
      shown list again, in the same mode, changes nothing. */
  lemma FilterProductsSpec(mode: string, ps: seq<Product>)
    ensures mode == DEFAULT_MODE ==>
      forall p :: p in FilterProducts(mode, ps) <==> p in ps && Listed(p)
    ensures FilterProducts(mode, FilterProducts(mode, ps)) == FilterProducts(mode, ps)
  {
    if mode == DEFAULT_MODE {
      forall p ensures p in KeepListed(ps) <==> p in ps && Listed(p) {
        KeepListedMembers(ps, p);
      }
      KeepListedOfListed(KeepListed(ps));
    }
  }

  /** `getSearchModeIcon`: the icon for the "need" and "have" modes, and the
      search icon for every other mode. */
  function SearchModeIcon(mode: string): (icon: string)
    ensures icon == "category" <==> mode == "need"
    ensures icon == "people" <==> mode == "have"
    ensures icon == "search" <==> mode != "need" && mode != "have"
  {
    if mode == "need" then "category"
    else if mode == "have" then "people"
    else "search"
  }

  /** The index of the first entry of `modes` whose value is `mode`
      (`Array.prototype.findIndex`). */
  function FindMode(modes: seq<ModeInfo>, mode: string): (r: Option<nat>)
    ensures r.None? <==> forall k :: 0 <= k < |modes| ==> modes[k].value != mode
    ensures r.Some? ==> r.value < |modes| && modes[r.value].value == mode
                        && forall j :: 0 <= j < r.value ==> modes[j].value != mode
    decreases |modes|
  {
    if modes == [] then None
    else if modes[0].value == mode then Some(0)
    else
      var rest := FindMode(modes[1..], mode);
      assert forall k :: 1 <= k < |modes| ==> modes[k] == modes[1..][k - 1];
      if rest.None? then None else Some(rest.value + 1)
  }

  /** `getSearchModeInfo`: the first entry for the current mode, falling back on
      the first entry of the table (undefined when the table is empty). */
  function SearchModeInfo(modes: seq<ModeInfo>, mode: string): (r: Option<ModeInfo>)
    ensures (exists k :: 0 <= k < |modes| && modes[k].value == mode) ==>
      r.Some? && r.value.value == mode
      && exists k :: 0 <= k < |modes| && modes[k] == r.value
                     && forall j :: 0 <= j < k ==> modes[j].value != mode
    ensures (forall k :: 0 <= k < |modes| ==> modes[k].value != mode) ==>
      r == if modes == [] then None else Some(modes[0])
  {
    match FindMode(modes, mode)
    case Some(k) => Some(modes[k])
    case None => if modes == [] then None else Some(modes[0])
  }

  /** The screen's state. */
  datatype Results = Results(loading: bool, products: seq<Product>, filteredProducts: seq<Product>)

  /** `fetchSearchResults` for the route's mode, with `reply` the products the
      request returned, or None when it failed: a failure leaves both lists as
      they were; either way loading ends. */
  function FetchSearchResults(s: Results, mode: string, reply: Option<seq<Product>>): (r: Results)
    ensures !r.loading
    ensures reply.None? ==> r.products == s.products && r.filteredProducts == s.filteredProducts
    ensures reply.Some? ==> r.products == reply.value
                            && r.filteredProducts == FilterProducts(mode, reply.value)
  {
    match reply
    case None => s.(loading := false)
    case Some(ps) => Results(false, ps, FilterProducts(mode, ps))
  }

  /** After a successful search the shown list, whose length is the header's
      result count, is a subsequence of the received products with at most as
      many entries; in the default mode it holds listed products only. */
  lemma FetchShowsFiltered(s: Results, mode: string, ps: seq<Product>)
    ensures var r := FetchSearchResults(s, mode, Some(ps));
      IsSubsequence(r.filteredProducts, r.products) && |r.filteredProducts| <= |r.products|
      && (mode == DEFAULT_MODE ==> forall p :: p in r.filteredProducts ==> Listed(p))
  {
    FilterIsSubsequence(mode, ps);
    FilterProductsSpec(mode, ps);
  }
}
