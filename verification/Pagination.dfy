/** Fetching a whole layer page by page. Each page is the answer of a server whose layer may have
    changed since the page before. */
module Pagination {
  import opened Wrappers

  /** A record; None stands for a missing or non-integer object id. */
  datatype Feature = Feature(oid: Option<int>, payload: string)

  datatype Page = Page(features: seq<Feature>, exceededTransferLimit: bool)

  datatype LayerInfo = LayerInfo(maxRecordCount: nat, supportsPagination: bool)

  datatype QueryError = DidNotAdvance

  /** The i-th page request: records after `last` (all when None), `count` of them asked for. */
  type Server = (nat, Option<int>, int) -> Page

  function After(oid: Option<int>, last: Option<int>): bool {
    oid.Some? && (last.None? || oid.value > last.value)
  }

  function CapOf(maxRecords: Option<int>, clientMax: int): int {
    Min(if maxRecords.Some? && maxRecords.value != 0 then maxRecords.value else clientMax, clientMax)
  }

  /** The cap is what the caller asks for, unless that is nothing or more than the client allows. */
  lemma CapIs(maxRecords: Option<int>, clientMax: int)
    ensures CapOf(maxRecords, clientMax) <= clientMax
    ensures maxRecords.None? || maxRecords == Some(0) ==> CapOf(maxRecords, clientMax) == clientMax
    ensures maxRecords.Some? && maxRecords.value != 0 ==>
              CapOf(maxRecords, clientMax) <= maxRecords.value
              && (maxRecords.value <= clientMax ==> CapOf(maxRecords, clientMax) == maxRecords.value)
              && (maxRecords.value > clientMax ==> CapOf(maxRecords, clientMax) == clientMax)
  {
  }

  function Take(s: seq<Feature>, n: int): (r: seq<Feature>)
    ensures n >= |s| ==> r == s
    ensures n <= 0 ==> r == []
  {
    if n <= 0 then [] else if n >= |s| then s else s[..n]
  }

  // ---- An honest server -----------------------------------------------------------------------

  /** The records of a layer, in object id order. */
  predicate Ordered(layer: seq<Feature>) {
    (forall i :: 0 <= i < |layer| ==> layer[i].oid.Some?)
    && forall i, j :: 0 <= i < j < |layer| ==> layer[i].oid.value < layer[j].oid.value
  }

  /** The records with an object id after `last`. */
  function Rest(layer: seq<Feature>, last: Option<int>): seq<Feature> {
    if layer == [] then [] else if After(layer[0].oid, last) then layer else Rest(layer[1..], last)
  }

  function PageLimit(info: LayerInfo, count: int): int {
    if info.supportsPagination then Min(count, info.maxRecordCount) else info.maxRecordCount
  }

  /** A page of the first records of `rest`: as many as the limit allows, or cut short before that. */
  predicate FirstOnes(page: Page, rest: seq<Feature>, limit: int) {
    page.features == Take(rest, limit) || (0 < |page.features| <= limit && page.features <= rest)
  }

  /** A page cut short of both the limit and the records there are. */
  predicate Cut(page: Page, rest: seq<Feature>, limit: int) {
    |page.features| < limit && |page.features| < |rest|
  }

  /** Each page holds the first records after `last` of the layer as it is at that moment, and a page that is
      cut short says so with its transfer-limit flag. */
  ghost predicate Honest(server: Server, layers: nat -> seq<Feature>, info: LayerInfo) {
    forall i: nat, last, count :: count >= 1 ==>
      var page := server(i, last, count);
      var rest, limit := Rest(layers(i), last), PageLimit(info, count);
      Ordered(layers(i)) && FirstOnes(page, rest, limit) && (Cut(page, rest, limit) ==> page.exceededTransferLimit)
  }

  lemma {:induction false} RestIsSuffix(layer: seq<Feature>, last: Option<int>) returns (n: nat)
    requires Ordered(layer)
    ensures n <= |layer| && Rest(layer, last) == layer[n..]
    ensures forall i :: 0 <= i < |layer| ==> (After(layer[i].oid, last) <==> n <= i)
  {
    if layer == [] || After(layer[0].oid, last) {
      n := 0;
    } else {
      assert Ordered(layer[1..]);
      var m := RestIsSuffix(layer[1..], last);
      n := m + 1;
      assert layer[1..][m..] == layer[n..];
      forall i | 0 <= i < |layer| ensures After(layer[i].oid, last) <==> n <= i {
        if i > 0 {
          assert layer[i] == layer[1..][i - 1];
        }
      }
    }
  }

  /** What an honest page is: ordered, after `last`, and complete up to its own end; when it is short,
      complete. */
  lemma HonestPage(layer: seq<Feature>, last: Option<int>, limit: int, page: seq<Feature>)
    requires Ordered(layer) && limit >= 1 && page == Take(Rest(layer, last), limit)
    ensures Ordered(page) && |page| <= limit && (forall i :: 0 <= i < |page| ==> After(page[i].oid, last))
    ensures forall f :: f in layer && After(f.oid, last) && f !in page ==>
              |page| == limit && forall i :: 0 <= i < |page| ==> page[i].oid.value < f.oid.value
  {
    var n := RestIsSuffix(layer, last);
    assert forall i :: 0 <= i < |page| ==> page[i] == layer[n + i];
    forall m | n <= m < n + |page| ensures layer[m] in page {
      assert page[m - n] == layer[m];
    }
    forall f | f in layer && After(f.oid, last) && f !in page
      ensures |page| == limit && forall i :: 0 <= i < |page| ==> page[i].oid.value < f.oid.value
    {
      var i :| 0 <= i < |layer| && layer[i] == f;
      assert i >= n + |page|;
    }
  }

  // ---- What is promised -------------------------------------------------------------------------------

  ghost predicate HasOid(features: seq<Feature>, o: int) {
    exists i :: 0 <= i < |features| && features[i].oid == Some(o)
  }

  /** Every object id present in all of the first n snapshots. */
  ghost predicate AlwaysThere(layers: nat -> seq<Feature>, n: nat, o: int) {
    forall i: nat :: i < n ==> HasOid(layers(i), o)
  }

  function LastOid(features: seq<Feature>): Option<int> {
    if features == [] then None else features[|features| - 1].oid
  }

  /** Progress after n pages of an honest server: in order, and complete up to the last id. */
  ghost predicate Sofar(layers: nat -> seq<Feature>, n: nat, features: seq<Feature>) {
    Ordered(features)
    && forall o :: LastOid(features).Some? && o <= LastOid(features).value && AlwaysThere(layers, n, o) ==>
       HasOid(features, o)
  }

  lemma Joined(features: seq<Feature>, page: seq<Feature>)
    requires Ordered(features) && Ordered(page)
    requires forall i :: 0 <= i < |page| ==> After(page[i].oid, LastOid(features))
    ensures Ordered(features + page)
  {
    var all := features + page;
    forall i, j | 0 <= i < j < |all|
      ensures all[i].oid.Some? && all[j].oid.Some? && all[i].oid.value < all[j].oid.value
    {
      if i < |features| <= j {
        assert After(page[j - |features|].oid, LastOid(features));
      }
    }
  }

  /** One more non-empty honest page keeps the progress; a page short of its limit finishes the layer. */
  lemma PageStep(layers: nat -> seq<Feature>, n: nat, features: seq<Feature>, limit: int, page: seq<Feature>)
    requires Sofar(layers, n, features) && Ordered(layers(n)) && limit >= 1 && page != []
    requires page == Take(Rest(layers(n), LastOid(features)), limit)
    ensures Sofar(layers, n + 1, features + page) && |page| <= limit
    ensures LastOid(page).Some? && (features != [] ==> LastOid(page).value > LastOid(features).value)
    ensures |page| < limit ==> forall o :: AlwaysThere(layers, n + 1, o) ==> HasOid(features + page, o)
  {
    var last, all := LastOid(features), features + page;
    HonestPage(layers(n), last, limit, page);
    Joined(features, page);
    assert After(page[|page| - 1].oid, last);
    hide Ordered, Rest;
    forall o | AlwaysThere(layers, n + 1, o) && (o <= LastOid(all).value || |page| < limit) ensures HasOid(all, o) {
      Kept(layers, n, features, page, limit, o);
    }
  }

  lemma Kept(layers: nat -> seq<Feature>, n: nat, features: seq<Feature>, page: seq<Feature>, limit: int, o: int)
    requires Sofar(layers, n, features) && Ordered(layers(n)) && limit >= 1 && page != []
    requires page == Take(Rest(layers(n), LastOid(features)), limit)
    requires AlwaysThere(layers, n + 1, o)
    requires LastOid(page).Some? && (o <= LastOid(page).value || |page| < limit)
    ensures HasOid(features + page, o)
  {
    HonestPage(layers(n), LastOid(features), limit, page);
    assert HasOid(layers(n), o);
    if features != [] && o <= LastOid(features).value {
      assert AlwaysThere(layers, n, o);
      var i :| 0 <= i < |features| && features[i].oid == Some(o);
      assert (features + page)[i].oid == Some(o);
    } else {
      var k :| 0 <= k < |layers(n)| && layers(n)[k].oid == Some(o);
      var f := layers(n)[k];
      assert After(f.oid, LastOid(features));
      assert f in page;
      var i :| 0 <= i < |page| && page[i] == f;
      assert (features + page)[|features| + i].oid == Some(o);
    }
  }

  /** An empty honest page means there is nothing after the last id. */
  lemma EmptyPage(layers: nat -> seq<Feature>, n: nat, features: seq<Feature>, limit: int, o: int)
    requires Sofar(layers, n, features) && Ordered(layers(n)) && limit >= 1
    requires Take(Rest(layers(n), LastOid(features)), limit) == [] && AlwaysThere(layers, n + 1, o)
    ensures HasOid(features, o)
  {
    var m := RestIsSuffix(layers(n), LastOid(features));
    assert m == |layers(n)|;
    hide Rest, Ordered;
    assert HasOid(layers(n), o);
    var k :| 0 <= k < |layers(n)| && layers(n)[k].oid == Some(o);
    assert !After(layers(n)[k].oid, LastOid(features));
    assert AlwaysThere(layers, n, o);
  }

  /** On a fixed layer the pages so far are a prefix of it. */
  lemma FixedStep(layer: seq<Feature>, features: seq<Feature>, limit: int, page: seq<Feature>)
    requires Ordered(layer) && limit >= 1 && |features| <= |layer| && features == layer[..|features|]
    requires page == Take(Rest(layer, LastOid(features)), limit)
    ensures |features + page| <= |layer| && features + page == layer[..|features + page|]
    ensures |page| < limit ==> features + page == layer
  {
    var n := RestIsSuffix(layer, LastOid(features));
    if features != [] {
      assert LastOid(features) == layer[|features| - 1].oid;
      assert !After(layer[|features| - 1].oid, LastOid(features));
    }
    assert n == |features| by {
      if |features| < |layer| {
        assert After(layer[|features|].oid, LastOid(features));
      }
    }
    hide Ordered, After, Rest, LastOid;
    LongerPrefix(layer, n, limit);
  }

  lemma LongerPrefix(layer: seq<Feature>, n: nat, limit: int)
    requires n <= |layer| && limit >= 1
    ensures var page := Take(layer[n..], limit);
            |layer[..n] + page| <= |layer| && layer[..n] + page == layer[..|layer[..n] + page|]
            && (|page| < limit ==> layer[..n] + page == layer)
  {
    assert layer[..n] + layer[n..] == layer;
  }

  lemma HonestAnswer(server: Server, layers: nat -> seq<Feature>, info: LayerInfo, i: nat, last: Option<int>,
                     count: int)
    requires Honest(server, layers, info) && count >= 1
    ensures var page := server(i, last, count);
            var rest, limit := Rest(layers(i), last), PageLimit(info, count);
            Ordered(layers(i)) && FirstOnes(page, rest, limit)
              && (Cut(page, rest, limit) ==> page.exceededTransferLimit)
  {
  }

  /** Whatever its flag, a non-empty page is all the records up to its own length. */
  lemma UpToItsLength(page: Page, rest: seq<Feature>, limit: int)
    requires FirstOnes(page, rest, limit) && page.features != []
    ensures |page.features| <= limit && page.features == Take(rest, |page.features|)
    ensures !Cut(page, rest, limit) ==> page.features == Take(rest, limit)
  {
  }

  lemma NothingMore(layers: nat -> seq<Feature>, n: nat, features: seq<Feature>, limit: int)
    requires Sofar(layers, n, features) && Ordered(layers(n)) && limit >= 1
    requires Take(Rest(layers(n), LastOid(features)), limit) == []
    ensures Sofar(layers, n + 1, features) && forall o :: AlwaysThere(layers, n + 1, o) ==> HasOid(features, o)
  {
    forall o | AlwaysThere(layers, n + 1, o) ensures HasOid(features, o) {
      EmptyPage(layers, n, features, limit, o);
    }
  }

  ghost predicate FixedLayer(layers: nat -> seq<Feature>) {
    forall i: nat :: layers(i) == layers(0)
  }

  /** On a fixed layer, the records so far are its first ones. */
  ghost predicate FixedSofar(layers: nat -> seq<Feature>, features: seq<Feature>) {
    FixedLayer(layers) ==> |features| <= |layers(0)| && features == layers(0)[..|features|]
  }

  lemma NoPageYet(layers: nat -> seq<Feature>)
    ensures Sofar(layers, 0, []) && FixedSofar(layers, [])
  {
  }

  /** Everything one page of an honest server does. */
  lemma PageEffect(server: Server, layers: nat -> seq<Feature>, info: LayerInfo, i: nat, features: seq<Feature>,
                   count: int, page: Page)
    requires Honest(server, layers, info) && Sofar(layers, i, features) && FixedSofar(layers, features)
    requires count >= 1 && info.maxRecordCount >= 1 && page == server(i, LastOid(features), count)
    ensures Sofar(layers, i + 1, features + page.features) && FixedSofar(layers, features + page.features)
    ensures |page.features| <= PageLimit(info, count)
    ensures page.features == [] || (!page.exceededTransferLimit && |page.features| < PageLimit(info, count)) ==>
              (forall o :: AlwaysThere(layers, i + 1, o) ==> HasOid(features + page.features, o))
              && (FixedLayer(layers) ==> features + page.features == layers(0))
    ensures page.features != [] ==>
              LastOid(page.features).Some?
                && (features != [] ==> LastOid(page.features).value > LastOid(features).value)
  {
    hide Sofar, AlwaysThere, HasOid, Rest, Ordered;
    var rest, limit := Rest(layers(i), LastOid(features)), PageLimit(info, count);
    HonestAnswer(server, layers, info, i, LastOid(features), count);
    if page.features == [] {
      NothingMore(layers, i, features, limit);
      assert features + page.features == features;
      if FixedLayer(layers) {
        FixedStep(layers(0), features, limit, page.features);
      }
    } else {
      UpToItsLength(page, rest, limit);
      var length := if Cut(page, rest, limit) then |page.features| else limit;
      PageStep(layers, i, features, length, page.features);
      if FixedLayer(layers) {
        FixedStep(layers(0), features, length, page.features);
      }
    }
  }

  // ---- The loop ----------------------------------------------------------------------------------------

  /** What the loop comes to from its i-th page on, with `features` fetched before. */
  function Fetch(server: Server, info: LayerInfo, cap: int, i: nat,
                 features: seq<Feature>): Result<seq<Feature>, QueryError>
    decreases cap - |features|
  {
    if |features| >= cap then Success(Take(features, cap))
    else
      var page := server(i, LastOid(features), Min(info.maxRecordCount, cap - |features|));
      if page.features == [] then Success(Take(features, cap))
      else
        var all := features + page.features;
        if !After(LastOid(all), LastOid(features)) then Failure(DidNotAdvance)
        else if !page.exceededTransferLimit && |page.features| < info.maxRecordCount then Success(Take(all, cap))
        else Fetch(server, info, cap, i + 1, all)
  }

  lemma FetchStep(server: Server, info: LayerInfo, cap: int, i: nat, features: seq<Feature>)
    ensures |features| >= cap ==> Fetch(server, info, cap, i, features) == Success(Take(features, cap))
    ensures |features| < cap ==>
              var page := server(i, LastOid(features), Min(info.maxRecordCount, cap - |features|));
              var all := features + page.features;
              Fetch(server, info, cap, i, features) ==
              if page.features == [] then Success(Take(features, cap))
              else if !After(LastOid(page.features), LastOid(features)) then Failure(DidNotAdvance)
              else if !page.exceededTransferLimit && |page.features| < info.maxRecordCount then Success(Take(all, cap))
              else Fetch(server, info, cap, i + 1, all)
  {
    if |features| < cap {
      var page := server(i, LastOid(features), Min(info.maxRecordCount, cap - |features|));
      assert page.features != [] ==> LastOid(features + page.features) == LastOid(page.features);
    }
  }

  /** `layers` is what the server's layer holds at each page, for the promises about honest servers. */
  method QueryAll(server: Server, info: LayerInfo, maxRecords: Option<int>, clientMax: int,
                  ghost layers: nat -> seq<Feature>)
    returns (r: Result<seq<Feature>, QueryError>, ghost pages: nat)
    requires info.maxRecordCount >= 1
    // For any server at all: it ends, after at most as many pages and with at most as many records as the cap.
    ensures pages <= Max(0, CapOf(maxRecords, clientMax))
    ensures r.Success? ==> |r.value| <= Max(0, CapOf(maxRecords, clientMax))
    // For an honest server over a changing layer: strictly increasing object ids, and every record
    // present throughout is there, up to the last id returned if the cap cut it short.
    ensures Honest(server, layers, info) ==> r.Success? && Ordered(r.value)
    ensures Honest(server, layers, info) && pages > 0 ==>
              forall o :: AlwaysThere(layers, pages, o) ==>
                HasOid(r.value, o)
                  || (|r.value| == CapOf(maxRecords, clientMax) && (r.value == [] || LastOid(r.value).value < o))
    ensures r == Fetch(server, info, CapOf(maxRecords, clientMax), 0, [])
    // On a fixed layer: exactly its first records.
    ensures Honest(server, layers, info) && FixedLayer(layers) ==>
            r.value == Take(layers(0), CapOf(maxRecords, clientMax))
  {
    hide Honest, Ordered, AlwaysThere, HasOid, Rest, Sofar, FixedSofar, FixedLayer, Fetch;
    var cap := CapOf(maxRecords, clientMax);
    var features: seq<Feature> := [];
    var last: Option<int> := None;
    var i: nat := 0;
    ghost var honest := Honest(server, layers, info);
    ghost var complete := false;
    NoPageYet(layers);
    while |features| < cap
      invariant i <= |features| && i <= Max(0, cap) && !complete
      invariant last == LastOid(features) && (features != [] ==> last.Some?)
      invariant honest ==> Sofar(layers, i, features) && FixedSofar(layers, features)
      invariant Fetch(server, info, cap, i, features) == Fetch(server, info, cap, 0, [])
      decreases cap - |features|
    {
      var count := Min(info.maxRecordCount, cap - |features|);
      var page := server(i, last, count);
      FetchStep(server, info, cap, i, features);
      if honest {
        PageEffect(server, layers, info, i, features, count, page);
      }
      i := i + 1;
      if page.features == [] {
        assert features + page.features == features;
        complete := true;
        break;
      }
      features := features + page.features;
      var pageLast := page.features[|page.features| - 1].oid;
      if pageLast.None? || (last.Some? && pageLast.value <= last.value) {
        pages := i;
        return Failure(DidNotAdvance), pages;
      }
      last := pageLast;
      if !page.exceededTransferLimit && |page.features| < info.maxRecordCount {
        complete := |page.features| < PageLimit(info, count);
        break;
      }
    }
    pages := i;
    FetchStep(server, info, cap, i, features);
    r := Success(Take(features, cap));
    if honest {
      AtTheEnd(layers, i, features, cap, complete);
    }
  }

  /** Cutting at the cap loses only ids after the last one kept. */
  lemma CutAtCap(features: seq<Feature>, cap: int, o: int)
    requires Ordered(features) && HasOid(features, o)
    ensures HasOid(Take(features, cap), o)
            || (|Take(features, cap)| == Max(0, cap)
              && (Take(features, cap) == [] || LastOid(Take(features, cap)).value < o))
  {
    var i :| 0 <= i < |features| && features[i].oid == Some(o);
    if 0 < cap && i < cap {
      assert Take(features, cap)[i].oid == Some(o);
    }
  }

  lemma AtTheCap(layers: nat -> seq<Feature>, n: nat, features: seq<Feature>, cap: int, o: int)
    requires Sofar(layers, n, features) && |features| >= cap && AlwaysThere(layers, n, o)
    ensures HasOid(Take(features, cap), o)
            || (|Take(features, cap)| == Max(0, cap)
              && (Take(features, cap) == [] || LastOid(Take(features, cap)).value < o))
  {
    if LastOid(features).Some? && o <= LastOid(features).value {
      CutAtCap(features, cap, o);
    } else if cap > 0 {
      assert Take(features, cap)[cap - 1] == features[cap - 1];
    }
  }

  lemma TakeIsOrdered(features: seq<Feature>, cap: int)
    requires Ordered(features)
    ensures Ordered(Take(features, cap))
  {
  }

  lemma FixedCut(layers: nat -> seq<Feature>, features: seq<Feature>, cap: int)
    requires FixedSofar(layers, features) && FixedLayer(layers)
    requires features == layers(0) || |features| >= cap
    ensures Take(features, cap) == Take(layers(0), cap)
  {
  }

  lemma SofarIsOrdered(layers: nat -> seq<Feature>, n: nat, features: seq<Feature>)
    requires Sofar(layers, n, features)
    ensures Ordered(features)
  {
  }

  /** What is promised of an honest server, once the loop has ended. */
  lemma AtTheEnd(layers: nat -> seq<Feature>, n: nat, features: seq<Feature>, cap: int, complete: bool)
    requires Sofar(layers, n, features) && FixedSofar(layers, features)
    requires if complete then (forall o :: AlwaysThere(layers, n, o) ==> HasOid(features, o))
             && (FixedLayer(layers) ==> features == layers(0))
             else |features| >= cap
    requires n > 0 ==> cap > 0
    ensures var r := Take(features, cap);
            Ordered(r) && (FixedLayer(layers) ==> r == Take(layers(0), cap))
            && (n > 0 ==> forall o :: AlwaysThere(layers, n, o) ==>
               HasOid(r, o) || (|r| == cap && (r == [] || LastOid(r).value < o)))
  {
    hide Sofar, AlwaysThere, HasOid, Ordered;
    SofarIsOrdered(layers, n, features);
    TakeIsOrdered(features, cap);
    if FixedLayer(layers) {
      FixedCut(layers, features, cap);
    }
    var r := Take(features, cap);
    forall o | n > 0 && AlwaysThere(layers, n, o)
      ensures HasOid(r, o) || (|r| == cap && (r == [] || LastOid(r).value < o))
    {
      if complete {
        CutAtCap(features, cap, o);
      } else {
        AtTheCap(layers, n, features, cap, o);
      }
    }
  }

  // ---- Servers of any kind -----------------------------------------------------------------------------

  /** Some page that is fetched ends with a record that has no id, or none after the last one fetched before. */
  predicate Stalls(server: Server, info: LayerInfo, cap: int, i: nat, features: seq<Feature>)
    decreases cap - |features|
  {
    |features| < cap
    && var page := server(i, LastOid(features), Min(info.maxRecordCount, cap - |features|));
       page.features != []
       && var oid, last := page.features[|page.features| - 1].oid, LastOid(features);
          if oid.None? || (last.Some? && oid.value <= last.value) then true
          else (page.exceededTransferLimit || |page.features| >= info.maxRecordCount)
               && Stalls(server, info, cap, i + 1, features + page.features)
  }

  /** A query fails exactly when a page does not get ahead. */
  lemma {:induction false} FailsIffStalled(server: Server, info: LayerInfo, cap: int, i: nat, features: seq<Feature>)
    ensures Fetch(server, info, cap, i, features).Failure? <==> Stalls(server, info, cap, i, features)
    decreases cap - |features|
  {
    if |features| < cap {
      var page := server(i, LastOid(features), Min(info.maxRecordCount, cap - |features|));
      if page.features != [] {
        assert LastOid(features + page.features) == page.features[|page.features| - 1].oid;
        FailsIffStalled(server, info, cap, i + 1, features + page.features);
      }
    }
  }

  /** Only requests for at least one record, at most the server's maximum and at most what the cap leaves, are
      made: what a server would answer to others makes no difference. */
  lemma {:induction false} AsksForNoMore(one: Server, other: Server, info: LayerInfo, cap: int, i: nat,
                                         features: seq<Feature>)
    requires info.maxRecordCount >= 1
    requires forall j: nat, last, count :: 1 <= count <= info.maxRecordCount && count <= cap - |features| ==>
               one(j, last, count) == other(j, last, count)
    ensures Fetch(one, info, cap, i, features) == Fetch(other, info, cap, i, features)
    decreases cap - |features|
  {
    if |features| < cap {
      var page := one(i, LastOid(features), Min(info.maxRecordCount, cap - |features|));
      assert page == other(i, LastOid(features), Min(info.maxRecordCount, cap - |features|));
      if page.features != [] {
        AsksForNoMore(one, other, info, cap, i + 1, features + page.features);
      }
    }
  }

  // ---- Pages cut short without the flag ----------------------------------------------------------------

  /** A server over one layer that answers with first records, cut short or not, whatever it says of it. */
  ghost predicate Prefixing(server: Server, layer: seq<Feature>, info: LayerInfo) {
    forall i: nat, last, count :: count >= 1 ==>
      FirstOnes(server(i, last, count), Rest(layer, last), PageLimit(info, count))
  }

  /** Some page that is fetched is short of the server's maximum, not flagged, and leaves both the layer and
      the cap unfinished. */
  predicate CutSilently(server: Server, info: LayerInfo, cap: int, layer: seq<Feature>, i: nat, features: seq<Feature>)
    decreases cap - |features|
  {
    |features| < cap
    && var page := server(i, LastOid(features), Min(info.maxRecordCount, cap - |features|));
       page.features != []
       && var all := features + page.features;
          if !page.exceededTransferLimit && |page.features| < info.maxRecordCount then |all| < cap && |all| < |layer|
          else CutSilently(server, info, cap, layer, i + 1, all)
  }

  /** One page over a fixed layer: a longer prefix of it, or nothing when all of it is there. */
  lemma NextPrefix(layer: seq<Feature>, features: seq<Feature>, limit: int, page: Page)
    requires Ordered(layer) && limit >= 1 && |features| <= |layer| && features == layer[..|features|]
    requires FirstOnes(page, Rest(layer, LastOid(features)), limit)
    ensures var all := features + page.features;
            |all| <= |layer| && all == layer[..|all|]
            && (page.features == [] ==> features == layer)
            && (page.features != [] ==> After(LastOid(all), LastOid(features)))
  {
    if page.features == [] {
      FixedStep(layer, features, limit, page.features);
    } else {
      UpToItsLength(page, Rest(layer, LastOid(features)), limit);
      FixedStep(layer, features, |page.features|, page.features);
    }
  }

  lemma TakePrefix(layer: seq<Feature>, n: nat, cap: int)
    requires n <= |layer|
    ensures Take(layer[..n], cap) == Take(layer, cap) <==> n >= cap || n == |layer|
  {
    assert n == |layer| ==> layer[..n] == layer;
    assert 0 < cap <= n ==> layer[..n][..cap] == layer[..cap];
    assert n < cap && n < |layer| ==> |Take(layer[..n], cap)| < |Take(layer, cap)|;
  }

  /** The flag is what completeness rests on: over a fixed layer the first records up to the cap are fetched
      exactly when no fetched page is cut short without it. */
  lemma {:induction false} CompleteIffFlagged(server: Server, info: LayerInfo, cap: int, layer: seq<Feature>, i: nat,
                                              features: seq<Feature>)
    requires Ordered(layer) && info.maxRecordCount >= 1 && Prefixing(server, layer, info)
    requires |features| <= |layer| && features == layer[..|features|]
    ensures Fetch(server, info, cap, i, features) == Success(Take(layer, cap))
            <==> !CutSilently(server, info, cap, layer, i, features)
    decreases cap - |features|
  {
    hide Ordered, Rest, After, LastOid, FirstOnes;
    TakePrefix(layer, |features|, cap);
    if |features| < cap {
      var count := Min(info.maxRecordCount, cap - |features|);
      var page := server(i, LastOid(features), count);
      NextPrefix(layer, features, PageLimit(info, count), page);
      var all := features + page.features;
      if page.features != [] {
        if !page.exceededTransferLimit && |page.features| < info.maxRecordCount {
          TakePrefix(layer, |all|, cap);
        } else {
          CompleteIffFlagged(server, info, cap, layer, i + 1, all);
        }
      }
    }
  }

  /** A server that sends one record at a time and never says that there are more. */
  function Forgetful(layer: seq<Feature>): Server {
    (i, last, count) => Page(Take(Rest(layer, last), 1), false)
  }

  /** It loses all records of a layer but the first. */
  lemma UnflaggedCutLosesRecords(layer: seq<Feature>, info: LayerInfo, cap: int)
    requires Ordered(layer) && |layer| >= 2 && info.maxRecordCount >= 2 && cap >= 2
    ensures Prefixing(Forgetful(layer), layer, info) && CutSilently(Forgetful(layer), info, cap, layer, 0, [])
    ensures Fetch(Forgetful(layer), info, cap, 0, []) == Success([layer[0]]) != Success(Take(layer, cap))
  {
    forall i: nat, last, count | count >= 1
      ensures FirstOnes(Forgetful(layer)(i, last, count), Rest(layer, last), PageLimit(info, count))
    {
      assert Take(Rest(layer, last), 1) <= Rest(layer, last);
    }
    assert Rest(layer, None) == layer && Take(layer, 1) == [layer[0]] == [] + [layer[0]];
    assert After(LastOid([layer[0]]), LastOid([]));
    assert |Take(layer, cap)| >= 2;
  }
}
