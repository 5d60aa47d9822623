/** Following the truncation pointer, for the host list and for the KnowledgeBase. */
module Paging {
  import opened Sorted
  import opened Wrappers

  /** A host with its detections, or a KnowledgeBase entry with its content. */
  datatype Record<D> = Record(id: int, items: seq<D>)

  /** `idMins` are the values of the `id_min` parameter in the warning's URL. */
  datatype Warning = Warning(code: Option<string>, url: Option<seq<int>>)

  datatype Page<T> = Page(records: seq<T>, warning: Option<Warning>)

  const TRUNCATION_CODE := "1980"

  function NextIdMin<T>(page: Page<T>): Option<int> {
    match page.warning
    case None => None
    case Some(w) =>
      if w.url.None? then None
      else if w.code.Some? && w.code.value != TRUNCATION_CODE then None
      else if w.url.value == [] then None
      else Some(w.url.value[0])
  }

  predicate Ordered<D>(hosts: seq<Record<D>>) {
    forall i, j :: 0 <= i < j < |hosts| ==> hosts[i].id < hosts[j].id
  }

  /** The hosts from `idMin` on; hosts come in id order. */
  function Rest<D>(hosts: seq<Record<D>>, idMin: Option<int>): seq<Record<D>> {
    if hosts == [] || idMin.None? || hosts[0].id >= idMin.value then hosts
    else Rest(hosts[1..], idMin)
  }

  /**
    A server that answers with some of the hosts asked for, from the first on, at least one if there are any. While
    hosts remain, the page carries a truncation warning, or one without a code, whose URL starts from the next one;
    once none remain, it carries no warning, or one of another kind, or one that points nowhere.
   */
  ghost predicate Serves<D(!new)>(server: Option<int> -> Page<Record<D>>, hosts: seq<Record<D>>) {
    forall idMin :: Honest(server(idMin), Rest(hosts, idMin))
  }

  ghost predicate Honest<D>(page: Page<Record<D>>, rest: seq<Record<D>>) {
    var n := |page.records|;
    && page.records <= rest
    && (rest != [] ==> n >= 1)
    && (n < |rest| ==> PointsAt(page.warning, rest[n].id))
    && (n == |rest| ==> PointsNowhere(page.warning))
  }

  predicate PointsAt(warning: Option<Warning>, id: int) {
    && warning.Some?
    && (warning.value.code == None || warning.value.code == Some("1980"))
    && warning.value.url.Some? && warning.value.url.value != [] && warning.value.url.value[0] == id
  }

  predicate PointsNowhere(warning: Option<Warning>) {
    || warning == None
    || (warning.value.code != None && warning.value.code != Some("1980"))
    || warning.value.url == None
    || warning.value.url == Some([])
  }

  /** The pointer is followed exactly where it points. */
  lemma PointerIsRead<T>(page: Page<T>, id: int)
    ensures NextIdMin(page) == Some(id) <==> PointsAt(page.warning, id)
    ensures NextIdMin(page) == None <==> PointsNowhere(page.warning)
  {
  }

  lemma HonestPointer<D>(page: Page<Record<D>>, rest: seq<Record<D>>)
    requires Honest(page, rest)
    ensures var n := |page.records|;
            && page.records == rest[..n] && (rest != [] ==> n >= 1)
            && NextIdMin(page) == if n < |rest| then Some(rest[n].id) else None
  {
    var n := |page.records|;
    PointerIsRead(page, if n < |rest| then rest[n].id else 0);
  }

  /** Host and detection pairs, host by host. */
  function Pairs<D>(hosts: seq<Record<D>>): seq<(int, D)> {
    if hosts == [] then []
    else PairsOf(hosts[0]) + Pairs(hosts[1..])
  }

  function PairsOf<D>(host: Record<D>): (ps: seq<(int, D)>)
    ensures |ps| == |host.items|
  {
    seq(|host.items|, i requires 0 <= i < |host.items| => (host.id, host.items[i]))
  }

  lemma {:induction false} PairsSplit<D>(a: seq<Record<D>>, b: seq<Record<D>>)
    ensures Pairs(a + b) == Pairs(a) + Pairs(b)
    decreases |a|
  {
    if a == [] {
      assert a + b == b;
    } else {
      assert (a + b)[1..] == a[1..] + b;
      PairsSplit(a[1..], b);
    }
  }

  /** How many pairs the hosts come with. */
  function Items<D>(hosts: seq<Record<D>>): nat {
    if hosts == [] then 0 else |hosts[0].items| + Items(hosts[1..])
  }

  lemma {:induction false} PairsCount<D>(hosts: seq<Record<D>>)
    ensures |Pairs(hosts)| == Items(hosts)
    decreases |hosts|
  {
    if hosts != [] {
      PairsCount(hosts[1..]);
    }
  }

  /** Detection `j` of host `i` comes after all of the earlier hosts' and the host's own first `j`. */
  lemma {:induction false} PairAt<D>(hosts: seq<Record<D>>, i: nat, j: nat)
    requires i < |hosts| && j < |hosts[i].items|
    ensures |Pairs(hosts)| == Items(hosts) && Items(hosts[..i]) + j < Items(hosts)
    ensures Pairs(hosts)[Items(hosts[..i]) + j] == (hosts[i].id, hosts[i].items[j])
    decreases i
  {
    PairsCount(hosts);
    var first, rest := PairsOf(hosts[0]), hosts[1..];
    PairsCount(rest);
    if i == 0 {
      assert hosts[..0] == [];
      assert Pairs(hosts)[j] == first[j];
    } else {
      PairAt(rest, i - 1, j);
      var k := Items(rest[..i - 1]) + j;
      assert hosts[..i][0] == hosts[0] && hosts[..i][1..] == rest[..i - 1];
      assert (first + Pairs(rest))[|first| + k] == Pairs(rest)[k];
    }
  }

  lemma {:induction false} RestIsASuffix<D>(hosts: seq<Record<D>>, idMin: Option<int>) returns (k: nat)
    requires Ordered(hosts)
    ensures k <= |hosts| && Rest(hosts, idMin) == hosts[k..]
    ensures idMin.Some? ==> forall i :: 0 <= i < |hosts| ==> (i >= k <==> hosts[i].id >= idMin.value)
    ensures idMin.None? ==> k == 0
    decreases |hosts|
  {
    if hosts == [] || idMin.None? || hosts[0].id >= idMin.value {
      k := 0;
    } else {
      var k' := RestIsASuffix(hosts[1..], idMin);
      k := k' + 1;
      assert hosts[1..][k'..] == hosts[k..];
      assert forall i :: 1 <= i < |hosts| ==> hosts[1..][i - 1] == hosts[i];
    }
  }

  /** Asking again from the id of a remaining host leaves exactly the hosts from that one on. */
  lemma RestFrom<D>(hosts: seq<Record<D>>, idMin: Option<int>, n: nat)
    requires Ordered(hosts) && n < |Rest(hosts, idMin)|
    ensures Rest(hosts, Some(Rest(hosts, idMin)[n].id)) == Rest(hosts, idMin)[n..]
  {
    var k := RestIsASuffix(hosts, idMin);
    var at := hosts[k + n].id;
    var m := RestIsASuffix(hosts, Some(at));
    assert k + n >= m;
    assert k + n > 0 ==> hosts[k + n - 1].id < at;
    assert hosts[k..][n..] == hosts[k + n..];
  }

  /** What a pointer leaves to be fetched. */
  function Left<D>(hosts: seq<Record<D>>, next: Option<int>): seq<Record<D>> {
    if next.None? then [] else Rest(hosts, next)
  }

  /**
    A page and what its pointer leaves are exactly what was asked for, and a pointer comes with at least one
    record.
   */
  lemma PageLeaves<D(!new)>(server: Option<int> -> Page<Record<D>>, hosts: seq<Record<D>>, from: Option<int>)
    requires Ordered(hosts) && Serves(server, hosts)
    ensures Rest(hosts, from) == server(from).records + Left(hosts, NextIdMin(server(from)))
    ensures NextIdMin(server(from)).Some? ==> server(from).records != []
  {
    var page, rest := server(from), Rest(hosts, from);
    HonestPointer(page, rest) by {
      assert Honest(server(from), Rest(hosts, from));
    }
    var n := |page.records|;
    assert rest == page.records + rest[n..];
    if n < |rest| {
      RestFrom(hosts, from, n);
    }
  }

  lemma Regroup<T>(out: seq<T>, records: seq<T>, left: seq<T>)
    ensures (out + records) + left == out + (records + left)
  {
  }

  method HostPairs<D>(host: Record<D>) returns (out: seq<(int, D)>)
    ensures out == PairsOf(host)
  {
    out := [];
    for j := 0 to |host.items|
      invariant out == PairsOf(host)[..j]
    {
      out := out + [(host.id, host.items[j])];
    }
  }

  /** The pairs of one page, host by host and detection by detection. */
  method PagePairs<D>(records: seq<Record<D>>) returns (out: seq<(int, D)>)
    ensures out == Pairs(records)
  {
    out := [];
    assert records[0..] == records;
    for i := 0 to |records|
      invariant out + Pairs(records[i..]) == Pairs(records)
    {
      assert records[i..][1..] == records[i + 1..];
      var pairs := HostPairs(records[i]);
      Regroup(out, pairs, Pairs(records[i + 1..]));
      out := out + pairs;
    }
  }

  /** Every pair in scope exactly once and in order, and the loop ends. */
  method IterDetections<D(!new)>(server: Option<int> -> Page<Record<D>>, idMin: Option<int>,
      ghost hosts: seq<Record<D>>)
    returns (out: seq<(int, D)>)
    requires Ordered(hosts) && Serves(server, hosts)
    ensures out == Pairs(Rest(hosts, idMin))
  {
    out := [];
    var from := idMin;
    while true
      invariant out + Pairs(Rest(hosts, from)) == Pairs(Rest(hosts, idMin))
      decreases |Rest(hosts, from)|
    {
      var page := server(from);
      PageLeaves(server, hosts, from);
      ghost var left := Left(hosts, NextIdMin(page));
      PairsSplit(page.records, left);
      var pairs := PagePairs(page.records);
      Regroup(out, pairs, Pairs(left));
      out := out + pairs;
      var next := NextIdMin(page);
      if next.None? {
        return;
      }
      from := next;
    }
  }

  // ---------------------------------------------------------------- the KnowledgeBase

  /** The entries with an id among `qids`, in id order. */
  function Select<D>(kb: seq<Record<D>>, qids: seq<int>): seq<Record<D>> {
    if kb == [] then []
    else (if kb[0].id in qids then [kb[0]] else []) + Select(kb[1..], qids)
  }

  lemma {:induction false} Selected<D>(kb: seq<Record<D>>, qids: seq<int>, e: Record<D>)
    ensures e in Select(kb, qids) <==> e in kb && e.id in qids
    decreases |kb|
  {
    if kb != [] {
      Selected(kb[1..], qids, e);
      assert e in kb <==> e == kb[0] || e in kb[1..];
    }
  }

  lemma {:induction false} SelectOrdered<D>(kb: seq<Record<D>>, qids: seq<int>)
    requires Ordered(kb)
    ensures Ordered(Select(kb, qids))
    decreases |kb|
  {
    if kb != [] {
      var rest := Select(kb[1..], qids);
      SelectOrdered(kb[1..], qids);
      forall i | 0 <= i < |rest|
        ensures kb[0].id < rest[i].id
      {
        assert rest[i] in rest;
        Selected(kb[1..], qids, rest[i]);
      }
    }
  }

  lemma {:induction false} SelectSame<D>(kb: seq<Record<D>>, qids: seq<int>, ids: seq<int>)
    requires forall q :: q in ids <==> q in qids
    ensures Select(kb, ids) == Select(kb, qids)
    decreases |kb|
  {
    if kb != [] {
      SelectSame(kb[1..], qids, ids);
    }
  }

  lemma {:induction false} NothingSelected<D>(kb: seq<Record<D>>, qids: seq<int>)
    requires qids == []
    ensures Select(kb, qids) == []
    decreases |kb|
  {
    if kb != [] {
      NothingSelected(kb[1..], qids);
    }
  }

  /** Every entry in scope once, in order. */
  method Follow<D(!new)>(server: Option<int> -> Page<Record<D>>, ghost scope: seq<Record<D>>)
    returns (out: seq<Record<D>>, requests: nat)
    requires Ordered(scope) && Serves(server, scope)
    ensures out == scope
    ensures 1 <= requests <= |scope| + 1
  {
    out, requests := [], 0;
    var from := None;
    while true
      invariant out + Rest(scope, from) == scope
      invariant requests + |Rest(scope, from)| <= |scope|
      decreases |Rest(scope, from)|
    {
      var page := server(from);
      PageLeaves(server, scope, from);
      requests := requests + 1;
      Regroup(out, page.records, Left(scope, NextIdMin(page)));
      out := out + page.records;
      var next := NextIdMin(page);
      if next.None? {
        return;
      }
      from := next;
    }
  }

  /** The whole KnowledgeBase, or the entries asked for, each once; nothing is requested for an empty list. */
  method FetchKb<D(!new)>(server: Option<seq<int>> -> Option<int> -> Page<Record<D>>, qids: Option<seq<int>>,
      ghost kb: seq<Record<D>>)
    returns (out: seq<Record<D>>, requests: nat)
    requires Ordered(kb) && Serves(server(None), kb)
    requires forall ids: seq<int> :: Serves(server(Some(ids)), Select(kb, ids))
    ensures out == if qids.Some? then Select(kb, qids.value) else kb
    ensures requests == 0 <==> qids == Some([])
  {
    var ids := None;
    ghost var scope := kb;
    if qids.Some? {
      var sorted := SortedDistinct(qids.value);
      SelectSame(kb, qids.value, sorted);
      SelectOrdered(kb, sorted);
      if sorted == [] {
        NothingSelected(kb, sorted);
        return [], 0;
      }
      ids := Some(sorted);
      scope := Select(kb, sorted);
    }
    out, requests := Follow(server(ids), scope);
  }
}
