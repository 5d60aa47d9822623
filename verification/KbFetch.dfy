/** A batched KnowledgeBase request over truncated pages gives the answer the cache and resolver count on. */
module KbFetch {
  import opened KbCache
  import opened Paging
  import opened Sorted
  import opened Wrappers

  /** The KnowledgeBase in id order, one record per QID the server has. */
  ghost predicate Lists(kb: seq<Record<KbVuln>>, server: Server) {
    && Ordered(kb)
    && (forall i :: 0 <= i < |kb| ==> kb[i].id in server && kb[i].items == [server[kb[i].id]])
    && forall q :: q in server ==> exists i :: 0 <= i < |kb| && kb[i].id == q
  }

  function Entries(records: seq<Record<KbVuln>>): seq<KbVuln> {
    if records == [] then [] else Entries(records[..|records| - 1]) + records[|records| - 1].items
  }

  /** Nothing is selected when every id on the list lies below the records. */
  lemma {:induction false} NoneSelected<D>(kb: seq<Record<D>>, qids: seq<int>)
    requires forall i, q :: 0 <= i < |kb| && q in qids ==> q < kb[i].id
    ensures Select(kb, qids) == []
    decreases |kb|
  {
    if kb != [] {
      NoneSelected(kb[1..], qids);
    }
  }

  /** Only the first record can be selected by an id not above it. */
  lemma FirstOnly<D>(kb: seq<Record<D>>, qids: seq<int>, q: int)
    requires Ordered(kb) && kb != [] && q <= kb[0].id && forall x :: x in qids ==> x < q
    ensures Select(kb, qids) == []
    ensures Select(kb, qids + [q]) == if kb[0].id == q then [kb[0]] else []
    ensures Select(kb, [q]) == if kb[0].id == q then [kb[0]] else []
  {
    NoneSelected(kb, qids);
    NoneSelected(kb[1..], qids + [q]);
    NoneSelected(kb[1..], [q]);
  }

  lemma FirstBelow<D>(kb: seq<Record<D>>, qids: seq<int>, q: int)
    requires kb != [] && kb[0].id < q
    ensures var first := if kb[0].id in qids then [kb[0]] else [];
            && Select(kb, qids + [q]) == first + Select(kb[1..], qids + [q])
            && Select(kb, qids) == first + Select(kb[1..], qids)
            && Select(kb, [q]) == Select(kb[1..], [q])
  {
  }

  /** A larger id on the list selects one more record, at the end. */
  lemma {:induction false} SelectAdds<D>(kb: seq<Record<D>>, qids: seq<int>, q: int)
    requires Ordered(kb) && forall x :: x in qids ==> x < q
    ensures Select(kb, qids + [q]) == Select(kb, qids) + Select(kb, [q])
    decreases |kb|
  {
    if kb != [] {
      if kb[0].id >= q {
        FirstOnly(kb, qids, q);
      } else {
        SelectAdds(kb[1..], qids, q);
        FirstBelow(kb, qids, q);
        Regroup(if kb[0].id in qids then [kb[0]] else [], Select(kb[1..], qids), Select(kb[1..], [q]));
      }
    }
  }

  lemma {:induction false} SelectOne<D>(kb: seq<Record<D>>, i: nat)
    requires Ordered(kb) && i < |kb|
    ensures Select(kb, [kb[i].id]) == [kb[i]]
    decreases |kb|
  {
    if i == 0 {
      NoneSelected(kb[1..], [kb[0].id]);
    } else {
      assert kb[0].id != kb[1..][i - 1].id;
      SelectOne(kb[1..], i - 1);
    }
  }

  lemma {:induction false} SelectAbsent<D>(kb: seq<Record<D>>, q: int)
    requires forall i :: 0 <= i < |kb| ==> kb[i].id != q
    ensures Select(kb, [q]) == []
    decreases |kb|
  {
    if kb != [] {
      SelectAbsent(kb[1..], q);
    }
  }

  lemma OneEntry(kb: seq<Record<KbVuln>>, server: Server, q: int)
    requires Lists(kb, server)
    ensures Select(kb, [q]) == [] || exists i :: 0 <= i < |kb| && Select(kb, [q]) == [kb[i]]
    ensures Entries(Select(kb, [q])) == if q in server then [server[q]] else []
  {
    if q in server {
      var i :| 0 <= i < |kb| && kb[i].id == q;
      SelectOne(kb, i);
      assert [kb[i]][..0] == [];
    } else {
      SelectAbsent(kb, q);
    }
  }

  lemma EntriesAdd(records: seq<Record<KbVuln>>, more: seq<Record<KbVuln>>)
    requires |more| <= 1
    ensures Entries(records + more) == Entries(records) + Entries(more)
  {
    if more == [] {
      assert records + more == records;
    } else {
      assert (records + more)[..|records|] == records && more[..0] == [];
    }
  }

  /** The entries selected by an increasing list are the server's answer to it. */
  lemma {:induction false} SelectionIsAnswer(kb: seq<Record<KbVuln>>, server: Server, qids: seq<int>)
    requires Lists(kb, server) && Increasing(qids)
    ensures Entries(Select(kb, qids)) == Answer(server, qids)
    decreases |qids|
  {
    if qids == [] {
      NoneSelected(kb, qids);
    } else {
      var most, q := qids[..|qids| - 1], qids[|qids| - 1];
      assert qids == most + [q];
      SelectionIsAnswer(kb, server, most);
      SelectAdds(kb, most, q);
      OneEntry(kb, server, q);
      EntriesAdd(Select(kb, most), Select(kb, [q]));
    }
  }

  method Flatten(records: seq<Record<KbVuln>>) returns (out: seq<KbVuln>)
    ensures out == Entries(records)
  {
    out := [];
    for i := 0 to |records|
      invariant out == Entries(records[..i])
    {
      assert records[..i + 1][..i] == records[..i];
      out := out + records[i].items;
    }
    assert records[..|records|] == records;
  }

  /** One batched request, however many pages it takes. */
  method FetchEntries(pages: Option<seq<int>> -> Option<int> -> Page<Record<KbVuln>>, qids: seq<int>,
      ghost kb: seq<Record<KbVuln>>, ghost server: Server)
    returns (out: seq<KbVuln>)
    requires Lists(kb, server) && Increasing(qids) && Serves(pages(None), kb)
    requires forall ids: seq<int> :: Serves(pages(Some(ids)), Select(kb, ids))
    ensures out == Answer(server, qids)
  {
    var records, requests := FetchKb(pages, Some(qids), kb);
    out := Flatten(records);
    SelectionIsAnswer(kb, server, qids);
  }
}
