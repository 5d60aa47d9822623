/**
  KnowledgeBase enrichment: chunks of detections resolved in one batch against a memo, a durable cache and the
  server.
 */
module KbCache {
  import opened Sorted
  import opened Wrappers

  type Qid = int
  type Seconds = int

  /** A KnowledgeBase entry: its scalar columns taken together, and the three columns that may be empty in the table. */
  datatype KbVuln = KbVuln(qid: Qid, scalars: string, cves: seq<string>, rtis: seq<string>, raw: map<string, string>)

  datatype KbEntry = KbEntry(qid: Qid, scalars: string, cves: Option<seq<string>>, rtis: Option<seq<string>>,
                             raw: Option<map<string, string>>, fetchedAt: Seconds)

  type Cache = map<Qid, KbEntry>

  function ToEntry(v: KbVuln, now: Seconds): KbEntry {
    KbEntry(v.qid, v.scalars, Some(v.cves), Some(v.rtis), Some(v.raw), now)
  }

  function ToKbVuln(e: KbEntry): KbVuln {
    KbVuln(e.qid, e.scalars, e.cves.GetOr([]), e.rtis.GetOr([]), e.raw.GetOr(map[]))
  }

  lemma CachedAsFetched(v: KbVuln, now: Seconds)
    ensures ToKbVuln(ToEntry(v, now)) == v
  {
  }

  function Rehydrated(cache: Cache, qid: Qid): Option<KbVuln> {
    if qid in cache then Some(ToKbVuln(cache[qid])) else None
  }

  /** A QID's age in the cache is known and within `maxHours`. */
  predicate Fresh(cache: Cache, qid: Qid, now: Seconds, maxHours: int) {
    qid in cache && now - cache[qid].fetchedAt <= maxHours * 3600
  }

  /** The server: what it has for each QID, the same throughout a stream. */
  type Server = map<Qid, KbVuln>

  predicate ServerOk(server: Server) {
    forall q :: q in server ==> server[q].qid == q
  }

  /** What a detection of `qid` is to be enriched with: a fresh cached copy, else the server's, else a stale copy. */
  function Resolve(server: Server, cache: Cache, qid: Qid, now: Seconds, maxHours: int): Option<KbVuln> {
    if Fresh(cache, qid, now, maxHours) then Rehydrated(cache, qid)
    else if qid in server then Some(server[qid])
    else Rehydrated(cache, qid)
  }

  /** The cache after the plain resolver has looked at `qid`. */
  function CacheAfter(server: Server, cache: Cache, qid: Qid, now: Seconds, maxHours: int): Cache {
    if !Fresh(cache, qid, now, maxHours) && qid in server then cache[qid := ToEntry(server[qid], now)] else cache
  }

  /** `v` is what the row `e` holds; a column without a list or a mapping holds an empty one. */
  predicate Copies(e: KbEntry, v: KbVuln) {
    && v.qid == e.qid && v.scalars == e.scalars
    && (e.cves.Some? ==> v.cves == e.cves.value) && (e.cves.None? ==> v.cves == [])
    && (e.rtis.Some? ==> v.rtis == e.rtis.value) && (e.rtis.None? ==> v.rtis == [])
    && (e.raw.Some? ==> v.raw == e.raw.value) && (e.raw.None? ==> v.raw == map[])
  }

  /** `e` is the row written for `v` at `now`. */
  predicate Stores(e: KbEntry, v: KbVuln, now: Seconds) {
    && e.qid == v.qid && e.scalars == v.scalars && e.fetchedAt == now
    && e.cves == Some(v.cves) && e.rtis == Some(v.rtis) && e.raw == Some(v.raw)
  }

  /** The row is no older than `maxHours`. */
  predicate InTime(cache: Cache, qid: Qid, now: Seconds, maxHours: int) {
    qid in cache && now <= cache[qid].fetchedAt + maxHours * 3600
  }

  /** A row in time answers for its QID; else the server does, if it has the QID; else the old row; else nothing. */
  predicate Answers(server: Server, cache: Cache, qid: Qid, now: Seconds, maxHours: int, kb: Option<KbVuln>) {
    if qid in cache && (InTime(cache, qid, now, maxHours) || qid !in server) then
      kb.Some? && Copies(cache[qid], kb.value)
    else if qid in server then kb == Some(server[qid])
    else kb == None
  }

  /** Rows were written for exactly the QIDs in `requested` that the server has, and no other row was touched. */
  ghost predicate Rewritten(server: Server, cache: Cache, after: Cache, requested: seq<Qid>, now: Seconds) {
    && (forall q :: q in after <==> q in cache || (q in requested && q in server))
    && (forall q :: q in after ==>
          if q in requested && q in server then Stores(after[q], server[q], now)
          else q in cache && after[q] == cache[q])
  }

  lemma ResolveAnswers(server: Server, cache: Cache, qid: Qid, now: Seconds, maxHours: int)
    ensures Fresh(cache, qid, now, maxHours) <==> InTime(cache, qid, now, maxHours)
    ensures Answers(server, cache, qid, now, maxHours, Resolve(server, cache, qid, now, maxHours))
  {
  }

  datatype Found = Found(host: int, qid: Qid, rest: string)

  datatype Merged = Merged(found: Found, kb: Option<KbVuln>)

  // ---------------------------------------------------------------- fetching and storing

  /** The entries the server has among `qids`, in their order. */
  function Answer(server: Server, qids: seq<Qid>): seq<KbVuln> {
    if qids == [] then []
    else
      var n := |qids| - 1;
      Answer(server, qids[..n]) + if qids[n] in server then [server[qids[n]]] else []
  }

  function Upserted(cache: Cache, vulns: seq<KbVuln>, now: Seconds): Cache {
    if vulns == [] then cache
    else
      var n := |vulns| - 1;
      Upserted(cache, vulns[..n], now)[vulns[n].qid := ToEntry(vulns[n], now)]
  }

  /** The cache with a fresh entry for every one of `qids` the server has. */
  function Refreshed(server: Server, cache: Cache, qids: seq<Qid>, now: Seconds): Cache {
    map q | q in cache.Keys + server.Keys && (q in cache || q in qids) ::
      if q in qids && q in server then ToEntry(server[q], now) else cache[q]
  }

  lemma RefreshedAdds(server: Server, cache: Cache, qids: seq<Qid>, q: Qid, now: Seconds)
    ensures Refreshed(server, cache, qids + [q], now) ==
            if q in server then Refreshed(server, cache, qids, now)[q := ToEntry(server[q], now)]
            else Refreshed(server, cache, qids, now)
  {
  }

  lemma RefreshedRows(server: Server, cache: Cache, qids: seq<Qid>, now: Seconds)
    ensures Rewritten(server, cache, Refreshed(server, cache, qids, now), qids, now)
  {
  }

  lemma RefreshedTwice(server: Server, cache: Cache, a: seq<Qid>, b: seq<Qid>, now: Seconds)
    ensures Refreshed(server, Refreshed(server, cache, a, now), b, now) == Refreshed(server, cache, a + b, now)
  {
    assert forall q :: q in a + b <==> q in a || q in b;
  }

  lemma UpsertedAdds(cache: Cache, vulns: seq<KbVuln>, v: KbVuln, now: Seconds)
    ensures Upserted(cache, vulns + [v], now) == Upserted(cache, vulns, now)[v.qid := ToEntry(v, now)]
  {
    assert (vulns + [v])[..|vulns|] == vulns;
  }

  lemma {:induction false} UpsertedAnswer(server: Server, cache: Cache, qids: seq<Qid>, now: Seconds)
    requires ServerOk(server)
    ensures Upserted(cache, Answer(server, qids), now) == Refreshed(server, cache, qids, now)
    decreases |qids|
  {
    if qids == [] {
      assert Refreshed(server, cache, [], now) == cache;
    } else {
      var n := |qids| - 1;
      var q, before := qids[n], Answer(server, qids[..n]);
      UpsertedAnswer(server, cache, qids[..n], now);
      RefreshedAdds(server, cache, qids[..n], q, now);
      assert qids == qids[..n] + [q];
      if q in server {
        UpsertedAdds(cache, before, server[q], now);
      } else {
        assert before + [] == before;
      }
    }
  }

  /** The fetched entries by QID; a later one would replace an earlier one. */
  function ByQid(vulns: seq<KbVuln>): map<Qid, KbVuln> {
    if vulns == [] then map[]
    else
      var n := |vulns| - 1;
      ByQid(vulns[..n])[vulns[n].qid := vulns[n]]
  }

  lemma {:induction false} AnswerByQid(server: Server, qids: seq<Qid>)
    requires ServerOk(server)
    ensures ByQid(Answer(server, qids)) == map q | q in server && q in qids :: server[q]
    decreases |qids|
  {
    if qids != [] {
      var n := |qids| - 1;
      var q, before := qids[n], Answer(server, qids[..n]);
      AnswerByQid(server, qids[..n]);
      assert qids == qids[..n] + [q];
      if q in server {
        assert (before + [server[q]])[..|before|] == before;
      } else {
        assert before + [] == before;
      }
    }
  }

  lemma AnswerOfOne(server: Server, qid: Qid)
    requires ServerOk(server)
    ensures Answer(server, [qid]) == if qid in server then [server[qid]] else []
    ensures qid in server ==>
              forall cache, now :: Upserted(cache, [server[qid]], now) == cache[qid := ToEntry(server[qid], now)]
  {
    assert [qid][..0] == [];
    if qid in server {
      assert [server[qid]][..0] == [];
    }
  }

  predicate Distinct(qids: seq<Qid>) {
    forall i, j :: 0 <= i < j < |qids| ==> qids[i] != qids[j]
  }

  lemma StillDistinct(requested: seq<Qid>, missing: seq<Qid>)
    requires Distinct(requested) && Increasing(missing) && forall q :: q in missing ==> q !in requested
    ensures Distinct(requested + missing)
  {
    var all := requested + missing;
    forall i, j | 0 <= i < j < |all|
      ensures all[i] != all[j]
    {
      if i >= |requested| {
        assert missing[i - |requested|] < missing[j - |requested|];
      } else if j >= |requested| {
        assert requested[i] in requested && missing[j - |requested|] in missing;
      }
    }
  }

  /**
    After a request the cache gives for the missing QIDs what the plain resolver would, and is unchanged for the
    others.
   */
  lemma AfterRequest(server: Server, cache: Cache, missing: seq<Qid>, now: Seconds, maxHours: int)
    requires ServerOk(server) && forall q :: q in missing ==> !Fresh(cache, q, now, maxHours)
    ensures var c := Refreshed(server, cache, missing, now);
            && (forall q :: q in missing ==> Rehydrated(c, q) == Resolve(server, cache, q, now, maxHours))
            && forall q :: q !in missing ==> (q in c <==> q in cache) && (q in c ==> c[q] == cache[q])
  {
  }

  type Memo = map<Qid, Option<KbVuln>>

  /**
    Within a stream: the memo, the cache and what the plain resolver would say agree; requested was what the memo
    knows and was not fresh, and what was requested is stored.
   */
  ghost predicate Agree(server: Server, initial: Cache, cache: Cache, memo: Memo, requested: seq<Qid>, now: Seconds,
      maxHours: int) {
    && ServerOk(server)
    && (forall q :: q in memo ==> memo[q] == Rehydrated(cache, q) == Resolve(server, initial, q, now, maxHours))
    && (forall q :: q !in memo ==> (q in cache <==> q in initial) && (q in cache ==> cache[q] == initial[q]))
    && (forall q :: q in requested <==> q in memo && !Fresh(initial, q, now, maxHours))
    && cache == Refreshed(server, initial, requested, now)
    && Distinct(requested)
  }

  /** A request for what is missing, and a memo filled from the cache after it, leave everything in agreement. */
  lemma AgreeAfterRequest(server: Server, initial: Cache, cache: Cache, memo: Memo, requested: seq<Qid>,
      missing: seq<Qid>, after: Memo, now: Seconds, maxHours: int)
    requires Agree(server, initial, cache, memo, requested, now, maxHours) && Increasing(missing)
    requires forall q :: q in missing ==> q !in memo && !Fresh(cache, q, now, maxHours)
    requires forall q :: q in after <==> q in memo || q in missing
    requires forall q :: q in memo ==> after[q] == memo[q]
    requires forall q :: q in missing ==> after[q] == Rehydrated(Refreshed(server, cache, missing, now), q)
    ensures Agree(server, initial, Refreshed(server, cache, missing, now), after, requested + missing, now, maxHours)
  {
    StillDistinct(requested, missing);
    RefreshedTwice(server, initial, requested, missing, now);
    AfterRequest(server, cache, missing, now, maxHours);
    var c := Refreshed(server, cache, missing, now);
    forall q | q in after
      ensures after[q] == Rehydrated(c, q) == Resolve(server, initial, q, now, maxHours)
    {
      if q in missing {
        assert Resolve(server, cache, q, now, maxHours) == Resolve(server, initial, q, now, maxHours);
      } else {
        assert Rehydrated(c, q) == Rehydrated(cache, q);
      }
    }
    assert forall q :: q in requested + missing <==> q in requested || q in missing;
  }

  const KB_BATCH := 200

  class VmSource {
    const server: Server
    const now: Seconds
    const maxHours: int
    var cache: Cache
    var memo: Memo
    ghost var initial: Cache
    ghost var requested: seq<Qid>
    ghost var fetches: nat

    ghost predicate Streaming()
      reads this
    {
      Agree(server, initial, cache, memo, requested, now, maxHours)
    }

    constructor (server: Server, cache: Cache, now: Seconds, maxHours: int)
      requires ServerOk(server)
      ensures this.server == server && this.cache == cache && this.now == now && this.maxHours == maxHours
    {
      this.server, this.cache, this.now, this.maxHours := server, cache, now, maxHours;
      memo := map[];
      initial, requested, fetches := cache, [], 0;
    }

    /** One request: the entries the server has among `qids`. */
    method FetchKb(qids: seq<Qid>) returns (fetched: seq<KbVuln>)
      modifies this`requested, this`fetches
      ensures requested == old(requested) + qids && fetches == old(fetches) + 1
      ensures fetched == Answer(server, qids)
    {
      requested, fetches := requested + qids, fetches + 1;
      fetched := [];
      for i := 0 to |qids|
        invariant fetched == Answer(server, qids[..i])
      {
        assert qids[..i + 1][..i] == qids[..i];
        if qids[i] in server {
          fetched := fetched + [server[qids[i]]];
        }
      }
      assert qids[..|qids|] == qids;
    }

    method UpsertMany(vulns: seq<KbVuln>)
      modifies this`cache
      ensures cache == Upserted(old(cache), vulns, now)
    {
      for i := 0 to |vulns|
        invariant cache == Upserted(old(cache), vulns[..i], now)
      {
        assert vulns[..i + 1][..i] == vulns[..i];
        cache := cache[vulns[i].qid := ToEntry(vulns[i], now)];
      }
      assert vulns[..|vulns|] == vulns;
    }

    /** The plain resolver, one QID at a time. */
    method ResolveKb(qid: Qid) returns (kb: Option<KbVuln>)
      requires ServerOk(server)
      modifies this`cache, this`requested, this`fetches
      ensures kb == Resolve(server, old(cache), qid, now, maxHours)
      ensures cache == CacheAfter(server, old(cache), qid, now, maxHours)
      ensures Answers(server, old(cache), qid, now, maxHours, kb)
      ensures requested == old(requested) + if InTime(old(cache), qid, now, maxHours) then [] else [qid]
      ensures Rewritten(server, old(cache), cache, requested[|old(requested)|..], now)
    {
      ResolveAnswers(server, cache, qid, now, maxHours);
      if Fresh(cache, qid, now, maxHours) {
        return Some(ToKbVuln(cache[qid]));
      }
      var fetched := FetchKb([qid]);
      AnswerOfOne(server, qid);
      if fetched != [] {
        UpsertMany(fetched);
        for i := 0 to |fetched|
          invariant forall j :: 0 <= j < i ==> fetched[j].qid != qid
        {
          if fetched[i].qid == qid {
            return Some(fetched[i]);
          }
        }
      }
      if qid in cache {
        return Some(ToKbVuln(cache[qid]));
      }
      return None;
    }

    // ---------------------------------------------------------------- the batch resolver

    /** The QIDs of a chunk that the memo does not know, sorted, each once. */
    method Needed(qids: seq<Qid>) returns (need: seq<Qid>)
      ensures Increasing(need)
      ensures forall q :: q in need <==> q in qids && q !in memo
    {
      need := [];
      for i := 0 to |qids|
        invariant Increasing(need)
        invariant forall q :: q in need <==> q in qids[..i] && q !in memo
      {
        assert qids[..i + 1] == qids[..i] + [qids[i]];
        if qids[i] !in memo {
          need := Insert(need, qids[i]);
        }
      }
      assert qids[..|qids|] == qids;
    }

    /** Fill the memo from fresh cached copies; what is left is missing. */
    method FromCache(need: seq<Qid>) returns (missing: seq<Qid>)
      requires Streaming() && Increasing(need) && forall q :: q in need ==> q !in memo
      modifies this`memo
      ensures Streaming() && Increasing(missing)
      ensures forall q :: q in missing <==> q in need && !Fresh(cache, q, now, maxHours)
      ensures forall q :: q in memo <==> q in old(memo) || (q in need && q !in missing)
    {
      missing := [];
      for i := 0 to |need|
        invariant Streaming() && Increasing(missing)
        invariant forall q :: q in missing <==> q in need[..i] && !Fresh(cache, q, now, maxHours)
        invariant forall q :: q in memo <==> q in old(memo) || (q in need[..i] && q !in missing)
      {
        assert need[..i + 1] == need[..i] + [need[i]];
        assert need[i] in need && need[i] !in need[..i];
        if Fresh(cache, need[i], now, maxHours) {
          memo := memo[need[i] := Some(ToKbVuln(cache[need[i]]))];
        } else {
          assert forall j :: 0 <= j < |missing| ==> missing[j] in missing;
          assert forall x :: x in need[..i] ==> x < need[i];
          missing := missing + [need[i]];
        }
      }
      assert need[..|need|] == need;
    }

    /** Fill the memo for what was fetched, or else from whatever is cached. */
    method Memoise(missing: seq<Qid>, byQid: map<Qid, KbVuln>)
      requires Increasing(missing)
      requires forall q :: q in missing ==> q !in memo && (q in byQid ==> Rehydrated(cache, q) == Some(byQid[q]))
      modifies this`memo
      ensures forall q :: q in memo <==> q in old(memo) || q in missing
      ensures forall q :: q in old(memo) ==> memo[q] == old(memo)[q]
      ensures forall q :: q in missing ==> memo[q] == Rehydrated(cache, q)
    {
      for i := 0 to |missing|
        invariant forall q :: q in memo <==> q in old(memo) || q in missing[..i]
        invariant forall q :: q in old(memo) ==> memo[q] == old(memo)[q]
        invariant forall q :: q in missing[..i] ==> memo[q] == Rehydrated(cache, q)
      {
        var q := missing[i];
        assert missing[..i + 1] == missing[..i] + [q];
        assert q in missing && q !in missing[..i];
        if q in byQid {
          memo := memo[q := Some(byQid[q])];
        } else if q in cache {
          memo := memo[q := Some(ToKbVuln(cache[q]))];
        } else {
          memo := memo[q := None];
        }
      }
      assert missing[..|missing|] == missing;
    }

    /** Fetch what is missing in one request, store it, and fill the memo. */
    method FromServer(missing: seq<Qid>)
      requires Streaming() && Increasing(missing)
      requires forall q :: q in missing ==> q !in memo && !Fresh(cache, q, now, maxHours)
      modifies this`memo, this`cache, this`requested, this`fetches
      ensures Streaming() && fetches == old(fetches) + 1
      ensures forall q :: q in memo <==> q in old(memo) || q in missing
    {
      var fetched := FetchKb(missing);
      if fetched != [] {
        UpsertMany(fetched);
      }
      UpsertedAnswer(server, old(cache), missing, now);
      AnswerByQid(server, missing);
      assert cache == Refreshed(server, old(cache), missing, now);
      Memoise(missing, ByQid(fetched));
      AgreeAfterRequest(server, initial, old(cache), old(memo), old(requested), missing, memo, now, maxHours);
    }

    method BatchResolveKb(qids: seq<Qid>)
      requires Streaming()
      modifies this`memo, this`cache, this`requested, this`fetches
      ensures Streaming() && fetches <= old(fetches) + 1
      ensures forall q :: q in memo <==> q in old(memo) || q in qids
    {
      var need := Needed(qids);
      if need == [] {
        return;
      }
      var missing := FromCache(need);
      if missing == [] {
        return;
      }
      FromServer(missing);
    }

    /** Resolve a chunk's QIDs and emit its detections. */
    method Drain(buffer: seq<Found>) returns (out: seq<Merged>)
      requires Streaming()
      modifies this`memo, this`cache, this`requested, this`fetches
      ensures Streaming() && fetches <= old(fetches) + (if buffer == [] then 0 else 1)
      ensures out == Enriched(server, initial, buffer, now, maxHours)
      ensures memo.Keys == old(memo).Keys + QidsOf(buffer)
    {
      out := [];
      if buffer == [] {
        assert QidsOf(buffer) == {};
        return;
      }
      var qids := seq(|buffer|, i requires 0 <= i < |buffer| => buffer[i].qid);
      BatchResolveKb(qids);
      TheirQids(buffer, qids);
      forall q
        ensures q in memo.Keys <==> q in old(memo).Keys + QidsOf(buffer)
      {
        assert q in memo <==> q in old(memo) || q in qids;
      }
      for i := 0 to |buffer|
        invariant out == Enriched(server, initial, buffer[..i], now, maxHours)
      {
        assert qids[i] == buffer[i].qid && qids[i] in qids;
        out := out + [Merged(buffer[i], memo[buffer[i].qid])];
      }
      assert buffer[..|buffer|] == buffer;
    }

    /** The detections in chunks, each resolved before it is emitted. */
    method DrainAll(detections: seq<Found>) returns (out: seq<Merged>)
      requires Streaming() && memo == map[] && fetches == 0
      modifies this`memo, this`cache, this`requested, this`fetches
      ensures Streaming() && memo.Keys == QidsOf(detections)
      ensures out == Enriched(server, initial, detections, now, maxHours)
      ensures fetches <= (|detections| + KB_BATCH - 1) / KB_BATCH
    {
      out := [];
      var buffer: seq<Found> := [];
      ghost var chunks: nat := 0;
      for i := 0 to |detections|
        invariant Streaming() && |buffer| < KB_BATCH
        invariant i == chunks * KB_BATCH + |buffer| && fetches <= chunks
        invariant memo.Keys + QidsOf(buffer) == QidsOf(detections[..i])
        invariant out + Enriched(server, initial, buffer, now, maxHours) ==
            Enriched(server, initial, detections[..i], now, maxHours)
      {
        assert detections[..i + 1] == detections[..i] + [detections[i]];
        Buffered(server, initial, detections[..i], buffer, detections[i], memo.Keys, out, now, maxHours);
        buffer := buffer + [detections[i]];
        if |buffer| >= KB_BATCH {
          var chunk := Drain(buffer);
          out := out + chunk;
          NothingBuffered(server, initial, now, maxHours);
          buffer := [];
          chunks := chunks + 1;
        }
      }
      assert detections[..|detections|] == detections;
      var rest := Drain(buffer);
      out := out + rest;
    }

    /**
      The stream of enriched detections: every detection, in order, answered from a row in time, else by the server,
      else from an old row. Requested are the QIDs in the stream without a row in time, each once, with at most one
      fetch per chunk, and rows are written for exactly those the server has.
     */
    method IterMerged(detections: seq<Found>) returns (out: seq<Merged>)
      requires ServerOk(server)
      modifies this
      ensures |out| == |detections|
      ensures forall i :: 0 <= i < |out| ==>
        out[i].found == detections[i] && Answers(server, old(cache), detections[i].qid, now, maxHours, out[i].kb)
      ensures forall q :: q in requested <==>
        (exists i :: 0 <= i < |detections| && detections[i].qid == q) && !InTime(old(cache), q, now, maxHours)
      ensures Distinct(requested)
      ensures Rewritten(server, old(cache), cache, requested, now)
      ensures out == Enriched(server, old(cache), detections, now, maxHours)
      ensures fetches <= (|detections| + 199) / 200
      ensures forall q :: q in memo ==> memo[q] == Rehydrated(cache, q)
    {
      memo := map[];
      initial, requested, fetches := cache, [], 0;
      out := DrainAll(detections);
      RefreshedRows(server, initial, requested, now);
      forall q
        ensures Fresh(initial, q, now, maxHours) <==> InTime(initial, q, now, maxHours)
        ensures Answers(server, initial, q, now, maxHours, Resolve(server, initial, q, now, maxHours))
      {
        ResolveAnswers(server, initial, q, now, maxHours);
      }
    }
  }

  function QidsOf(fs: seq<Found>): set<Qid> {
    set i | 0 <= i < |fs| :: fs[i].qid
  }

  lemma TheirQids(fs: seq<Found>, qids: seq<Qid>)
    requires |qids| == |fs| && forall i :: 0 <= i < |fs| ==> qids[i] == fs[i].qid
    ensures forall q :: q in qids <==> q in QidsOf(fs)
  {
  }

  lemma OneMore(server: Server, cache: Cache, fs: seq<Found>, f: Found, now: Seconds, maxHours: int)
    ensures QidsOf(fs + [f]) == QidsOf(fs) + {f.qid}
    ensures Enriched(server, cache, fs + [f], now, maxHours) ==
            Enriched(server, cache, fs, now, maxHours) + [Merged(f, Resolve(server, cache, f.qid, now, maxHours))]
  {
    assert (fs + [f])[|fs|] == f;
    assert forall i :: 0 <= i < |fs| ==> (fs + [f])[i] == fs[i];
  }

  lemma NothingBuffered(server: Server, cache: Cache, now: Seconds, maxHours: int)
    ensures QidsOf([]) == {} && Enriched(server, cache, [], now, maxHours) == []
  {
  }

  /** The next detection joins the buffer. */
  lemma Buffered(server: Server, cache: Cache, seen: seq<Found>, buffer: seq<Found>, f: Found, known: set<Qid>,
      out: seq<Merged>, now: Seconds, maxHours: int)
    requires known + QidsOf(buffer) == QidsOf(seen)
    requires out + Enriched(server, cache, buffer, now, maxHours) == Enriched(server, cache, seen, now, maxHours)
    ensures known + QidsOf(buffer + [f]) == QidsOf(seen + [f])
    ensures out + Enriched(server, cache, buffer + [f], now, maxHours) ==
            Enriched(server, cache, seen + [f], now, maxHours)
  {
    OneMore(server, cache, seen, f, now, maxHours);
    OneMore(server, cache, buffer, f, now, maxHours);
  }

  /** The reference: each detection with its QID resolved on its own, against the cache as it was. */
  function Enriched(server: Server, cache: Cache, fs: seq<Found>, now: Seconds, maxHours: int): (ms: seq<Merged>)
    ensures |ms| == |fs|
    ensures forall i :: 0 <= i < |fs| ==> ms[i] == Merged(fs[i], Resolve(server, cache, fs[i].qid, now, maxHours))
  {
    seq(|fs|, i requires 0 <= i < |fs| => Merged(fs[i], Resolve(server, cache, fs[i].qid, now, maxHours)))
  }

  /** Resolving a QID does not change what any QID resolves to: the plain resolver may run in any order, repeatedly. */
  lemma ResolveIsStable(server: Server, cache: Cache, qid: Qid, q: Qid, now: Seconds, maxHours: int)
    requires ServerOk(server)
    ensures var after := CacheAfter(server, cache, qid, now, maxHours);
            && Resolve(server, after, q, now, maxHours) == Resolve(server, cache, q, now, maxHours)
            && Rehydrated(after, qid) == Resolve(server, cache, qid, now, maxHours)
  {
  }
}
