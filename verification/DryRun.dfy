/** A dry run counts exactly what a real run would do, and what it nevertheless costs the next real run. */
module DryRun {
  import opened Wrappers
  import opened Store
  import opened Lifecycle
  import opened Invariants

  lemma SameCellSameDecision(cfg: Config, v: World, w: World, s: Sighting)
    requires SameCell(v, w, s.pk)
    ensures DecideIn(cfg, v, s) == DecideIn(cfg, w, s)
  {
  }

  // ---------------------------------------------------------------- fidelity

  lemma {:induction false} SameTallies(cfg: Config, v: World, w: World, c: Counts, ss: seq<Sighting>, run: RunId,
      now: Seconds)
    requires Inv(v) && Inv(w) && DistinctPks(ss)
    requires forall pk :: InBatch(ss, pk) ==> SameCell(v, w, pk)
    ensures TallyAll(cfg, v, c, ss, run, now, true) == TallyAll(cfg, w, c, ss, run, now, false)
    decreases |ss|
  {
    if ss != [] {
      var s := ss[0];
      assert InBatch(ss, s.pk);
      SameCellSameDecision(cfg, v, w, s);
      var v', w' := Step(cfg, v, s, run, now, true), Step(cfg, w, s, run, now, false);
      StepKeepsInv(cfg, v, s, run, now, true);
      StepKeepsInv(cfg, w, s, run, now, false);
      forall pk | InBatch(ss[1..], pk)
        ensures SameCell(v', w', pk)
      {
        TailBatch(ss, pk);
        StepFrame(cfg, v, s, run, now, true, pk);
        StepFrame(cfg, w, s, run, now, false, pk);
      }
      SameTallies(cfg, v', w', Tally(c, DecideIn(cfg, v, s)), ss[1..], run, now);
    }
  }

  /** Every row of the batch ends up stamped, and a stamped row stays stamped. */
  lemma {:induction false} BatchIsStamped(cfg: Config, w: World, ss: seq<Sighting>, run: RunId, now: Seconds,
      dry: bool, pk: Pk)
    requires InBatch(ss, pk) || (pk in w.rows && w.rows[pk].lastSeen == run && w.rows[pk].misses == 0)
    ensures var rows := StepAll(cfg, w, ss, run, now, dry).rows;
            pk in rows && rows[pk].lastSeen == run && rows[pk].misses == 0
    decreases |ss|
  {
    if ss != [] {
      TailBatch(ss, pk);
      BatchIsStamped(cfg, Step(cfg, w, ss[0], run, now, dry), ss[1..], run, now, dry, pk);
    }
  }

  lemma SameStaleSet(cfg: Config, w: World, ss: seq<Sighting>, run: RunId, now: Seconds)
    requires Inv(w)
    ensures StaleSet(cfg, StepAll(cfg, w, ss, run, now, true), run, now) ==
            StaleSet(cfg, StepAll(cfg, w, ss, run, now, false), run, now)
  {
    var v, v' := StepAll(cfg, w, ss, run, now, true), StepAll(cfg, w, ss, run, now, false);
    forall pk
      ensures pk in StaleSet(cfg, v, run, now) <==> pk in StaleSet(cfg, v', run, now)
    {
      if InBatch(ss, pk) {
        BatchIsStamped(cfg, w, ss, run, now, true, pk);
        BatchIsStamped(cfg, w, ss, run, now, false, pk);
      } else {
        StepAllFrame(cfg, w, ss, run, now, true, pk);
        StepAllFrame(cfg, w, ss, run, now, false, pk);
      }
    }
  }

  lemma {:induction false} DryStepsLeaveTheSite(cfg: Config, w: World, ss: seq<Sighting>, run: RunId, now: Seconds)
    ensures StepAll(cfg, w, ss, run, now, true).site == w.site
    decreases |ss|
  {
    if ss != [] {
      DryStepsLeaveTheSite(cfg, Step(cfg, w, ss[0], run, now, true), ss[1..], run, now);
    }
  }

  /** Same counters, purge count included, and no Jira issue changed. */
  lemma DryRunFidelity(cfg: Config, w: World, ss: seq<Sighting>, run: RunId, now: Seconds, full: bool)
    requires Inv(w) && DistinctPks(ss)
    ensures RunCounts(cfg, w, ss, run, now, full, true) == RunCounts(cfg, w, ss, run, now, full, false)
    ensures Run(cfg, w, ss, run, now, full, true).site == w.site
  {
    SameTallies(cfg, w, w, ZERO_COUNTS, ss, run, now);
    SameStaleSet(cfg, w, ss, run, now);
    DryStepsLeaveTheSite(cfg, w, ss, run, now);
    if full {
      var seen := StepAll(cfg, w, ss, run, now, true);
      assert PurgedSite(cfg, seen, {}, {}).issues == seen.site.issues;
    }
  }

  // ---------------------------------------------------------------- what a dry run costs

  /** The next real run would overwrite stale material fields here; a dry run in between makes it not do so. */
  ghost predicate LosesUpdate(cfg: Config, w: World, s: Sighting) {
    DecideIn(cfg, w, s) == Put && TargetFields(w, s) != Some(s.BuildFields())
  }

  ghost function TargetFields(w: World, s: Sighting): Option<Fields> {
    var k := Target(w, s);
    if k in w.site.issues then Some(w.site.issues[k].fields) else None
  }

  /** The decision on the row a dry sighting stamped; it sees the same resolution. */
  lemma DecideAfterDry(cfg: Config, row: Option<Row>, res: Option<string>, s: Sighting, run: RunId, now: Seconds)
    requires row.Some? ==> ClosureOk(row.value)
    ensures var dec := Decide(cfg, row, res, s);
            Decide(cfg, Some(Seen(Bookkeep(cfg, row, dec, now, true), s, run, None)), res, s) ==
            if dec == Put then Telemetry else dec
  {
  }

  /** A dry sighting changes the next real sighting's decision exactly when that decision is a PUT. */
  lemma DryStepHidesExactlyPuts(cfg: Config, w: World, s: Sighting, run: RunId, now: Seconds)
    requires Inv(w)
    ensures var v := Step(cfg, w, s, run, now, true);
            DecideIn(cfg, v, s) == if DecideIn(cfg, w, s) == Put then Telemetry else DecideIn(cfg, w, s)
  {
    var row, row' := Lookup(w.rows, s.pk), NextRow(cfg, w, s, run, now, true);
    DecideAfterDry(cfg, row, RowResolution(w.site, row), s, run, now);
    assert Lookup(Step(cfg, w, s, run, now, true).rows, s.pk) == Some(row');
    assert RowResolution(w.site, Some(row')) == RowResolution(w.site, row);
  }

  lemma DryThenRealStep(cfg: Config, a: World, b: World, s: Sighting, run: RunId, now: Seconds, run': RunId,
      now': Seconds)
    requires Inv(a) && Inv(b) && a.site == b.site
    requires Lookup(b.rows, s.pk) == Some(NextRow(cfg, a, s, run, now, true))
    ensures Step(cfg, a, s, run', now', false).site == Step(cfg, b, s, run', now', false).site <==>
            !LosesUpdate(cfg, a, s)
  {
    DryStepHidesExactlyPuts(cfg, a, s, run, now);
    var n := |Writes(cfg, a, s)|;
    WritesTouchTheTargetOnly(cfg, a, s, n);
    StepSite(cfg, a, s, run', now');
    if DecideIn(cfg, a, s) == Put {
      var k := Target(a, s);
      assert k in a.site.issues;
      var issue := a.site.issues[k];
      assert Step(cfg, a, s, run', now', false).site.issues[k] == issue.(fields := s.BuildFields());
      if issue.fields == s.BuildFields() {
        assert a.site.issues[k := issue] == a.site.issues;
      }
    } else {
      assert Writes(cfg, a, s) == Writes(cfg, b, s);
    }
  }

  /** Right after the sighting, the issue's fields differ. */
  lemma LostAtOnce(cfg: Config, a: World, b: World, s: Sighting, run: RunId, now: Seconds, run': RunId, now': Seconds)
    requires Inv(a) && Inv(b) && a.site == b.site
    requires Lookup(b.rows, s.pk) == Some(NextRow(cfg, a, s, run, now, true))
    requires LosesUpdate(cfg, a, s)
    ensures var a', b', k := Step(cfg, a, s, run', now', false), Step(cfg, b, s, run', now', false), Target(a, s);
            && s.pk in a'.rows && a'.rows[s.pk].issueKey == Some(k)
            && s.pk in b'.rows && b'.rows[s.pk].issueKey == Some(k)
            && k in a'.site.issues && k in b'.site.issues && a'.site.issues[k] != b'.site.issues[k]
  {
    DryStepHidesExactlyPuts(cfg, a, s, run, now);
    WritesTouchTheTargetOnly(cfg, a, s, 1);
    StepSite(cfg, a, s, run', now');
    NextRowFacts(cfg, a, s, run', now', false);
    NextRowFacts(cfg, b, s, run', now', false);
  }

  lemma LostStaysLost(cfg: Config, a: World, b: World, ss: seq<Sighting>, run: RunId, now: Seconds, run': RunId,
      now': Seconds)
    requires Inv(a) && Inv(b) && a.site == b.site && DistinctPks(ss) && ss != []
    requires Lookup(b.rows, ss[0].pk) == Some(NextRow(cfg, a, ss[0], run, now, true))
    requires LosesUpdate(cfg, a, ss[0])
    ensures StepAll(cfg, a, ss, run', now', false).site != StepAll(cfg, b, ss, run', now', false).site
  {
    var s := ss[0];
    var a', b' := Step(cfg, a, s, run', now', false), Step(cfg, b, s, run', now', false);
    LostAtOnce(cfg, a, b, s, run, now, run', now');
    StepKeepsInv(cfg, a, s, run', now', false);
    StepKeepsInv(cfg, b, s, run', now', false);
    assert !InBatch(ss[1..], s.pk);
    SameIssueLater(cfg, a', ss[1..], run', now', s.pk, Target(a, s));
    SameIssueLater(cfg, b', ss[1..], run', now', s.pk, Target(a, s));
  }

  /** The rest of the batch does not touch the issue of a row outside it. */
  lemma SameIssueLater(cfg: Config, w: World, ss: seq<Sighting>, run: RunId, now: Seconds, pk: Pk, k: Key)
    requires Inv(w) && !InBatch(ss, pk) && pk in w.rows && w.rows[pk].issueKey == Some(k)
    ensures Lookup(StepAll(cfg, w, ss, run, now, false).site.issues, k) == Lookup(w.site.issues, k)
  {
    StepAllFrame(cfg, w, ss, run, now, false, pk);
  }

  lemma LaterSighting(cfg: Config, a: World, s: Sighting, t: Sighting, run: RunId, now: Seconds, run': RunId,
      now': Seconds)
    requires Inv(a) && s.pk != t.pk
    ensures var a' := Step(cfg, a, s, run', now', false);
            && NextRow(cfg, a', t, run, now, true) == NextRow(cfg, a, t, run, now, true)
            && LosesUpdate(cfg, a', t) == LosesUpdate(cfg, a, t)
  {
    StepFrame(cfg, a, s, run', now', false, t.pk);
    SameCellSameDecision(cfg, a, Step(cfg, a, s, run', now', false), t);
  }

  /** No sighting of the batch loses an update. */
  ghost predicate NothingLost(cfg: Config, w: World, ss: seq<Sighting>) {
    forall i :: 0 <= i < |ss| ==> !LosesUpdate(cfg, w, ss[i])
  }

  lemma NothingLostSplits(cfg: Config, w: World, ss: seq<Sighting>)
    requires ss != []
    ensures NothingLost(cfg, w, ss) <==> !LosesUpdate(cfg, w, ss[0]) && NothingLost(cfg, w, ss[1..])
  {
    if NothingLost(cfg, w, ss[1..]) && !LosesUpdate(cfg, w, ss[0]) {
      forall i | 0 <= i < |ss|
        ensures !LosesUpdate(cfg, w, ss[i])
      {
        assert i > 0 ==> ss[i] == ss[1..][i - 1];
      }
    }
  }

  lemma LaterSightings(cfg: Config, a: World, b': World, s: Sighting, rest: seq<Sighting>, run: RunId, now: Seconds,
      run': RunId, now': Seconds)
    requires Inv(a) && forall i :: 0 <= i < |rest| ==> rest[i].pk != s.pk
    requires forall i :: 0 <= i < |rest| ==>
               Lookup(b'.rows, rest[i].pk) == Some(NextRow(cfg, a, rest[i], run, now, true))
    ensures var a' := Step(cfg, a, s, run', now', false);
            && NothingLost(cfg, a', rest) == NothingLost(cfg, a, rest)
            && forall i :: 0 <= i < |rest| ==>
                 Lookup(b'.rows, rest[i].pk) == Some(NextRow(cfg, a', rest[i], run, now, true))
  {
    forall i | 0 <= i < |rest|
      ensures var a' := Step(cfg, a, s, run', now', false);
              && NextRow(cfg, a', rest[i], run, now, true) == NextRow(cfg, a, rest[i], run, now, true)
              && LosesUpdate(cfg, a', rest[i]) == LosesUpdate(cfg, a, rest[i])
    {
      LaterSighting(cfg, a, s, rest[i], run, now, run', now');
    }
  }

  /** After a first sighting that loses nothing, the two sides are as before for the rest of the batch. */
  lemma AfterOne(cfg: Config, a: World, b: World, ss: seq<Sighting>, run: RunId, now: Seconds, run': RunId,
      now': Seconds)
    requires Inv(a) && Inv(b) && a.site == b.site && DistinctPks(ss) && ss != [] && !LosesUpdate(cfg, a, ss[0])
    requires forall i :: 0 <= i < |ss| ==> Lookup(b.rows, ss[i].pk) == Some(NextRow(cfg, a, ss[i], run, now, true))
    ensures var a', b' := Step(cfg, a, ss[0], run', now', false), Step(cfg, b, ss[0], run', now', false);
            var rest := ss[1..];
            && Inv(a') && Inv(b') && a'.site == b'.site && DistinctPks(rest)
            && NothingLost(cfg, a', rest) == NothingLost(cfg, a, rest)
            && forall i :: 0 <= i < |rest| ==>
                 Lookup(b'.rows, rest[i].pk) == Some(NextRow(cfg, a', rest[i], run, now, true))
  {
    var s, rest := ss[0], ss[1..];
    DryThenRealStep(cfg, a, b, s, run, now, run', now');
    StepKeepsInv(cfg, a, s, run', now', false);
    StepKeepsInv(cfg, b, s, run', now', false);
    LaterSightings(cfg, a, Step(cfg, b, s, run', now', false), s, rest, run, now, run', now');
  }

  lemma {:induction false} DryThenReal(cfg: Config, a: World, b: World, ss: seq<Sighting>, run: RunId, now: Seconds,
      run': RunId, now': Seconds)
    requires Inv(a) && Inv(b) && a.site == b.site && DistinctPks(ss)
    requires forall i :: 0 <= i < |ss| ==> Lookup(b.rows, ss[i].pk) == Some(NextRow(cfg, a, ss[i], run, now, true))
    ensures StepAll(cfg, a, ss, run', now', false).site == StepAll(cfg, b, ss, run', now', false).site <==>
            NothingLost(cfg, a, ss)
    decreases |ss|
  {
    if ss != [] {
      NothingLostSplits(cfg, a, ss);
      if LosesUpdate(cfg, a, ss[0]) {
        LostStaysLost(cfg, a, b, ss, run, now, run', now');
      } else {
        AfterOne(cfg, a, b, ss, run, now, run', now');
        DryThenReal(cfg, Step(cfg, a, ss[0], run', now', false), Step(cfg, b, ss[0], run', now', false), ss[1..],
          run, now, run', now');
      }
    }
  }

  /** Where a batch of distinct keys leaves the row of its `i`th sighting. */
  lemma {:induction false} BatchRow(cfg: Config, w: World, ss: seq<Sighting>, run: RunId, now: Seconds, i: nat)
    requires Inv(w) && DistinctPks(ss) && i < |ss|
    ensures Lookup(StepAll(cfg, w, ss, run, now, true).rows, ss[i].pk) == Some(NextRow(cfg, w, ss[i], run, now, true))
    decreases |ss|
  {
    var w' := Step(cfg, w, ss[0], run, now, true);
    StepKeepsInv(cfg, w, ss[0], run, now, true);
    if i == 0 {
      assert !InBatch(ss[1..], ss[0].pk);
      StepAllFrame(cfg, w', ss[1..], run, now, true, ss[0].pk);
    } else {
      StepFrame(cfg, w, ss[0], run, now, true, ss[i].pk);
      SameCellSameDecision(cfg, w, w', ss[i]);
      BatchRow(cfg, w', ss[1..], run, now, i - 1);
    }
  }

  // ---------------------------------------------------------------- misses counted by a dry full run

  /** The same row, up to the columns that mirror Jira, with `m` more misses. */
  predicate Later(a: Row, b: Row, m: nat) {
    b == a.(misses := a.misses + m, sticky := b.sticky, jiraResolution := b.jiraResolution)
  }

  lemma DryPurgeCounts(cfg: Config, w: World, pk: Pk, run: RunId, now: Seconds)
    requires pk in w.rows
    ensures Later(w.rows[pk], PurgedRow(cfg, w, pk, run, now, true), if Missed(w.rows[pk], run) then 1 else 0)
  {
  }

  /** One miss more changes the verdict on a row exactly when it is the last miss an agent-tracked row is granted. */
  lemma OneMissMore(cfg: Config, a: World, b: World, pk: Pk, m: nat, run: RunId, now: Seconds)
    requires pk in a.rows && pk in b.rows && Later(a.rows[pk], b.rows[pk], m) && m <= 1
    requires a.rows[pk].issueKey.Some? ==>
               ResolutionOf(a.site, a.rows[pk].issueKey.value) == ResolutionOf(b.site, a.rows[pk].issueKey.value)
    ensures GoesStale(cfg, a, pk, run, now) ==> GoesStale(cfg, b, pk, run, now)
    ensures GoesStale(cfg, b, pk, run, now) && !GoesStale(cfg, a, pk, run, now) <==>
              && m == 1 && Missed(a.rows[pk], run) && IsAgentTracked(a.rows[pk])
              && !IsSticky(cfg, ResolutionOf(a.site, a.rows[pk].issueKey.value))
              && a.rows[pk].misses + 2 == cfg.agentGraceSyncs
  {
    var row, row' := a.rows[pk], b.rows[pk];
    assert IsAgentTracked(row.(misses := row.misses + 1)) == IsAgentTracked(row);
    assert IsAgentTracked(row'.(misses := row'.misses + 1)) == IsAgentTracked(row);
  }

  /** The stale writes would change nothing here. */
  predicate LooksPurged(cfg: Config, issue: Issue) {
    && issue.closed && issue.resolution == Some(cfg.resolutionStale)
    && cfg.managedLabel in issue.fields.labels && cfg.staleLabel in issue.fields.labels
  }

  /** What the stale writes make of an issue. */
  function MarkStale(cfg: Config, issue: Issue): Issue {
    issue.(closed := true, resolution := Some(cfg.resolutionStale),
           fields := issue.fields.(labels := StaleLabels(cfg, issue.fields.labels)))
  }

  lemma MarkedExactlyWhen(cfg: Config, issue: Issue)
    ensures MarkStale(cfg, issue) == issue <==> LooksPurged(cfg, issue)
  {
    var labels := issue.fields.labels;
    var once := WithLabel(labels, cfg.managedLabel);
    assert cfg.managedLabel in once;
    assert |StaleLabels(cfg, labels)| == |labels| ==> once == labels;
  }

  /** A miss counted now closes this row's issue at the next purge pass, which otherwise would leave it open. */
  predicate Hastened(cfg: Config, w: World, pk: Pk) {
    && pk in w.rows && IsOpen(w.rows[pk]) && IsAgentTracked(w.rows[pk])
    && w.rows[pk].misses + 2 == cfg.agentGraceSyncs
    && w.rows[pk].issueKey.value in w.site.issues
    && var issue := w.site.issues[w.rows[pk].issueKey.value];
       !IsSticky(cfg, issue.resolution) && !LooksPurged(cfg, issue)
  }

  predicate NothingHastened(cfg: Config, w: World, ss: seq<Sighting>) {
    forall pk :: pk in w.rows && !InBatch(ss, pk) ==> !Hastened(cfg, w, pk)
  }

  /** A row the batch does not sight: the rehearsal at most counts a miss, and its issue is the same on all sides. */
  ghost predicate Unsighted(w: World, a: World, b: World, pk: Pk, m: nat) {
    && pk in w.rows && pk in a.rows && pk in b.rows && a.rows[pk] == w.rows[pk] && Later(w.rows[pk], b.rows[pk], m)
    && (w.rows[pk].issueKey.Some? ==>
          var k := w.rows[pk].issueKey.value;
          Lookup(a.site.issues, k) == Lookup(w.site.issues, k) == Lookup(b.site.issues, k))
  }

  /** Where the real sightings leave the rows, without (`a`) and after (`b`) a rehearsal of `w`. */
  ghost predicate Parallel(w: World, ss: seq<Sighting>, full: bool, run: RunId, a: World, b: World) {
    && (forall pk :: InBatch(ss, pk) ==> pk in a.rows && !Missed(a.rows[pk], run))
    && (forall pk :: InBatch(ss, pk) ==> pk in b.rows && !Missed(b.rows[pk], run))
    && (forall pk :: !InBatch(ss, pk) ==> (pk in w.rows <==> pk in a.rows) && (pk in w.rows <==> pk in b.rows))
    && (forall pk :: !InBatch(ss, pk) && pk in w.rows ==>
          Unsighted(w, a, b, pk, if full && IsOpen(w.rows[pk]) then 1 else 0))
  }

  lemma RehearsedRow(cfg: Config, w: World, ss: seq<Sighting>, run: RunId, now: Seconds, full: bool, pk: Pk)
    requires Inv(w) && !InBatch(ss, pk) && (pk in w.rows ==> w.rows[pk].lastSeen < run)
    ensures var r := Run(cfg, w, ss, run, now, full, true);
            && (pk in r.rows <==> pk in w.rows)
            && (pk in w.rows ==> Later(w.rows[pk], r.rows[pk], if full && IsOpen(w.rows[pk]) then 1 else 0))
  {
    var v := StepAll(cfg, w, ss, run, now, true);
    StepAllFrame(cfg, w, ss, run, now, true, pk);
    if full && pk in w.rows {
      DryPurgeCounts(cfg, v, pk, run, now);
    }
  }

  lemma RehearsalKeeps(cfg: Config, w: World, ss: seq<Sighting>, run: RunId, now: Seconds, full: bool)
    requires Inv(w)
    ensures var r := Run(cfg, w, ss, run, now, full, true);
            Inv(r) && r.site == w.site
  {
    var v := StepAll(cfg, w, ss, run, now, true);
    StepAllKeepsInv(cfg, w, ss, run, now, true);
    DryStepsLeaveTheSite(cfg, w, ss, run, now);
    PurgeKeepsInv(cfg, v, run, now, true);
    assert PurgedSite(cfg, v, {}, {}).issues == v.site.issues;
  }

  lemma ParallelRow(cfg: Config, w: World, ss: seq<Sighting>, run: RunId, now: Seconds, full: bool,
      run': RunId, now': Seconds, pk: Pk)
    requires Inv(w) && !InBatch(ss, pk) && (pk in w.rows ==> w.rows[pk].lastSeen < run)
    ensures var r := Run(cfg, w, ss, run, now, full, true);
            var a, b := StepAll(cfg, w, ss, run', now', false), StepAll(cfg, r, ss, run', now', false);
            && (pk in w.rows <==> pk in a.rows) && (pk in w.rows <==> pk in b.rows)
            && (pk in w.rows ==> Unsighted(w, a, b, pk, if full && IsOpen(w.rows[pk]) then 1 else 0))
  {
    var r := Run(cfg, w, ss, run, now, full, true);
    RehearsalKeeps(cfg, w, ss, run, now, full);
    RehearsedRow(cfg, w, ss, run, now, full, pk);
    StepAllFrame(cfg, w, ss, run', now', false, pk);
    StepAllFrame(cfg, r, ss, run', now', false, pk);
  }

  lemma RunsAreParallel(cfg: Config, w: World, ss: seq<Sighting>, run: RunId, now: Seconds, full: bool,
      run': RunId, now': Seconds)
    requires Inv(w) && forall pk :: pk in w.rows ==> w.rows[pk].lastSeen < run
    ensures var r := Run(cfg, w, ss, run, now, full, true);
            Parallel(w, ss, full, run', StepAll(cfg, w, ss, run', now', false), StepAll(cfg, r, ss, run', now', false))
  {
    var r := Run(cfg, w, ss, run, now, full, true);
    forall pk | InBatch(ss, pk)
      ensures var a, b := StepAll(cfg, w, ss, run', now', false), StepAll(cfg, r, ss, run', now', false);
              pk in a.rows && !Missed(a.rows[pk], run') && pk in b.rows && !Missed(b.rows[pk], run')
    {
      BatchIsStamped(cfg, w, ss, run', now', false, pk);
      BatchIsStamped(cfg, r, ss, run', now', false, pk);
    }
    forall pk | !InBatch(ss, pk)
      ensures var a, b := StepAll(cfg, w, ss, run', now', false), StepAll(cfg, r, ss, run', now', false);
              && (pk in w.rows <==> pk in a.rows) && (pk in w.rows <==> pk in b.rows)
              && (pk in w.rows ==> Unsighted(w, a, b, pk, if full && IsOpen(w.rows[pk]) then 1 else 0))
    {
      ParallelRow(cfg, w, ss, run, now, full, run', now', pk);
    }
  }

  // ---------------------------------------------------------------- the two purge passes side by side

  /** The purge pass marks the issue `k`. */
  predicate Marks(cfg: Config, w: World, run: RunId, now: Seconds, k: Key) {
    && k in w.site.issues
    && var pk := w.site.issues[k].pk;
       pk in w.rows && w.rows[pk].issueKey == Some(k) && GoesStale(cfg, w, pk, run, now)
  }

  lemma PurgeMarks(cfg: Config, w: World, run: RunId, now: Seconds, k: Key)
    requires k in w.site.issues
    ensures var site := Purge(cfg, w, run, now, false).site;
            && k in site.issues
            && site.issues[k] ==
               if Marks(cfg, w, run, now, k) then MarkStale(cfg, w.site.issues[k]) else w.site.issues[k]
  {
  }

  /** A marked issue belongs to a row the batch does not sight, so both sides have the same issue there. */
  lemma MarkedIsUnsighted(cfg: Config, w: World, ss: seq<Sighting>, full: bool, run: RunId, now: Seconds, a: World,
      b: World, k: Key)
    requires Inv(w) && Inv(a) && Inv(b) && Parallel(w, ss, full, run, a, b)
    requires Marks(cfg, a, run, now, k) || Marks(cfg, b, run, now, k)
    ensures k in w.site.issues && Lookup(a.site.issues, k) == Lookup(w.site.issues, k) == Lookup(b.site.issues, k)
    ensures w.site.issues[k].pk in w.rows && !InBatch(ss, w.site.issues[k].pk)
    ensures w.rows[w.site.issues[k].pk].issueKey == Some(k)
  {
    var pk := if Marks(cfg, a, run, now, k) then a.site.issues[k].pk else b.site.issues[k].pk;
    assert !InBatch(ss, pk);
    assert Unsighted(w, a, b, pk, if full && IsOpen(w.rows[pk]) then 1 else 0);
  }

  /** If the purge passes end with the same site, they started with the same site. */
  lemma PurgeHidesNothing(cfg: Config, w: World, ss: seq<Sighting>, full: bool, run: RunId, now: Seconds, a: World,
      b: World)
    requires Inv(w) && Inv(a) && Inv(b) && Parallel(w, ss, full, run, a, b)
    requires Purge(cfg, a, run, now, false).site == Purge(cfg, b, run, now, false).site
    ensures a.site == b.site
  {
    forall k | k in a.site.issues
      ensures k in b.site.issues && a.site.issues[k] == b.site.issues[k]
    {
      assert k in Purge(cfg, a, run, now, false).site.issues;
      PurgeMarks(cfg, a, run, now, k);
      PurgeMarks(cfg, b, run, now, k);
      if Marks(cfg, a, run, now, k) || Marks(cfg, b, run, now, k) {
        MarkedIsUnsighted(cfg, w, ss, full, run, now, a, b, k);
      }
    }
    assert a.site.issues.Keys == Purge(cfg, a, run, now, false).site.issues.Keys;
    assert b.site.issues.Keys == Purge(cfg, b, run, now, false).site.issues.Keys;
    assert a.site.issues == b.site.issues;
  }

  /** The two passes differ at an issue exactly when its row is hastened. */
  lemma DifferExactlyWhenHastened(cfg: Config, w: World, ss: seq<Sighting>, full: bool, run: RunId, now: Seconds,
      a: World, b: World, pk: Pk)
    requires Inv(w) && Inv(a) && Inv(b) && Parallel(w, ss, full, run, a, b) && a.site == b.site
    requires pk in w.rows && !InBatch(ss, pk) && w.rows[pk].issueKey.Some? && w.rows[pk].lastSeen < run
    ensures var k := w.rows[pk].issueKey.value;
            Lookup(Purge(cfg, a, run, now, false).site.issues, k) ==
            Lookup(Purge(cfg, b, run, now, false).site.issues, k) <==>
            !(full && Hastened(cfg, w, pk))
  {
    var k, m := w.rows[pk].issueKey.value, if full && IsOpen(w.rows[pk]) then 1 else 0;
    assert Unsighted(w, a, b, pk, m);
    assert k in w.site.issues && w.site.issues[k].pk == pk;
    assert k in a.site.issues && a.site.issues[k] == w.site.issues[k];
    PurgeMarks(cfg, a, run, now, k);
    PurgeMarks(cfg, b, run, now, k);
    OneMissMore(cfg, a, b, pk, m, run, now);
    MarkedExactlyWhen(cfg, w.site.issues[k]);
  }

  lemma SameWithoutHastening(cfg: Config, w: World, ss: seq<Sighting>, full: bool, run: RunId, now: Seconds,
      a: World, b: World)
    requires Inv(w) && Inv(a) && Inv(b) && Parallel(w, ss, full, run, a, b) && a.site == b.site
    requires forall pk :: pk in w.rows ==> w.rows[pk].lastSeen < run
    requires full ==> NothingHastened(cfg, w, ss)
    ensures Purge(cfg, a, run, now, false).site == Purge(cfg, b, run, now, false).site
  {
    var x, y := Purge(cfg, a, run, now, false).site, Purge(cfg, b, run, now, false).site;
    forall k | k in a.site.issues
      ensures k in x.issues && k in y.issues && x.issues[k] == y.issues[k]
    {
      PurgeMarks(cfg, a, run, now, k);
      PurgeMarks(cfg, b, run, now, k);
      if Marks(cfg, a, run, now, k) || Marks(cfg, b, run, now, k) {
        MarkedIsUnsighted(cfg, w, ss, full, run, now, a, b, k);
        DifferExactlyWhenHastened(cfg, w, ss, full, run, now, a, b, w.site.issues[k].pk);
      }
    }
    assert x.issues.Keys == a.site.issues.Keys && y.issues.Keys == a.site.issues.Keys;
    assert x.issues == y.issues;
  }

  lemma SamePurgeExactlyWhen(cfg: Config, w: World, ss: seq<Sighting>, full: bool, run: RunId, now: Seconds,
      a: World, b: World)
    requires Inv(w) && Inv(a) && Inv(b) && Parallel(w, ss, full, run, a, b) && a.site == b.site
    requires forall pk :: pk in w.rows ==> w.rows[pk].lastSeen < run
    ensures Purge(cfg, a, run, now, false).site == Purge(cfg, b, run, now, false).site <==>
            (full ==> NothingHastened(cfg, w, ss))
  {
    if full ==> NothingHastened(cfg, w, ss) {
      SameWithoutHastening(cfg, w, ss, full, run, now, a, b);
    } else {
      var pk :| pk in w.rows && !InBatch(ss, pk) && Hastened(cfg, w, pk);
      DifferExactlyWhenHastened(cfg, w, ss, full, run, now, a, b, pk);
    }
  }

  lemma RehearsedBatchRows(cfg: Config, w: World, ss: seq<Sighting>, run: RunId, now: Seconds, full: bool)
    requires Inv(w) && DistinctPks(ss)
    ensures var r := Run(cfg, w, ss, run, now, full, true);
            forall i :: 0 <= i < |ss| ==> Lookup(r.rows, ss[i].pk) == Some(NextRow(cfg, w, ss[i], run, now, true))
  {
    var v := StepAll(cfg, w, ss, run, now, true);
    forall i | 0 <= i < |ss|
      ensures Lookup(Run(cfg, w, ss, run, now, full, true).rows, ss[i].pk) ==
              Some(NextRow(cfg, w, ss[i], run, now, true))
    {
      BatchRow(cfg, w, ss, run, now, i);
      assert v.rows[ss[i].pk].lastSeen == run;
    }
  }

  /**
    A rehearsal in either mode is free of consequences for what a real run in either mode makes of Jira, exactly
    when no sighting of the batch was due a PUT that changes fields and, if both runs are full, no row it does
    not sight is one miss short of going stale at the real run.
   */
  lemma DryRunBeforeRealRun(cfg: Config, w: World, ss: seq<Sighting>, run: RunId, now: Seconds, full: bool,
      run': RunId, now': Seconds, full': bool)
    requires Inv(w) && DistinctPks(ss)
    requires run < run' && forall pk :: pk in w.rows ==> w.rows[pk].lastSeen < run
    ensures var rehearsed := Run(cfg, w, ss, run, now, full, true);
            Run(cfg, rehearsed, ss, run', now', full', false).site ==
            Run(cfg, w, ss, run', now', full', false).site <==>
            NothingLost(cfg, w, ss) && (full && full' ==> NothingHastened(cfg, w, ss))
  {
    var r := Run(cfg, w, ss, run, now, full, true);
    var a, b := StepAll(cfg, w, ss, run', now', false), StepAll(cfg, r, ss, run', now', false);
    RehearsalKeeps(cfg, w, ss, run, now, full);
    RehearsedBatchRows(cfg, w, ss, run, now, full);
    DryThenReal(cfg, w, r, ss, run, now, run', now');
    if full' {
      StepAllKeepsInv(cfg, w, ss, run', now', false);
      StepAllKeepsInv(cfg, r, ss, run', now', false);
      RunsAreParallel(cfg, w, ss, run, now, full, run', now');
      if a.site == b.site {
        SamePurgeExactlyWhen(cfg, w, ss, full, run', now', a, b);
      } else if Purge(cfg, a, run', now', false).site == Purge(cfg, b, run', now', false).site {
        PurgeHidesNothing(cfg, w, ss, full, run', now', a, b);
      }
    }
  }

  lemma TallyTwice(cfg: Config, w: World, s: Sighting, run: RunId, now: Seconds, dry: bool)
    ensures TallyAll(cfg, w, ZERO_COUNTS, [s, s], run, now, dry) ==
            Tally(Tally(ZERO_COUNTS, DecideIn(cfg, w, s)), DecideIn(cfg, Step(cfg, w, s, run, now, dry), s))
  {
    var c, w' := Tally(ZERO_COUNTS, DecideIn(cfg, w, s)), Step(cfg, w, s, run, now, dry);
    assert [s, s][1..] == [s] && [s][1..] == [];
    assert TallyAll(cfg, w', c, [s], run, now, dry) == Tally(c, DecideIn(cfg, w', s));
  }

  /** A decision that a real sighting settles and a dry one leaves to be taken again. */
  predicate TakenAgain(dec: Decision) {
    dec.Materialise? || dec.CloseFixed? || dec.Return?
  }

  /** What it can be followed by, once settled. */
  predicate Settling(dec: Decision) {
    dec.NoteFixed? || dec.Telemetry? || dec.HoldSticky? || dec.Drift?
  }

  /** The counter of a decision of this kind. */
  function CounterOf(c: Counts, dec: Decision): nat
    requires TakenAgain(dec)
  {
    if dec.Materialise? then c.created else if dec.CloseFixed? then c.closedFixed else c.reopened
  }

  /** The decision on the stamped row, by what the writes made of the resolution. */
  lemma DecideAgain(cfg: Config, row: Option<Row>, res: Option<string>, s: Sighting, run: RunId, now: Seconds,
      key: Option<Key>, res': Option<string>)
    requires row.Some? ==> ClosureOk(row.value)
    requires Decide(cfg, row, res, s).Materialise? <==> key.Some?
    requires !TakenAgain(Decide(cfg, row, res, s)) ==> res' == res
    ensures var dec := Decide(cfg, row, res, s);
            var again := Decide(cfg, Some(Seen(Bookkeep(cfg, row, dec, now, false), s, run, key)), res', s);
            if TakenAgain(dec) then Settling(again)
            else again == if dec == Put then Telemetry else dec
  {
  }

  lemma AgainReal(cfg: Config, w: World, s: Sighting, run: RunId, now: Seconds)
    requires Inv(w)
    ensures var dec, again := DecideIn(cfg, w, s), DecideIn(cfg, Step(cfg, w, s, run, now, false), s);
            if TakenAgain(dec) then Settling(again)
            else again == if dec == Put then Telemetry else dec
  {
    var u, row, dec := Step(cfg, w, s, run, now, false), Lookup(w.rows, s.pk), DecideIn(cfg, w, s);
    StepSite(cfg, w, s, run, now);
    WritesTouchTheTargetOnly(cfg, w, s, |Writes(cfg, w, s)|);
    DecideAgain(cfg, row, RowResolution(w.site, row), s, run, now,
      if dec.Materialise? then Some(Target(w, s)) else None,
      RowResolution(u.site, Lookup(u.rows, s.pk)));
  }

  lemma BumpKeepsStale(c: Counts, dec: Decision)
    ensures Bump(c, dec).markedStale == c.markedStale
  {
  }

  /** A decision to be taken again counts twice in the dry run and once in the real one. */
  lemma CountedTwice(dec: Decision, again: Decision)
    requires TakenAgain(dec) && Settling(again)
    ensures var once := Tally(ZERO_COUNTS, dec);
            CounterOf(Tally(once, dec), dec) == 2 && CounterOf(Tally(once, again), dec) == 1
  {
    var once := Tally(ZERO_COUNTS, dec);
    assert CounterOf(once, dec) == 1;
    match again {
      case NoteFixed =>
      case Telemetry =>
      case HoldSticky(_) =>
      case Drift =>
    }
  }

  /** Two tallies in a row: the second decision differs between the runs exactly when the first is to be taken again. */
  lemma TwoTallies(dec: Decision, dry: Decision, real_: Decision)
    requires dry == if dec == Put then Telemetry else dec
    requires if TakenAgain(dec) then Settling(real_) else real_ == dry
    ensures var once := Tally(ZERO_COUNTS, dec);
            && (Tally(once, dry) == Tally(once, real_) <==> !TakenAgain(dec))
            && (TakenAgain(dec) ==> CounterOf(Tally(once, dry), dec) == 2 && CounterOf(Tally(once, real_), dec) == 1)
            && Tally(once, dry).markedStale == 0 == Tally(once, real_).markedStale
  {
    var once := Tally(ZERO_COUNTS, dec);
    var twice := once.(evaluated := once.evaluated + 1);
    BumpKeepsStale(ZERO_COUNTS.(evaluated := 1), dec);
    BumpKeepsStale(twice, dry);
    BumpKeepsStale(twice, real_);
    if TakenAgain(dec) {
      CountedTwice(dec, real_);
    }
  }

  /**
    Distinct keys are needed for equal counters: with a sighting listed twice they agree exactly when it settles
    nothing.
   */
  lemma DuplicatesBreakFidelity(cfg: Config, w: World, s: Sighting, run: RunId, now: Seconds, full: bool)
    requires Inv(w)
    ensures var dry := RunCounts(cfg, w, [s, s], run, now, full, true);
            var real_ := RunCounts(cfg, w, [s, s], run, now, full, false);
            var dec := DecideIn(cfg, w, s);
            && (dry == real_ <==> !TakenAgain(dec))
            && (TakenAgain(dec) ==> CounterOf(dry, dec) == 2 && CounterOf(real_, dec) == 1)
  {
    TallyTwice(cfg, w, s, run, now, true);
    TallyTwice(cfg, w, s, run, now, false);
    SameStaleSet(cfg, w, [s, s], run, now);
    DryStepHidesExactlyPuts(cfg, w, s, run, now);
    AgainReal(cfg, w, s, run, now);
    TwoTallies(DecideIn(cfg, w, s), DecideIn(cfg, Step(cfg, w, s, run, now, true), s),
      DecideIn(cfg, Step(cfg, w, s, run, now, false), s));
    SameButStale(TallyAll(cfg, w, ZERO_COUNTS, [s, s], run, now, true),
      TallyAll(cfg, w, ZERO_COUNTS, [s, s], run, now, false),
      |StaleSet(cfg, StepAll(cfg, w, [s, s], run, now, true), run, now)|);
  }

  lemma SameButStale(c: Counts, d: Counts, stale: nat)
    requires c.markedStale == d.markedStale
    ensures c.(markedStale := stale) == d.(markedStale := stale) <==> c == d
  {
  }
}
