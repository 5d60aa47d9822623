/** A run that died anywhere before its purge pass committed, followed by a complete one, is as good as one run. */
module CrashRecovery {
  import opened Wrappers
  import opened Store
  import opened Lifecycle
  import opened Invariants
  import DryRun

  // ---------------------------------------------------------------- what is compared

  function Timeless(t: Option<Seconds>): Option<Seconds> {
    if t.Some? then Some(0) else None
  }

  /** A row without run ids, clock readings and the two columns that only mirror Jira. */
  function BareRow(row: Row): Row {
    row.(firstSeen := 0, lastSeen := 0, sticky := false, jiraResolution := None,
         closedAt := Timeless(row.closedAt), purgedAt := Timeless(row.purgedAt))
  }

  function BareIssue(issue: Issue): Issue {
    issue.(notes := [])
  }

  /** Same rows and same issues, run ids, clock readings and comments aside. */
  ghost predicate Alike(v: World, w: World) {
    && v.rows.Keys == w.rows.Keys
    && (forall pk :: pk in v.rows ==> BareRow(v.rows[pk]) == BareRow(w.rows[pk]))
    && v.site.issues.Keys == w.site.issues.Keys
    && (forall k :: k in v.site.issues ==> BareIssue(v.site.issues[k]) == BareIssue(w.site.issues[k]))
    && v.site.next == w.site.next
  }

  lemma AlikeTransitive(u: World, v: World, w: World)
    requires Alike(u, v) && Alike(v, w)
    ensures Alike(u, w)
  {
  }

  lemma AlikeFind(v: World, w: World, pk: Pk)
    requires Alike(v, w) && SiteOk(v.site) && SiteOk(w.site)
    ensures Find(v.site, pk) == Find(w.site, pk)
  {
    forall k | k in v.site.issues
      ensures v.site.issues[k].pk == w.site.issues[k].pk
    {
      assert BareIssue(v.site.issues[k]).pk == BareIssue(w.site.issues[k]).pk;
    }
    SameFind(v.site, w.site, pk);
  }

  /** Nothing of a row that is read is left out of the comparison, but its stamp. */
  lemma BareRowTells(a: Row, b: Row)
    requires BareRow(a) == BareRow(b)
    ensures a.issueKey == b.issueKey && a.misses == b.misses && a.tracking == b.tracking
    ensures a.lastScanned == b.lastScanned
    ensures a.closedAt.Some? == b.closedAt.Some? && a.closedReason == b.closedReason
    ensures a.purgedAt.Some? == b.purgedAt.Some?
    ensures a.materialHash == b.materialHash && a.qualysStatus == b.qualysStatus
  {
    assert BareRow(a).issueKey == a.issueKey && BareRow(a).misses == a.misses && BareRow(a).tracking == a.tracking;
    assert BareRow(a).lastScanned == a.lastScanned && BareRow(a).closedReason == a.closedReason;
    assert BareRow(a).materialHash == a.materialHash && BareRow(a).qualysStatus == a.qualysStatus;
    assert BareRow(a).closedAt.Some? == a.closedAt.Some? && BareRow(a).purgedAt.Some? == a.purgedAt.Some?;
  }

  lemma AlikeResolution(v: World, w: World, k: Key)
    requires Alike(v, w)
    ensures ResolutionOf(v.site, k) == ResolutionOf(w.site, k)
  {
    if k in v.site.issues {
      assert BareIssue(v.site.issues[k]).resolution == BareIssue(w.site.issues[k]).resolution;
    }
  }

  /** What a decision reads of a row. */
  lemma DecideReads(cfg: Config, a: Row, b: Row, res: Option<string>, s: Sighting)
    requires a.issueKey == b.issueKey && a.closedAt.Some? == b.closedAt.Some? && a.closedReason == b.closedReason
    requires a.materialHash == b.materialHash
    ensures Decide(cfg, Some(a), res, s) == Decide(cfg, Some(b), res, s)
  {
  }

  /** Nothing a decision reads is left out of the comparison. */
  lemma AlikeDecision(cfg: Config, v: World, w: World, s: Sighting)
    requires Alike(v, w)
    ensures DecideIn(cfg, v, s) == DecideIn(cfg, w, s)
  {
    if s.pk in v.rows {
      var row, row' := v.rows[s.pk], w.rows[s.pk];
      BareRowTells(row, row');
      if row.issueKey.Some? {
        AlikeResolution(v, w, row.issueKey.value);
      }
      DecideReads(cfg, row, row', RowResolution(v.site, Some(row)), s);
    }
  }

  predicate AlikeIssues(i: Option<Issue>, j: Option<Issue>) {
    if i.None? || j.None? then i == j else BareIssue(i.value) == BareIssue(j.value)
  }

  /** Two sites that differ from alike sites at one alike issue are alike. */
  lemma AlikeAfterChange(v: World, w: World, v': World, w': World, k: Key, pk: Pk)
    requires Alike(v, w)
    requires v'.site.next == w'.site.next
    requires forall j :: j != k ==> Lookup(v'.site.issues, j) == Lookup(v.site.issues, j)
    requires forall j :: j != k ==> Lookup(w'.site.issues, j) == Lookup(w.site.issues, j)
    requires AlikeIssues(Lookup(v'.site.issues, k), Lookup(w'.site.issues, k))
    requires forall p :: p != pk ==> Lookup(v'.rows, p) == Lookup(v.rows, p)
    requires forall p :: p != pk ==> Lookup(w'.rows, p) == Lookup(w.rows, p)
    requires pk in v'.rows && pk in w'.rows && BareRow(v'.rows[pk]) == BareRow(w'.rows[pk])
    ensures Alike(v', w')
  {
    forall j
      ensures j in v'.site.issues <==> j in w'.site.issues
      ensures j in v'.site.issues ==> BareIssue(v'.site.issues[j]) == BareIssue(w'.site.issues[j])
    {
      assert j != k ==> Lookup(v'.site.issues, j) == Lookup(v.site.issues, j);
      assert j != k ==> Lookup(w'.site.issues, j) == Lookup(w.site.issues, j);
    }
    forall p
      ensures p in v'.rows <==> p in w'.rows
      ensures p in v'.rows ==> BareRow(v'.rows[p]) == BareRow(w'.rows[p])
    {
      assert p != pk ==> Lookup(v'.rows, p) == Lookup(v.rows, p);
      assert p != pk ==> Lookup(w'.rows, p) == Lookup(w.rows, p);
    }
  }

  lemma TargetAlike(cfg: Config, i: Option<Issue>, j: Option<Issue>, dec: Decision, s: Sighting, n: nat)
    requires AlikeIssues(i, j)
    ensures AlikeIssues(TargetAfter(cfg, i, dec, s, n), TargetAfter(cfg, j, dec, s, n))
  {
    if i.Some? {
      assert BareIssue(i.value).fields == i.value.fields && BareIssue(i.value).resolution == i.value.resolution;
      assert BareIssue(i.value).closed == i.value.closed && BareIssue(i.value).pk == i.value.pk;
    }
  }

  /** A committed real step in terms of its target. */
  lemma StepIs(cfg: Config, w: World, s: Sighting, run: RunId, now: Seconds)
    requires Inv(w)
    ensures var w', k := Step(cfg, w, s, run, now, false), Target(w, s);
            var was, now_ := Lookup(w.site.issues, k), Lookup(w'.site.issues, k);
            && w'.site == SiteAfter(cfg, w, s, |Writes(cfg, w, s)|)
            && now_ == TargetAfter(cfg, was, DecideIn(cfg, w, s), s, |Writes(cfg, w, s)|)
            && (forall j :: j != k ==> Lookup(w'.site.issues, j) == Lookup(w.site.issues, j))
            && (forall p :: p != s.pk ==> Lookup(w'.rows, p) == Lookup(w.rows, p))
            && w'.site.next == if was.None? && now_.Some? then w.site.next + 1 else w.site.next
  {
    TargetFacts(cfg, w, s, |Writes(cfg, w, s)|);
    WritesTouchTheTargetOnly(cfg, w, s, |Writes(cfg, w, s)|);
    StepSite(cfg, w, s, run, now);
  }

  lemma AlikeTarget(v: World, w: World, s: Sighting)
    requires Inv(v) && Inv(w) && Alike(v, w)
    ensures Target(v, s) == Target(w, s)
    ensures AlikeIssues(Lookup(v.site.issues, Target(v, s)), Lookup(w.site.issues, Target(v, s)))
  {
    AlikeFind(v, w, s.pk);
    if s.pk in v.rows {
      assert BareRow(v.rows[s.pk]).issueKey == BareRow(w.rows[s.pk]).issueKey;
    }
  }

  /** The same complete sighting on alike worlds ends alike. */
  lemma StepAlike(cfg: Config, v: World, w: World, s: Sighting, run: RunId, now: Seconds, run': RunId, now': Seconds)
    requires Inv(v) && Inv(w) && Alike(v, w)
    ensures Alike(Step(cfg, v, s, run, now, false), Step(cfg, w, s, run', now', false))
  {
    var v', w', k := Step(cfg, v, s, run, now, false), Step(cfg, w, s, run', now', false), Target(v, s);
    SameWrites(cfg, v, w, s);
    AlikeTarget(v, w, s);
    StepIs(cfg, v, s, run, now);
    StepIs(cfg, w, s, run', now');
    TargetAlike(cfg, Lookup(v.site.issues, k), Lookup(w.site.issues, k), DecideIn(cfg, v, s), s, |Writes(cfg, v, s)|);
    assert BareRow(v'.rows[s.pk]) == BareRow(w'.rows[s.pk]) by {
      if s.pk in v.rows {
        assert BareRow(v.rows[s.pk]) == BareRow(w.rows[s.pk]);
      }
      RowsAlike(cfg, v, w, s, run, now, run', now');
    }
    AlikeAfterChange(v, w, v', w', k, s.pk);
  }

  function WriteCount(dec: Decision, adopts: bool): nat {
    match dec
    case CloseFixed => 2
    case Return => 3
    case Materialise => if adopts then 1 else 2
    case Put => 1
    case _ => 0
  }

  lemma WritesAreCounted(cfg: Config, w: World, s: Sighting)
    ensures |Writes(cfg, w, s)| == WriteCount(DecideIn(cfg, w, s), Find(w.site, s.pk).Some?)
  {
  }

  lemma SameWrites(cfg: Config, v: World, w: World, s: Sighting)
    requires Inv(v) && Inv(w) && Alike(v, w)
    ensures DecideIn(cfg, v, s) == DecideIn(cfg, w, s) && |Writes(cfg, v, s)| == |Writes(cfg, w, s)|
  {
    AlikeDecision(cfg, v, w, s);
    AlikeFind(v, w, s.pk);
    WritesAreCounted(cfg, v, s);
    WritesAreCounted(cfg, w, s);
  }

  lemma RowsAlike(cfg: Config, v: World, w: World, s: Sighting, run: RunId, now: Seconds, run': RunId, now': Seconds)
    requires DecideIn(cfg, v, s) == DecideIn(cfg, w, s) && Target(v, s) == Target(w, s)
    requires s.pk in v.rows <==> s.pk in w.rows
    requires s.pk in v.rows ==> BareRow(v.rows[s.pk]) == BareRow(w.rows[s.pk])
    ensures BareRow(NextRow(cfg, v, s, run, now, false)) == BareRow(NextRow(cfg, w, s, run', now', false))
  {
  }

  // ---------------------------------------------------------------- a sighting repeated

  /** The row already carries what `s` would stamp, and `s` asks nothing of Jira. */
  ghost predicate Quiet(cfg: Config, w: World, s: Sighting) {
    && Inv(w)
    && Writes(cfg, w, s) == []
    && s.pk in w.rows
    && BareRow(Seen(Some(w.rows[s.pk]), s, 0, None)) == BareRow(w.rows[s.pk])
  }

  lemma QuietStep(cfg: Config, w: World, s: Sighting, run: RunId, now: Seconds)
    requires Quiet(cfg, w, s)
    ensures Alike(Step(cfg, w, s, run, now, false), w)
  {
    var w' := Step(cfg, w, s, run, now, false);
    assert w'.site == w.site;
  }

  predicate WritesNothing(dec: Decision) {
    !dec.CloseFixed? && !dec.Return? && !dec.Materialise? && !dec.Put?
  }

  /** After a branch has been carried out, the same sighting takes a branch that writes nothing. */
  lemma SettledDecision(cfg: Config, row: Option<Row>, res: Option<string>, s: Sighting, run: RunId, now: Seconds,
      key: Option<Key>, res': Option<string>)
    requires row.Some? ==> ClosureOk(row.value)
    requires var dec := Decide(cfg, row, res, s);
             && (dec.Materialise? <==> key.Some?)
             && (WritesNothing(dec) || dec.Put? ==> res' == res)
             && (dec.Return? ==> res' == if cfg.reopenClears then None else res)
    ensures var row' := Seen(Bookkeep(cfg, row, Decide(cfg, row, res, s), now, false), s, run, key);
            WritesNothing(Decide(cfg, Some(row'), res', s))
  {
  }

  /** Stamping a row twice with the same sighting stamps nothing new. */
  lemma StampedTwice(row: Option<Row>, s: Sighting, run: RunId, key: Option<Key>)
    ensures var once := Seen(row, s, run, key);
            BareRow(Seen(Some(once), s, 0, None)) == BareRow(once)
  {
  }

  lemma StepSettles(cfg: Config, w: World, s: Sighting, run: RunId, now: Seconds)
    requires Inv(w)
    ensures WritesNothing(DecideIn(cfg, Step(cfg, w, s, run, now, false), s))
  {
    var w' := Step(cfg, w, s, run, now, false);
    var row, dec := Lookup(w.rows, s.pk), DecideIn(cfg, w, s);
    StepIs(cfg, w, s, run, now);
    TargetFacts(cfg, w, s, |Writes(cfg, w, s)|);
    NextRowFacts(cfg, w, s, run, now, false);
    SettledDecision(cfg, row, RowResolution(w.site, row), s, run, now,
      if dec.Materialise? then Some(Target(w, s)) else None, RowResolution(w'.site, Lookup(w'.rows, s.pk)));
  }

  lemma StepMakesQuiet(cfg: Config, w: World, s: Sighting, run: RunId, now: Seconds)
    requires Inv(w)
    ensures Quiet(cfg, Step(cfg, w, s, run, now, false), s)
  {
    var dec := DecideIn(cfg, w, s);
    StepKeepsInv(cfg, w, s, run, now, false);
    StepSettles(cfg, w, s, run, now);
    StampedTwice(Bookkeep(cfg, Lookup(w.rows, s.pk), dec, now, false), s, run,
      if dec.Materialise? then Some(Target(w, s)) else None);
  }

  lemma QuietFrame(cfg: Config, v: World, w: World, s: Sighting)
    requires Quiet(cfg, v, s) && Inv(w) && SameCell(v, w, s.pk)
    ensures Quiet(cfg, w, s)
  {
    DryRun.SameCellSameDecision(cfg, v, w, s);
  }

  lemma QuietAlike(cfg: Config, v: World, w: World, s: Sighting)
    requires Quiet(cfg, v, s) && Inv(w) && Alike(v, w)
    ensures Quiet(cfg, w, s)
  {
    AlikeDecision(cfg, v, w, s);
    assert BareRow(v.rows[s.pk]) == BareRow(w.rows[s.pk]);
  }

  /**
    The transition that set the fixed resolution made the issue sticky, so the repeated sighting leaves the row
    open.
   */
  ghost predicate ShutOut(cfg: Config, w: World, s: Sighting, n: nat) {
    DecideIn(cfg, w, s) == CloseFixed && n >= 1 && cfg.resolutionFixed in cfg.stickyResolutions
  }

  lemma CatchesUp(cfg: Config, w: World, s: Sighting, n: nat, run: RunId, now: Seconds, run': RunId, now': Seconds)
    requires Inv(w) && n <= |Writes(cfg, w, s)| && !ShutOut(cfg, w, s, n)
    ensures Alike(Step(cfg, CutStep(cfg, w, s, n), s, run', now', false), Step(cfg, w, s, run, now, false))
  {
    var v, k := CutStep(cfg, w, s, n), Target(w, s);
    var v', w' := Step(cfg, v, s, run', now', false), Step(cfg, w, s, run, now, false);
    CutIs(cfg, w, s, n);
    SameDecisionAfterCut(cfg, w, s, n);
    StepIs(cfg, w, s, run, now);
    StepIs(cfg, v, s, run', now');
    RowsAlike(cfg, v, w, s, run', now', run, now);
    TargetTwice(cfg, Lookup(w.site.issues, k), DecideIn(cfg, w, s), s, n, |Writes(cfg, v, s)|, |Writes(cfg, w, s)|);
    assert v'.site.next == w'.site.next by {
      TargetFacts(cfg, w, s, n);
    }
    AlikeAfterChange(w, w, v', w', k, s.pk);
  }

  /** Shut out, the row stays open, though its issue is closed. */
  lemma StaysShutOut(cfg: Config, w: World, s: Sighting, n: nat, run: RunId, now: Seconds, run': RunId, now': Seconds)
    requires Inv(w) && n <= |Writes(cfg, w, s)| && ShutOut(cfg, w, s, n)
    ensures var v', w' := Step(cfg, CutStep(cfg, w, s, n), s, run', now', false), Step(cfg, w, s, run, now, false);
            v'.rows[s.pk].closedAt.None? && w'.rows[s.pk].closedAt.Some?
  {
    CutIs(cfg, w, s, n);
    assert DecideIn(cfg, CutStep(cfg, w, s, n), s).HoldSticky?;
  }

  /**
    A sighting cut short after any number of its Jira writes and then repeated ends like one that was not,
    exactly when its own writes did not make the issue sticky.
   */
  lemma RepeatAfterCut(cfg: Config, w: World, s: Sighting, n: nat, run: RunId, now: Seconds, run': RunId, now': Seconds)
    requires Inv(w) && n <= |Writes(cfg, w, s)|
    ensures Alike(Step(cfg, CutStep(cfg, w, s, n), s, run', now', false), Step(cfg, w, s, run, now, false)) <==>
            !ShutOut(cfg, w, s, n)
  {
    if ShutOut(cfg, w, s, n) {
      StaysShutOut(cfg, w, s, n, run, now, run', now');
      NotAlike(Step(cfg, CutStep(cfg, w, s, n), s, run', now', false), Step(cfg, w, s, run, now, false), s.pk);
    } else {
      CatchesUp(cfg, w, s, n, run, now, run', now');
    }
  }

  lemma NotAlike(v: World, w: World, pk: Pk)
    requires pk in v.rows && pk in w.rows && v.rows[pk].closedAt.None? && w.rows[pk].closedAt.Some?
    ensures !Alike(v, w)
  {
    assert BareRow(v.rows[pk]).closedAt != BareRow(w.rows[pk]).closedAt;
  }

  lemma CutIs(cfg: Config, w: World, s: Sighting, n: nat)
    requires Inv(w) && n <= |Writes(cfg, w, s)|
    ensures var v, k := CutStep(cfg, w, s, n), Target(w, s);
            var was, now_ := Lookup(w.site.issues, k), Lookup(v.site.issues, k);
            && Inv(v)
            && now_ == TargetAfter(cfg, was, DecideIn(cfg, w, s), s, n)
            && (forall j :: j != k ==> Lookup(v.site.issues, j) == Lookup(w.site.issues, j))
            && v.site.next == if was.None? && now_.Some? then w.site.next + 1 else w.site.next
  {
    TargetFacts(cfg, w, s, n);
    CutStepKeepsInv(cfg, w, s, n);
    WritesTouchTheTargetOnly(cfg, w, s, n);
  }

  lemma SameDecisionAfterCut(cfg: Config, w: World, s: Sighting, n: nat)
    requires Inv(w) && n <= |Writes(cfg, w, s)| && !ShutOut(cfg, w, s, n)
    ensures var v := CutStep(cfg, w, s, n);
            && DecideIn(cfg, v, s) == DecideIn(cfg, w, s)
            && Target(v, s) == Target(w, s)
            && (!DecideIn(cfg, w, s).Materialise? ==> |Writes(cfg, v, s)| == |Writes(cfg, w, s)|)
  {
    var v, k := CutStep(cfg, w, s, n), Target(w, s);
    WritesTouchTheTargetOnly(cfg, w, s, n);
    CutStepKeepsInv(cfg, w, s, n);
    TargetFacts(cfg, w, s, n);
    if k in v.site.issues {
      FindIs(v.site, s.pk, k);
    }
  }

  lemma TargetTwice(cfg: Config, i: Option<Issue>, dec: Decision, s: Sighting, n: nat, again: nat, full: nat)
    requires dec.CloseFixed? ==> full == again == 2
    requires dec.Return? ==> full == again == 3
    requires dec.Put? ==> full == again == 1
    requires dec.Materialise? ==> 1 <= full && 1 <= again && n <= full
    ensures var twice := TargetAfter(cfg, TargetAfter(cfg, i, dec, s, n), dec, s, again);
            AlikeIssues(twice, TargetAfter(cfg, i, dec, s, full))
  {
  }

  // ---------------------------------------------------------------- batches

  lemma {:induction false} StepAllAlike(cfg: Config, v: World, w: World, ss: seq<Sighting>, run: RunId,
      now: Seconds, run': RunId, now': Seconds)
    requires Inv(v) && Inv(w) && Alike(v, w)
    ensures Alike(StepAll(cfg, v, ss, run, now, false), StepAll(cfg, w, ss, run', now', false))
    decreases |ss|
  {
    if ss != [] {
      StepAlike(cfg, v, w, ss[0], run, now, run', now');
      StepKeepsInv(cfg, v, ss[0], run, now, false);
      StepKeepsInv(cfg, w, ss[0], run', now', false);
      var v', w' := Step(cfg, v, ss[0], run, now, false), Step(cfg, w, ss[0], run', now', false);
      StepAllAlike(cfg, v', w', ss[1..], run, now, run', now');
    }
  }

  lemma {:induction false} StepAllSplit(cfg: Config, w: World, ss: seq<Sighting>, j: nat, run: RunId, now: Seconds,
      dry: bool)
    requires j <= |ss|
    ensures StepAll(cfg, w, ss, run, now, dry) ==
            StepAll(cfg, StepAll(cfg, w, ss[..j], run, now, dry), ss[j..], run, now, dry)
    decreases j
  {
    if j == 0 {
      assert ss[0..] == ss;
    } else {
      assert ss[..j][0] == ss[0] && ss[..j][1..] == ss[1..][..j - 1] && ss[1..][j - 1..] == ss[j..];
      StepAllSplit(cfg, Step(cfg, w, ss[0], run, now, dry), ss[1..], j - 1, run, now, dry);
    }
  }

  /** A batch of distinct keys, once processed, is quiet. */
  lemma {:induction false} BatchMakesQuiet(cfg: Config, w: World, ss: seq<Sighting>, run: RunId, now: Seconds, i: nat)
    requires Inv(w) && DistinctPks(ss) && i < |ss|
    ensures Quiet(cfg, StepAll(cfg, w, ss, run, now, false), ss[i])
    decreases |ss|
  {
    var w' := Step(cfg, w, ss[0], run, now, false);
    StepKeepsInv(cfg, w, ss[0], run, now, false);
    if i == 0 {
      assert !InBatch(ss[1..], ss[0].pk);
      StepMakesQuiet(cfg, w, ss[0], run, now);
      StepAllFrame(cfg, w', ss[1..], run, now, false, ss[0].pk);
      StepAllKeepsInv(cfg, w', ss[1..], run, now, false);
      QuietFrame(cfg, w', StepAll(cfg, w, ss, run, now, false), ss[0]);
    } else {
      BatchMakesQuiet(cfg, w', ss[1..], run, now, i - 1);
    }
  }

  /** Processing quiet sightings once more makes no Jira write and changes nothing that is compared. */
  lemma {:induction false} QuietBatch(cfg: Config, w: World, ss: seq<Sighting>, run: RunId, now: Seconds)
    requires Inv(w) && forall i :: 0 <= i < |ss| ==> Quiet(cfg, w, ss[i])
    ensures var w' := StepAll(cfg, w, ss, run, now, false);
            Alike(w', w) && w'.site == w.site
    decreases |ss|
  {
    if ss != [] {
      var w' := Step(cfg, w, ss[0], run, now, false);
      assert Quiet(cfg, w, ss[0]);
      QuietStep(cfg, w, ss[0], run, now);
      StepKeepsInv(cfg, w, ss[0], run, now, false);
      forall i | 0 <= i < |ss[1..]|
        ensures Quiet(cfg, w', ss[1..][i])
      {
        assert Quiet(cfg, w, ss[i + 1]);
        QuietAlike(cfg, w, w', ss[i + 1]);
      }
      QuietBatch(cfg, w', ss[1..], run, now);
    }
  }

  // ---------------------------------------------------------------- the purge pass

  ghost predicate SameStamps(v: World, run: RunId, w: World, run': RunId) {
    forall pk :: pk in v.rows && pk in w.rows ==> (v.rows[pk].lastSeen < run <==> w.rows[pk].lastSeen < run')
  }

  lemma PurgeVerdictAlike(cfg: Config, v: World, w: World, run: RunId, run': RunId, now: Seconds, pk: Pk)
    requires Alike(v, w) && SameStamps(v, run, w, run') && pk in v.rows
    ensures Missed(v.rows[pk], run) == Missed(w.rows[pk], run') && v.rows[pk].issueKey == w.rows[pk].issueKey
    ensures v.rows[pk].issueKey.Some? ==>
              ResolutionOf(v.site, v.rows[pk].issueKey.value) == ResolutionOf(w.site, v.rows[pk].issueKey.value)
    ensures GoesStale(cfg, v, pk, run, now) == GoesStale(cfg, w, pk, run', now)
  {
    var a, b := v.rows[pk], w.rows[pk];
    BareRowTells(a, b);
    if a.issueKey.Some? && a.issueKey.value in v.site.issues {
      var k := a.issueKey.value;
      assert BareIssue(v.site.issues[k]).resolution == BareIssue(w.site.issues[k]).resolution;
    }
  }

  lemma PurgeRowAlike(cfg: Config, v: World, w: World, run: RunId, run': RunId, now: Seconds, pk: Pk)
    requires Alike(v, w) && SameStamps(v, run, w, run') && pk in v.rows
    ensures BareRow(PurgedRow(cfg, v, pk, run, now, false)) == BareRow(PurgedRow(cfg, w, pk, run', now, false))
    ensures GoesStale(cfg, v, pk, run, now) == GoesStale(cfg, w, pk, run', now)
  {
    var a, b := v.rows[pk], w.rows[pk];
    PurgeVerdictAlike(cfg, v, w, run, run', now, pk);
    BareRowTells(a, b);
    assert BareRow(a) == BareRow(b);
    var a', b' := a.(misses := a.misses + 1), b.(misses := b.misses + 1);
    assert BareRow(a') == BareRow(b') by {
      assert BareRow(a') == BareRow(a).(misses := a.misses + 1);
      assert BareRow(b') == BareRow(b).(misses := b.misses + 1);
    }
    ClosedAlike(a', b', cfg.resolutionStale, now);
    StickyAlike(a', b');
  }

  lemma ClosedAlike(a: Row, b: Row, resolution: string, now: Seconds)
    requires BareRow(a) == BareRow(b)
    ensures BareRow(CloseRow(a, Purged, resolution, now)) == BareRow(CloseRow(b, Purged, resolution, now))
  {
    BareRowTells(a, b);
    assert BareRow(CloseRow(a, Purged, resolution, now)) ==
           BareRow(a).(closedAt := Some(0), closedReason := Some(Purged), purgedAt := Some(0));
    assert BareRow(CloseRow(b, Purged, resolution, now)) ==
           BareRow(b).(closedAt := Some(0), closedReason := Some(Purged), purgedAt := Some(0));
  }

  lemma StickyAlike(a: Row, b: Row)
    requires BareRow(a) == BareRow(b)
    ensures forall r: Option<string> :: BareRow(a.(sticky := true, jiraResolution := r)) == BareRow(b)
    ensures forall r: Option<string> :: BareRow(b.(sticky := true, jiraResolution := r)) == BareRow(a)
  {
  }

  lemma PurgeAlike(cfg: Config, v: World, w: World, run: RunId, run': RunId, now: Seconds)
    requires Alike(v, w) && SameStamps(v, run, w, run')
    ensures Alike(Purge(cfg, v, run, now, false), Purge(cfg, w, run', now, false))
  {
    forall pk | pk in v.rows
      ensures BareRow(PurgedRow(cfg, v, pk, run, now, false)) == BareRow(PurgedRow(cfg, w, pk, run', now, false))
      ensures pk in StaleSet(cfg, v, run, now) <==> pk in StaleSet(cfg, w, run', now)
    {
      PurgeRowAlike(cfg, v, w, run, run', now, pk);
    }
    assert StaleSet(cfg, v, run, now) == StaleSet(cfg, w, run', now);
    forall k | k in v.site.issues
      ensures OwnedBy(v, k, StaleSet(cfg, v, run, now)) == OwnedBy(w, k, StaleSet(cfg, v, run, now))
      ensures BareIssue(v.site.issues[k]).fields == v.site.issues[k].fields == w.site.issues[k].fields
    {
      assert BareIssue(v.site.issues[k]) == BareIssue(w.site.issues[k]);
      var pk := v.site.issues[k].pk;
      assert pk == BareIssue(v.site.issues[k]).pk == w.site.issues[k].pk;
      assert pk in v.rows ==> BareRow(v.rows[pk]).issueKey == BareRow(w.rows[pk]).issueKey;
    }
  }

  /** Issues already closed as stale have become sticky, so the repeated pass leaves their rows open. */
  predicate PurgeShutOut(cfg: Config, closing: set<Pk>) {
    closing != {} && cfg.resolutionStale in cfg.stickyResolutions
  }

  lemma CutPurgeRow(cfg: Config, w: World, closing: set<Pk>, labelling: set<Pk>, run: RunId, now: Seconds, pk: Pk)
    requires Inv(w) && !PurgeShutOut(cfg, closing)
    requires labelling <= closing <= StaleSet(cfg, w, run, now) && pk in w.rows
    ensures var v := CutPurge(cfg, w, closing, labelling);
            && GoesStale(cfg, v, pk, run, now) == GoesStale(cfg, w, pk, run, now)
            && PurgedRow(cfg, v, pk, run, now, false) == PurgedRow(cfg, w, pk, run, now, false)
  {
    if w.rows[pk].issueKey.Some? {
      CutResolution(cfg, w, closing, labelling, pk);
      assert pk in closing ==> GoesStale(cfg, w, pk, run, now);
    }
  }

  lemma CutResolution(cfg: Config, w: World, closing: set<Pk>, labelling: set<Pk>, pk: Pk)
    requires Inv(w) && pk in w.rows && w.rows[pk].issueKey.Some?
    ensures ResolutionOf(CutPurge(cfg, w, closing, labelling).site, w.rows[pk].issueKey.value) ==
            if pk in closing then Some(cfg.resolutionStale) else ResolutionOf(w.site, w.rows[pk].issueKey.value)
  {
  }

  lemma CutPurgeIssue(cfg: Config, w: World, closing: set<Pk>, labelling: set<Pk>, stale: set<Pk>, k: Key)
    requires labelling <= closing <= stale && k in w.site.issues
    ensures var v := CutPurge(cfg, w, closing, labelling);
            PurgedSite(cfg, v, stale, stale).issues[k] == PurgedSite(cfg, w, stale, stale).issues[k]
  {
    LabelsOnce(cfg, w.site.issues[k].fields.labels);
  }

  lemma PurgeCatchesUp(cfg: Config, w: World, closing: set<Pk>, labelling: set<Pk>, run: RunId, now: Seconds)
    requires Inv(w) && !PurgeShutOut(cfg, closing)
    requires labelling <= closing <= StaleSet(cfg, w, run, now)
    ensures Purge(cfg, CutPurge(cfg, w, closing, labelling), run, now, false) == Purge(cfg, w, run, now, false)
  {
    var v, stale := CutPurge(cfg, w, closing, labelling), StaleSet(cfg, w, run, now);
    forall pk | pk in w.rows
      ensures GoesStale(cfg, v, pk, run, now) == GoesStale(cfg, w, pk, run, now)
      ensures PurgedRow(cfg, v, pk, run, now, false) == PurgedRow(cfg, w, pk, run, now, false)
    {
      CutPurgeRow(cfg, w, closing, labelling, run, now, pk);
    }
    assert StaleSet(cfg, v, run, now) == stale;
    forall k | k in w.site.issues
      ensures PurgedSite(cfg, v, stale, stale).issues[k] == PurgedSite(cfg, w, stale, stale).issues[k]
    {
      CutPurgeIssue(cfg, w, closing, labelling, stale, k);
    }
    SameIssueMaps(PurgedSite(cfg, v, stale, stale).issues, PurgedSite(cfg, w, stale, stale).issues);
    var a, b := Purge(cfg, v, run, now, false), Purge(cfg, w, run, now, false);
    assert a.rows == b.rows;
  }

  /** Shut out, a row stays open, though its issue is closed. */
  lemma PurgeStaysShutOut(cfg: Config, w: World, closing: set<Pk>, labelling: set<Pk>, run: RunId, now: Seconds, pk: Pk)
    requires Inv(w) && closing <= StaleSet(cfg, w, run, now) && pk in closing && PurgeShutOut(cfg, closing)
    ensures pk in w.rows && PurgedRow(cfg, w, pk, run, now, false).closedAt.Some?
    ensures PurgedRow(cfg, CutPurge(cfg, w, closing, labelling), pk, run, now, false).closedAt.None?
  {
    assert GoesStale(cfg, w, pk, run, now);
    CutResolution(cfg, w, closing, labelling, pk);
  }

  /**
    A purge pass that died and is repeated ends exactly where one that did not die ends, exactly when the
    writes it made did not make issues sticky.
   */
  lemma RepeatAfterCutPurge(cfg: Config, w: World, closing: set<Pk>, labelling: set<Pk>, run: RunId, now: Seconds)
    requires Inv(w) && labelling <= closing <= StaleSet(cfg, w, run, now)
    ensures Purge(cfg, CutPurge(cfg, w, closing, labelling), run, now, false) == Purge(cfg, w, run, now, false) <==>
            !PurgeShutOut(cfg, closing)
  {
    if PurgeShutOut(cfg, closing) {
      var v := CutPurge(cfg, w, closing, labelling);
      var p :| p in closing;
      PurgeStaysShutOut(cfg, w, closing, labelling, run, now, p);
      assert Purge(cfg, v, run, now, false).rows[p] != Purge(cfg, w, run, now, false).rows[p];
    } else {
      PurgeCatchesUp(cfg, w, closing, labelling, run, now);
    }
  }

  lemma SameIssueMaps(m: map<Key, Issue>, n: map<Key, Issue>)
    requires m.Keys == n.Keys && forall k :: k in m ==> m[k] == n[k]
    ensures m == n
  {
  }

  lemma LabelsOnce(cfg: Config, labels: seq<string>)
    ensures StaleLabels(cfg, StaleLabels(cfg, labels)) == StaleLabels(cfg, labels)
  {
    var once := WithLabel(labels, cfg.managedLabel);
    assert cfg.managedLabel in once;
    assert cfg.managedLabel in WithLabel(once, cfg.staleLabel) && cfg.staleLabel in WithLabel(once, cfg.staleLabel);
  }

  // ---------------------------------------------------------------- crash, then re-run

  /** Where a real run died: at a sighting after some of its writes, after the last sighting, or in the purge pass. */
  datatype CrashPoint =
    | AtSighting(j: nat, n: nat)
    | AfterSightings
    | InPurge(closing: set<Pk>, labelling: set<Pk>)

  ghost predicate CrashOk(cfg: Config, w: World, ss: seq<Sighting>, run: RunId, now: Seconds, full: bool,
      c: CrashPoint) {
    match c
    case AtSighting(j, n) => j < |ss| && n <= |Writes(cfg, StepAll(cfg, w, ss[..j], run, now, false), ss[j])|
    case AfterSightings => true
    case InPurge(closing, labelling) =>
      full && labelling <= closing <= StaleSet(cfg, StepAll(cfg, w, ss, run, now, false), run, now)
  }

  ghost function Crashed(cfg: Config, w: World, ss: seq<Sighting>, run: RunId, now: Seconds, full: bool,
      c: CrashPoint): World
    requires CrashOk(cfg, w, ss, run, now, full, c)
  {
    match c
    case AtSighting(j, n) => CutStep(cfg, StepAll(cfg, w, ss[..j], run, now, false), ss[j], n)
    case AfterSightings => StepAll(cfg, w, ss, run, now, false)
    case InPurge(closing, labelling) => CutPurge(cfg, StepAll(cfg, w, ss, run, now, false), closing, labelling)
  }

  lemma PrefixIsDistinct(ss: seq<Sighting>, j: nat)
    requires DistinctPks(ss) && j <= |ss|
    ensures DistinctPks(ss[..j]) && DistinctPks(ss[j..])
    ensures j < |ss| ==> !InBatch(ss[..j], ss[j].pk)
  {
  }

  /** The sighting phase: a re-run after a crash at sighting `j` catches up with the run that did not crash. */
  lemma SightingsCatchUp(cfg: Config, w: World, ss: seq<Sighting>, run: RunId, run': RunId, now: Seconds, j: nat,
      n: nat)
    requires Inv(w) && DistinctPks(ss) && CrashOk(cfg, w, ss, run, now, false, AtSighting(j, n))
    requires !ShutOut(cfg, StepAll(cfg, w, ss[..j], run, now, false), ss[j], n)
    ensures var v := CutStep(cfg, StepAll(cfg, w, ss[..j], run, now, false), ss[j], n);
            Alike(StepAll(cfg, v, ss, run', now, false), StepAll(cfg, w, ss, run, now, false))
  {
    var u := StepAll(cfg, w, ss[..j], run, now, false);
    var v := CutStep(cfg, u, ss[j], n);
    PrefixIsDistinct(ss, j);
    StepAllKeepsInv(cfg, w, ss[..j], run, now, false);
    CutStepKeepsInv(cfg, u, ss[j], n);
    forall i | 0 <= i < |ss[..j]|
      ensures Quiet(cfg, v, ss[..j][i])
    {
      BatchMakesQuiet(cfg, w, ss[..j], run, now, i);
      CutStepFrame(cfg, u, ss[j], n, ss[i].pk);
      QuietFrame(cfg, u, v, ss[i]);
    }
    QuietBatch(cfg, v, ss[..j], run', now);
    var v' := StepAll(cfg, v, ss[..j], run', now, false);
    StepAllKeepsInv(cfg, v, ss[..j], run', now, false);
    StepAllSplit(cfg, v, ss, j, run', now, false);
    StepAllSplit(cfg, w, ss, j, run, now, false);
    StepAllAlike(cfg, v', v, ss[j..], run', now, run', now);
    CatchesUp(cfg, u, ss[j], n, run, now, run', now);
    StepKeepsInv(cfg, v, ss[j], run', now, false);
    StepKeepsInv(cfg, u, ss[j], run, now, false);
    StepAllAlike(cfg, Step(cfg, v, ss[j], run', now, false), Step(cfg, u, ss[j], run, now, false), ss[j..][1..],
      run', now, run, now);
  }

  /** All sightings of a finished sighting phase stay quiet through a purge pass, committed or cut short. */
  lemma PurgeKeepsQuiet(cfg: Config, w: World, ss: seq<Sighting>, run: RunId, now: Seconds, closing: set<Pk>,
      labelling: set<Pk>, i: nat)
    requires Inv(w) && DistinctPks(ss) && i < |ss|
    requires var u := StepAll(cfg, w, ss, run, now, false);
             labelling <= closing <= StaleSet(cfg, u, run, now)
    ensures var u := StepAll(cfg, w, ss, run, now, false);
            && Quiet(cfg, CutPurge(cfg, u, closing, labelling), ss[i])
            && Quiet(cfg, Purge(cfg, u, run, now, false), ss[i])
  {
    var u := StepAll(cfg, w, ss, run, now, false);
    StepAllKeepsInv(cfg, w, ss, run, now, false);
    BatchMakesQuiet(cfg, w, ss, run, now, i);
    assert InBatch(ss, ss[i].pk);
    DryRun.BatchIsStamped(cfg, w, ss, run, now, false, ss[i].pk);
    UnmissedCell(cfg, u, run, now, closing, labelling, ss[i].pk);
    CutPurgeKeepsInv(cfg, u, closing, labelling);
    PurgeKeepsInv(cfg, u, run, now, false);
    QuietFrame(cfg, u, CutPurge(cfg, u, closing, labelling), ss[i]);
    QuietFrame(cfg, u, Purge(cfg, u, run, now, false), ss[i]);
  }

  /** The purge pass leaves the cell of a row it does not miss alone. */
  lemma UnmissedCell(cfg: Config, w: World, run: RunId, now: Seconds, closing: set<Pk>, labelling: set<Pk>, pk: Pk)
    requires Inv(w) && pk in w.rows && !Missed(w.rows[pk], run)
    requires labelling <= closing <= StaleSet(cfg, w, run, now)
    ensures SameCell(w, CutPurge(cfg, w, closing, labelling), pk)
    ensures SameCell(w, Purge(cfg, w, run, now, false), pk)
  {
    assert pk !in StaleSet(cfg, w, run, now);
    CutPurgeKeepsInv(cfg, w, closing, labelling);
    PurgeKeepsInv(cfg, w, run, now, false);
    SameFind(w.site, CutPurge(cfg, w, closing, labelling).site, pk);
    SameFind(w.site, Purge(cfg, w, run, now, false).site, pk);
  }

  lemma StampsAfterSightings(cfg: Config, v: World, w: World, ss: seq<Sighting>, run: RunId, run': RunId, now: Seconds)
    requires Inv(v) && Inv(w)
    requires forall pk :: pk in w.rows ==> w.rows[pk].lastSeen < run
    requires forall pk :: pk in v.rows ==> v.rows[pk].lastSeen < run'
    ensures SameStamps(StepAll(cfg, v, ss, run', now, false), run', StepAll(cfg, w, ss, run, now, false), run)
  {
    forall pk
      ensures var a, b := StepAll(cfg, v, ss, run', now, false), StepAll(cfg, w, ss, run, now, false);
              pk in a.rows && pk in b.rows ==> (a.rows[pk].lastSeen < run' <==> b.rows[pk].lastSeen < run)
    {
      if InBatch(ss, pk) {
        DryRun.BatchIsStamped(cfg, v, ss, run', now, false, pk);
        DryRun.BatchIsStamped(cfg, w, ss, run, now, false, pk);
      } else {
        StepAllFrame(cfg, v, ss, run', now, false, pk);
        StepAllFrame(cfg, w, ss, run, now, false, pk);
      }
    }
  }

  lemma {:induction false} StampsBelow(cfg: Config, w: World, ss: seq<Sighting>, run: RunId, now: Seconds,
      dry: bool, bound: RunId)
    requires run < bound && forall pk :: pk in w.rows ==> w.rows[pk].lastSeen < bound
    ensures forall pk :: pk in StepAll(cfg, w, ss, run, now, dry).rows ==>
              StepAll(cfg, w, ss, run, now, dry).rows[pk].lastSeen < bound
    decreases |ss|
  {
    if ss != [] {
      StampsBelow(cfg, Step(cfg, w, ss[0], run, now, dry), ss[1..], run, now, dry, bound);
    }
  }

  /** The writes made before the crash did not make sticky what the re-run would have to close. */
  ghost predicate Recoverable(cfg: Config, w: World, ss: seq<Sighting>, run: RunId, now: Seconds, full: bool,
      c: CrashPoint)
    requires CrashOk(cfg, w, ss, run, now, full, c)
  {
    match c
    case AtSighting(j, n) => !ShutOut(cfg, StepAll(cfg, w, ss[..j], run, now, false), ss[j], n)
    case AfterSightings => true
    case InPurge(closing, labelling) => !PurgeShutOut(cfg, closing)
  }

  lemma NothingCut(cfg: Config, w: World)
    ensures CutPurge(cfg, w, {}, {}) == w
  {
    assert PurgedSite(cfg, w, {}, {}).issues == w.site.issues;
  }

  lemma RerunFromSighting(cfg: Config, w: World, ss: seq<Sighting>, run: RunId, run': RunId, now: Seconds, j: nat,
      n: nat)
    requires Inv(w) && DistinctPks(ss) && CrashOk(cfg, w, ss, run, now, false, AtSighting(j, n))
    requires run < run' && forall pk :: pk in w.rows ==> w.rows[pk].lastSeen < run
    requires !ShutOut(cfg, StepAll(cfg, w, ss[..j], run, now, false), ss[j], n)
    ensures var u := StepAll(cfg, w, ss, run, now, false);
            var v := CutStep(cfg, StepAll(cfg, w, ss[..j], run, now, false), ss[j], n);
            var again := StepAll(cfg, v, ss, run', now, false);
            Alike(again, u) && Alike(Purge(cfg, again, run', now, false), Purge(cfg, u, run, now, false))
  {
    var mid := StepAll(cfg, w, ss[..j], run, now, false);
    var v := CutStep(cfg, mid, ss[j], n);
    StepAllKeepsInv(cfg, w, ss[..j], run, now, false);
    CutStepKeepsInv(cfg, mid, ss[j], n);
    SightingsCatchUp(cfg, w, ss, run, run', now, j, n);
    StampsBelow(cfg, w, ss[..j], run, now, false, run');
    StampsAfterSightings(cfg, v, w, ss, run, run', now);
    PurgeAlike(cfg, StepAll(cfg, v, ss, run', now, false), StepAll(cfg, w, ss, run, now, false), run', run, now);
  }

  lemma Recovers(cfg: Config, w: World, ss: seq<Sighting>, run: RunId, run': RunId, now: Seconds, full: bool,
      c: CrashPoint)
    requires Inv(w) && DistinctPks(ss) && CrashOk(cfg, w, ss, run, now, full, c)
    requires run < run' && forall pk :: pk in w.rows ==> w.rows[pk].lastSeen < run
    requires Recoverable(cfg, w, ss, run, now, full, c)
    ensures Alike(Run(cfg, Crashed(cfg, w, ss, run, now, full, c), ss, run', now, full, false),
                  Run(cfg, w, ss, run, now, full, false))
  {
    match c {
      case AtSighting(j, n) =>
        RerunFromSighting(cfg, w, ss, run, run', now, j, n);
      case AfterSightings =>
        var u := StepAll(cfg, w, ss, run, now, false);
        NothingCut(cfg, u);
        RerunFromEnd(cfg, w, ss, run, run', now, {}, {});
      case InPurge(closing, labelling) =>
        RerunFromEnd(cfg, w, ss, run, run', now, closing, labelling);
    }
  }

  /** A run leaves the row of its `j`th sighting as that sighting stamped it. */
  lemma RowAfterRun(cfg: Config, w: World, ss: seq<Sighting>, j: nat, run: RunId, now: Seconds, full: bool)
    requires Inv(w) && DistinctPks(ss) && j < |ss|
    ensures var mid := StepAll(cfg, w, ss[..j], run, now, false);
            Lookup(Run(cfg, w, ss, run, now, full, false).rows, ss[j].pk) ==
            Lookup(Step(cfg, mid, ss[j], run, now, false).rows, ss[j].pk)
  {
    var mid := StepAll(cfg, w, ss[..j], run, now, false);
    var next, rest := Step(cfg, mid, ss[j], run, now, false), ss[j..][1..];
    StepAllKeepsInv(cfg, w, ss[..j], run, now, false);
    StepKeepsInv(cfg, mid, ss[j], run, now, false);
    StepAllSplit(cfg, w, ss, j, run, now, false);
    assert !InBatch(rest, ss[j].pk);
    StepAllFrame(cfg, next, rest, run, now, false, ss[j].pk);
    assert StepAll(cfg, next, rest, run, now, false) == StepAll(cfg, w, ss, run, now, false);
    NextRowFacts(cfg, mid, ss[j], run, now, false);
  }

  // ---------------------------------------------------------------- rows that stay open for good

  /** How a row stands: open on a sticky issue it is held, and no run will close it. */
  datatype Standing = Unmapped | Shut | Held | Free

  function StandingOf(cfg: Config, w: World, pk: Pk): Standing {
    var row := Lookup(w.rows, pk);
    if row.None? || row.value.issueKey.None? then Unmapped
    else if row.value.closedAt.Some? then Shut
    else if IsSticky(cfg, ResolutionOf(w.site, row.value.issueKey.value)) then Held
    else Free
  }

  lemma HeldIsNotShut(cfg: Config, v: World, w: World, pk: Pk)
    requires StandingOf(cfg, v, pk) == Held && StandingOf(cfg, w, pk) == Shut
    ensures !Alike(v, w)
  {
    NotAlike(v, w, pk);
  }

  lemma HeldStep(cfg: Config, w: World, s: Sighting, n: nat, run: RunId, now: Seconds, pk: Pk)
    requires Inv(w) && StandingOf(cfg, w, pk) == Held && n <= |Writes(cfg, w, s)|
    ensures StandingOf(cfg, Step(cfg, w, s, run, now, false), pk) == Held
    ensures StandingOf(cfg, CutStep(cfg, w, s, n), pk) == Held
  {
    if s.pk == pk {
      assert DecideIn(cfg, w, s).HoldSticky?;
    } else {
      StepFrame(cfg, w, s, run, now, false, pk);
      CutStepFrame(cfg, w, s, n, pk);
    }
  }

  lemma {:induction false} HeldAll(cfg: Config, w: World, ss: seq<Sighting>, run: RunId, now: Seconds, pk: Pk)
    requires Inv(w) && StandingOf(cfg, w, pk) == Held
    ensures StandingOf(cfg, StepAll(cfg, w, ss, run, now, false), pk) == Held
    decreases |ss|
  {
    if ss != [] {
      HeldStep(cfg, w, ss[0], 0, run, now, pk);
      StepKeepsInv(cfg, w, ss[0], run, now, false);
      HeldAll(cfg, Step(cfg, w, ss[0], run, now, false), ss[1..], run, now, pk);
    }
  }

  lemma HeldPurge(cfg: Config, w: World, closing: set<Pk>, labelling: set<Pk>, run: RunId, now: Seconds, pk: Pk)
    requires Inv(w) && StandingOf(cfg, w, pk) == Held && labelling <= closing <= StaleSet(cfg, w, run, now)
    ensures StandingOf(cfg, Purge(cfg, w, run, now, false), pk) == Held
    ensures StandingOf(cfg, CutPurge(cfg, w, closing, labelling), pk) == Held
  {
    assert !GoesStale(cfg, w, pk, run, now);
  }

  lemma HeldRun(cfg: Config, w: World, ss: seq<Sighting>, run: RunId, now: Seconds, full: bool, pk: Pk)
    requires Inv(w) && StandingOf(cfg, w, pk) == Held
    ensures StandingOf(cfg, Run(cfg, w, ss, run, now, full, false), pk) == Held
  {
    HeldAll(cfg, w, ss, run, now, pk);
    StepAllKeepsInv(cfg, w, ss, run, now, false);
    HeldPurge(cfg, StepAll(cfg, w, ss, run, now, false), {}, {}, run, now, pk);
  }

  lemma HeldCrash(cfg: Config, w: World, ss: seq<Sighting>, run: RunId, now: Seconds, full: bool, c: CrashPoint, pk: Pk)
    requires Inv(w) && CrashOk(cfg, w, ss, run, now, full, c) && StandingOf(cfg, w, pk) == Held
    ensures StandingOf(cfg, Crashed(cfg, w, ss, run, now, full, c), pk) == Held
  {
    match c {
      case AtSighting(j, n) =>
        HeldAll(cfg, w, ss[..j], run, now, pk);
        StepAllKeepsInv(cfg, w, ss[..j], run, now, false);
        HeldStep(cfg, StepAll(cfg, w, ss[..j], run, now, false), ss[j], n, run, now, pk);
      case AfterSightings => HeldAll(cfg, w, ss, run, now, pk);
      case InPurge(closing, labelling) =>
        HeldAll(cfg, w, ss, run, now, pk);
        StepAllKeepsInv(cfg, w, ss, run, now, false);
        HeldPurge(cfg, StepAll(cfg, w, ss, run, now, false), closing, labelling, run, now, pk);
    }
  }

  lemma ShutOutIsHeld(cfg: Config, w: World, s: Sighting, n: nat)
    requires Inv(w) && n <= |Writes(cfg, w, s)| && ShutOut(cfg, w, s, n)
    ensures StandingOf(cfg, CutStep(cfg, w, s, n), s.pk) == Held
  {
    CutIs(cfg, w, s, n);
  }

  /** A crash that is not recoverable leaves a row stuck that the run would have closed. */
  lemma CrashHolds(cfg: Config, w: World, ss: seq<Sighting>, run: RunId, now: Seconds, full: bool,
      c: CrashPoint) returns (pk: Pk)
    requires Inv(w) && DistinctPks(ss) && CrashOk(cfg, w, ss, run, now, full, c)
    requires !Recoverable(cfg, w, ss, run, now, full, c)
    ensures StandingOf(cfg, Crashed(cfg, w, ss, run, now, full, c), pk) == Held
    ensures StandingOf(cfg, Run(cfg, w, ss, run, now, full, false), pk) == Shut
  {
    if c.AtSighting? {
      pk := ss[c.j].pk;
      var mid := StepAll(cfg, w, ss[..c.j], run, now, false);
      StepAllKeepsInv(cfg, w, ss[..c.j], run, now, false);
      ShutOutIsHeld(cfg, mid, ss[c.j], c.n);
      RowAfterRun(cfg, w, ss, c.j, run, now, full);
    } else {
      pk :| pk in c.closing;
      var u := StepAll(cfg, w, ss, run, now, false);
      StepAllKeepsInv(cfg, w, ss, run, now, false);
      assert GoesStale(cfg, u, pk, run, now);
      CutResolution(cfg, u, c.closing, c.labelling, pk);
    }
  }

  /**
    Crash recovery: a complete run over the same sightings leaves the same rows and issues as one run that did
    not die, exactly when the writes made before the crash did not make issues sticky that were to be closed.
   */
  lemma RerunAfterCrash(cfg: Config, w: World, ss: seq<Sighting>, run: RunId, run': RunId, now: Seconds, full: bool,
      c: CrashPoint)
    requires Inv(w) && DistinctPks(ss) && CrashOk(cfg, w, ss, run, now, full, c)
    requires run < run' && forall pk :: pk in w.rows ==> w.rows[pk].lastSeen < run
    ensures Alike(Run(cfg, Crashed(cfg, w, ss, run, now, full, c), ss, run', now, full, false),
                  Run(cfg, w, ss, run, now, full, false)) <==>
            Recoverable(cfg, w, ss, run, now, full, c)
  {
    var v := Crashed(cfg, w, ss, run, now, full, c);
    if Recoverable(cfg, w, ss, run, now, full, c) {
      Recovers(cfg, w, ss, run, run', now, full, c);
    } else {
      var pk := CrashHolds(cfg, w, ss, run, now, full, c);
      CrashedFacts(cfg, w, ss, run, now, full, c);
      HeldRun(cfg, v, ss, run', now, full, pk);
      HeldIsNotShut(cfg, Run(cfg, v, ss, run', now, full, false), Run(cfg, w, ss, run, now, full, false), pk);
    }
  }

  lemma RerunFromEnd(cfg: Config, w: World, ss: seq<Sighting>, run: RunId, run': RunId, now: Seconds,
      closing: set<Pk>, labelling: set<Pk>)
    requires Inv(w) && DistinctPks(ss)
    requires run < run' && forall pk :: pk in w.rows ==> w.rows[pk].lastSeen < run
    requires labelling <= closing <= StaleSet(cfg, StepAll(cfg, w, ss, run, now, false), run, now)
    requires !PurgeShutOut(cfg, closing)
    ensures var u := StepAll(cfg, w, ss, run, now, false);
            var v := CutPurge(cfg, u, closing, labelling);
            && Alike(StepAll(cfg, v, ss, run', now, false), v)
            && Alike(Purge(cfg, StepAll(cfg, v, ss, run', now, false), run', now, false),
                     Purge(cfg, u, run, now, false))
  {
    var u := StepAll(cfg, w, ss, run, now, false);
    var v := CutPurge(cfg, u, closing, labelling);
    StepAllKeepsInv(cfg, w, ss, run, now, false);
    CutPurgeKeepsInv(cfg, u, closing, labelling);
    forall i | 0 <= i < |ss|
      ensures Quiet(cfg, v, ss[i])
    {
      PurgeKeepsQuiet(cfg, w, ss, run, now, closing, labelling, i);
    }
    QuietBatch(cfg, v, ss, run', now);
    StampsBelow(cfg, w, ss, run, now, false, run');
    StampsAfterSightings(cfg, v, w, ss, run, run', now);
    PurgeAlike(cfg, StepAll(cfg, v, ss, run', now, false), v, run', run, now);
    PurgeCatchesUp(cfg, u, closing, labelling, run, now);
  }

  /** Runs `run`, `run + 1`, … die one after another at the given points. */
  ghost predicate CrashesOk(cfg: Config, w: World, ss: seq<Sighting>, run: RunId, now: Seconds, full: bool,
      cs: seq<CrashPoint>)
    decreases |cs|
  {
    cs != [] ==>
      && CrashOk(cfg, w, ss, run, now, full, cs[0])
      && CrashesOk(cfg, Crashed(cfg, w, ss, run, now, full, cs[0]), ss, run + 1, now, full, cs[1..])
  }

  /** The crashed attempts, and then a complete run. */
  ghost function Finally(cfg: Config, w: World, ss: seq<Sighting>, run: RunId, now: Seconds, full: bool,
      cs: seq<CrashPoint>): World
    requires CrashesOk(cfg, w, ss, run, now, full, cs)
    decreases |cs|
  {
    if cs == [] then Run(cfg, w, ss, run, now, full, false)
    else Finally(cfg, Crashed(cfg, w, ss, run, now, full, cs[0]), ss, run + 1, now, full, cs[1..])
  }

  lemma CrashedFacts(cfg: Config, w: World, ss: seq<Sighting>, run: RunId, now: Seconds, full: bool, c: CrashPoint)
    requires Inv(w) && CrashOk(cfg, w, ss, run, now, full, c)
    requires forall pk :: pk in w.rows ==> w.rows[pk].lastSeen < run
    ensures var v := Crashed(cfg, w, ss, run, now, full, c);
            Inv(v) && forall pk :: pk in v.rows ==> v.rows[pk].lastSeen < run + 1
  {
    match c {
      case AtSighting(j, n) =>
        var mid := StepAll(cfg, w, ss[..j], run, now, false);
        StepAllKeepsInv(cfg, w, ss[..j], run, now, false);
        CutStepKeepsInv(cfg, mid, ss[j], n);
        StampsBelow(cfg, w, ss[..j], run, now, false, run + 1);
      case AfterSightings =>
        StepAllKeepsInv(cfg, w, ss, run, now, false);
        StampsBelow(cfg, w, ss, run, now, false, run + 1);
      case InPurge(closing, labelling) =>
        StepAllKeepsInv(cfg, w, ss, run, now, false);
        CutPurgeKeepsInv(cfg, StepAll(cfg, w, ss, run, now, false), closing, labelling);
        StampsBelow(cfg, w, ss, run, now, false, run + 1);
    }
  }

  ghost predicate AllRecoverable(cfg: Config, w: World, ss: seq<Sighting>, run: RunId, now: Seconds, full: bool,
      cs: seq<CrashPoint>)
    requires CrashesOk(cfg, w, ss, run, now, full, cs)
    decreases |cs|
  {
    cs != [] ==>
      && Recoverable(cfg, w, ss, run, now, full, cs[0])
      && AllRecoverable(cfg, Crashed(cfg, w, ss, run, now, full, cs[0]), ss, run + 1, now, full, cs[1..])
  }

  lemma {:induction false} HeldFinally(cfg: Config, w: World, ss: seq<Sighting>, run: RunId, now: Seconds,
      full: bool, cs: seq<CrashPoint>, pk: Pk)
    requires Inv(w) && CrashesOk(cfg, w, ss, run, now, full, cs) && StandingOf(cfg, w, pk) == Held
    requires forall p :: p in w.rows ==> w.rows[p].lastSeen < run
    ensures StandingOf(cfg, Finally(cfg, w, ss, run, now, full, cs), pk) == Held
    decreases |cs|
  {
    if cs == [] {
      HeldRun(cfg, w, ss, run, now, full, pk);
    } else {
      CrashedFacts(cfg, w, ss, run, now, full, cs[0]);
      HeldCrash(cfg, w, ss, run, now, full, cs[0], pk);
      HeldFinally(cfg, Crashed(cfg, w, ss, run, now, full, cs[0]), ss, run + 1, now, full, cs[1..], pk);
    }
  }

  lemma AlikeVia(u: World, v: World, w: World)
    requires Alike(v, w)
    ensures Alike(u, w) <==> Alike(u, v)
  {
    if Alike(u, v) {
      AlikeTransitive(u, v, w);
    }
    if Alike(u, w) {
      AlikeTransitive(u, w, v);
    }
  }

  /** After a first crash that is not recoverable, no later run catches up. */
  lemma SpoiledForGood(cfg: Config, w: World, ss: seq<Sighting>, run: RunId, now: Seconds, full: bool,
      cs: seq<CrashPoint>)
    requires Inv(w) && DistinctPks(ss) && cs != [] && CrashesOk(cfg, w, ss, run, now, full, cs)
    requires forall pk :: pk in w.rows ==> w.rows[pk].lastSeen < run
    requires !Recoverable(cfg, w, ss, run, now, full, cs[0])
    ensures !Alike(Finally(cfg, w, ss, run, now, full, cs), Run(cfg, w, ss, run, now, full, false))
  {
    var v := Crashed(cfg, w, ss, run, now, full, cs[0]);
    CrashedFacts(cfg, w, ss, run, now, full, cs[0]);
    var pk := CrashHolds(cfg, w, ss, run, now, full, cs[0]);
    HeldFinally(cfg, v, ss, run + 1, now, full, cs[1..], pk);
    HeldIsNotShut(cfg, Finally(cfg, w, ss, run, now, full, cs), Run(cfg, w, ss, run, now, full, false), pk);
  }

  /** The same over any number of crashed attempts: one that is not recoverable spoils all later runs. */
  lemma {:induction false} RerunAfterManyCrashes(cfg: Config, w: World, ss: seq<Sighting>, run: RunId, now: Seconds,
      full: bool, cs: seq<CrashPoint>)
    requires Inv(w) && DistinctPks(ss) && CrashesOk(cfg, w, ss, run, now, full, cs)
    requires forall pk :: pk in w.rows ==> w.rows[pk].lastSeen < run
    ensures Alike(Finally(cfg, w, ss, run, now, full, cs), Run(cfg, w, ss, run, now, full, false)) <==>
            AllRecoverable(cfg, w, ss, run, now, full, cs)
    decreases |cs|
  {
    if cs != [] {
      if Recoverable(cfg, w, ss, run, now, full, cs[0]) {
        var v := Crashed(cfg, w, ss, run, now, full, cs[0]);
        CrashedFacts(cfg, w, ss, run, now, full, cs[0]);
        Recovers(cfg, w, ss, run, run + 1, now, full, cs[0]);
        RerunAfterManyCrashes(cfg, v, ss, run + 1, now, full, cs[1..]);
        AlikeVia(Finally(cfg, w, ss, run, now, full, cs), Run(cfg, v, ss, run + 1, now, full, false),
          Run(cfg, w, ss, run, now, full, false));
      } else {
        SpoiledForGood(cfg, w, ss, run, now, full, cs);
      }
    }
  }

  // ---------------------------------------------------------------- re-run fixpoint

  /** A second real run over the same batch makes no Jira write for any sighting; only a purge pass can write. */
  lemma SecondRunWritesNothing(cfg: Config, w: World, ss: seq<Sighting>, run: RunId, run': RunId, now: Seconds,
      now': Seconds, full: bool, i: nat)
    requires Inv(w) && DistinctPks(ss) && i < |ss|
    ensures var once := Run(cfg, w, ss, run, now, full, false);
            && Writes(cfg, StepAll(cfg, once, ss[..i], run', now', false), ss[i]) == []
            && StepAll(cfg, once, ss, run', now', false).site == once.site
            && Run(cfg, once, ss, run', now', false, false).site == once.site
  {
    var u := StepAll(cfg, w, ss, run, now, false);
    var once := Run(cfg, w, ss, run, now, full, false);
    StepAllKeepsInv(cfg, w, ss, run, now, false);
    PurgeKeepsInv(cfg, u, run, now, false);
    forall j | 0 <= j < |ss|
      ensures Quiet(cfg, once, ss[j])
    {
      PurgeKeepsQuiet(cfg, w, ss, run, now, {}, {}, j);
      BatchMakesQuiet(cfg, w, ss, run, now, j);
    }
    QuietBatch(cfg, once, ss, run', now');
    PrefixIsDistinct(ss, i);
    StepAllKeepsInv(cfg, once, ss[..i], run', now', false);
    StepAllFrame(cfg, once, ss[..i], run', now', false, ss[i].pk);
    QuietFrame(cfg, once, StepAll(cfg, once, ss[..i], run', now', false), ss[i]);
  }

  /** In a full second run, an issue can only be changed by being closed as stale, and none of the batch is. */
  lemma SecondFullRunOnlyPurges(cfg: Config, w: World, ss: seq<Sighting>, run: RunId, run': RunId, now: Seconds,
      now': Seconds, k: Key)
    requires Inv(w) && DistinctPks(ss)
    requires k in Run(cfg, w, ss, run, now, true, false).site.issues
    ensures var once := Run(cfg, w, ss, run, now, true, false);
            var seen := StepAll(cfg, once, ss, run', now', false);
            var twice := Run(cfg, once, ss, run', now', true, false);
            && k in twice.site.issues
            && (twice.site.issues[k] != once.site.issues[k] ==>
                  && OwnedBy(seen, k, StaleSet(cfg, seen, run', now'))
                  && !InBatch(ss, once.site.issues[k].pk)
                  && twice.site.issues[k].resolution == Some(cfg.resolutionStale))
  {
    var once := Run(cfg, w, ss, run, now, true, false);
    var pk := once.site.issues[k].pk;
    if ss != [] {
      SecondRunWritesNothing(cfg, w, ss, run, run', now, now', true, 0);
    }
    if InBatch(ss, pk) {
      DryRun.BatchIsStamped(cfg, once, ss, run', now', false, pk);
    }
  }
}
