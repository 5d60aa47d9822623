/** What every step of every run keeps, and what a step leaves alone. */
module Invariants {
  import opened Wrappers
  import opened Store
  import opened Lifecycle

  /** Issue keys are below the next one, and no two issues carry the same primary key. */
  ghost predicate SiteOk(site: Site) {
    && (forall k :: k in site.issues ==> k < site.next)
    && (forall j, k :: j in site.issues && k in site.issues && site.issues[j].pk == site.issues[k].pk ==> j == k)
  }

  /** `closed_at`, `closed_reason` and `purged_at` agree. */
  predicate ClosureOk(row: Row) {
    && (row.closedAt.Some? <==> row.closedReason.Some?)
    && (row.purgedAt.Some? <==> row.closedReason == Some(Purged))
    && (row.closedAt.Some? ==> row.issueKey.Some?)
  }

  ghost predicate Inv(w: World) {
    && SiteOk(w.site)
    && (forall pk :: pk in w.rows ==> ClosureOk(w.rows[pk]))
    && (forall pk :: pk in w.rows && w.rows[pk].issueKey.Some? ==>
          && w.rows[pk].issueKey.value in w.site.issues
          && w.site.issues[w.rows[pk].issueKey.value].pk == pk)
  }

  lemma DistinctRowsNeverShareAnIssue(w: World, p: Pk, q: Pk)
    requires Inv(w)
    requires p in w.rows && q in w.rows && w.rows[p].issueKey.Some? && w.rows[p].issueKey == w.rows[q].issueKey
    ensures p == q
  {
  }

  lemma FindIs(site: Site, pk: Pk, k: Key)
    requires SiteOk(site) && k in site.issues && site.issues[k].pk == pk
    ensures Find(site, pk) == Some(k)
  {
  }

  // ---------------------------------------------------------------- one issue at a time

  /** What the first `n` writes of a sighting leave at its target. */
  function TargetAfter(cfg: Config, issue: Option<Issue>, dec: Decision, s: Sighting, n: nat): Option<Issue> {
    match dec
    case CloseFixed =>
      if issue.None? then None
      else
        var i := if n >= 1 then issue.value.(closed := true, resolution := Some(cfg.resolutionFixed)) else issue.value;
        Some(if n >= 2 then i.(notes := i.notes + [Closed]) else i)
    case Return =>
      if issue.None? then None
      else
        var i := issue.value;
        var i := if n >= 1 then i.(closed := false, resolution := if cfg.reopenClears then None else i.resolution)
            else i;
        var i := if n >= 2 then i.(fields := s.BuildFields()) else i;
        Some(if n >= 3 then i.(notes := i.notes + [Reopened]) else i)
    case Materialise =>
      if issue.Some? then
        Some(if n >= 1 then issue.value.(fields := s.BuildFields()) else issue.value)
      else if n == 0 then None
      else Some(Issue(s.pk, s.BuildFields(), false, None, if n >= 2 then [Opened] else []))
    case Put =>
      if issue.None? then None
      else Some(if n >= 1 then issue.value.(fields := s.BuildFields()) else issue.value)
    case _ => issue
  }

  /** Writes that all edit one issue of the site amount to one change of that issue. */
  lemma TwoEdits(cfg: Config, site: Site, a: Write, b: Write)
    requires !a.Create? && !b.Create? && a.key == b.key && a.key in site.issues
    ensures var i := Edit(cfg, Edit(cfg, site.issues[a.key], a), b);
            ApplyAll(cfg, site, [a, b]) == Site(site.issues[a.key := i], site.next)
  {
    var ws := [a, b];
    assert ws[..1] == [a] && [a][..0] == [];
    assert ApplyAll(cfg, site, [a]) == Apply(cfg, site, a);
    var i := Edit(cfg, site.issues[a.key], a);
    assert site.issues[a.key := i][a.key := Edit(cfg, i, b)] == site.issues[a.key := Edit(cfg, i, b)];
  }

  lemma ThreeEdits(cfg: Config, site: Site, a: Write, b: Write, c: Write)
    requires !a.Create? && !b.Create? && !c.Create? && a.key == b.key == c.key && a.key in site.issues
    ensures var i := Edit(cfg, Edit(cfg, Edit(cfg, site.issues[a.key], a), b), c);
            ApplyAll(cfg, site, [a, b, c]) == Site(site.issues[a.key := i], site.next)
  {
    var ws := [a, b, c];
    assert ws[..2] == [a, b];
    TwoEdits(cfg, site, a, b);
    var i := Edit(cfg, Edit(cfg, site.issues[a.key], a), b);
    assert site.issues[a.key := i][a.key := Edit(cfg, i, c)] == site.issues[a.key := Edit(cfg, i, c)];
  }

  lemma CreateThenComment(cfg: Config, site: Site, pk: Pk, fields: Fields)
    ensures ApplyAll(cfg, site, [Create(pk, fields), Comment(site.next, Opened)]) ==
            Site(site.issues[site.next := Issue(pk, fields, false, None, [Opened])], site.next + 1)
  {
    var a := Create(pk, fields);
    var ws := [a, Comment(site.next, Opened)];
    assert ws[..1] == [a] && [a][..0] == [];
    assert ApplyAll(cfg, site, [a]) == Apply(cfg, site, a);
    var i := Issue(pk, fields, false, None, []);
    assert Edit(cfg, i, ws[1]).notes == [Opened];
    assert site.issues[site.next := i][site.next := i.(notes := [Opened])] ==
        site.issues[site.next := i.(notes := [Opened])];
  }

  /** The first `n` writes of a sighting, as one change of the target. */
  ghost function SiteAfter(cfg: Config, w: World, s: Sighting, n: nat): Site {
    var k := Target(w, s);
    var was := Lookup(w.site.issues, k);
    var now_ := TargetAfter(cfg, was, DecideIn(cfg, w, s), s, n);
    Site(if now_.Some? then w.site.issues[k := now_.value] else w.site.issues,
         if was.None? && now_.Some? then w.site.next + 1 else w.site.next)
  }

  /** The writes of a sighting change its target and nothing else on the site. */
  lemma WritesTouchTheTargetOnly(cfg: Config, w: World, s: Sighting, n: nat)
    requires Inv(w) && n <= |Writes(cfg, w, s)|
    ensures CutStep(cfg, w, s, n).site == SiteAfter(cfg, w, s, n)
  {
    var ws := Writes(cfg, w, s);
    var k := Target(w, s);
    TargetFacts(cfg, w, s, n);
    if n == 0 {
      UnchangedTarget(cfg, w, s);
    } else if n == 1 {
      assert ws[..1] == [ws[0]] && [ws[0]][..0] == [];
      assert ApplyAll(cfg, w.site, ws[..1]) == Apply(cfg, w.site, ws[0]);
    } else if n == 2 {
      assert ws[..2] == [ws[0], ws[1]];
      if DecideIn(cfg, w, s) == Materialise {
        CreateThenComment(cfg, w.site, s.pk, s.BuildFields());
      } else {
        TwoEdits(cfg, w.site, ws[0], ws[1]);
      }
    } else {
      assert ws[..3] == [ws[0], ws[1], ws[2]];
      ThreeEdits(cfg, w.site, ws[0], ws[1], ws[2]);
    }
  }

  lemma UnchangedTarget(cfg: Config, w: World, s: Sighting)
    requires Inv(w)
    ensures SiteAfter(cfg, w, s, 0) == w.site
  {
    TargetFacts(cfg, w, s, 0);
    var k := Target(w, s);
    if k in w.site.issues {
      assert w.site.issues[k := w.site.issues[k]] == w.site.issues;
    }
  }

  lemma TargetFacts(cfg: Config, w: World, s: Sighting, n: nat)
    requires Inv(w)
    ensures var k := Target(w, s);
            var was := Lookup(w.site.issues, k);
            var now_ := TargetAfter(cfg, was, DecideIn(cfg, w, s), s, n);
            && (was.Some? ==> now_.Some? && was.value.pk == s.pk)
            && (now_.Some? ==> now_.value.pk == s.pk)
            && (was.None? ==> k == w.site.next && DecideIn(cfg, w, s) in {Materialise, Classify, SkipNew, NoteFixed})
            && (was.None? <==> Find(w.site, s.pk).None?)
  {
    var row := Lookup(w.rows, s.pk);
    if row.Some? && row.value.issueKey.Some? {
      FindIs(w.site, s.pk, row.value.issueKey.value);
    }
  }

  lemma StepSite(cfg: Config, w: World, s: Sighting, run: RunId, now: Seconds)
    ensures CutStep(cfg, w, s, |Writes(cfg, w, s)|).site == Step(cfg, w, s, run, now, false).site
  {
    var ws := Writes(cfg, w, s);
    assert ws[..|ws|] == ws;
  }

  // ---------------------------------------------------------------- invariants

  lemma CutStepKeepsInv(cfg: Config, w: World, s: Sighting, n: nat)
    requires Inv(w) && n <= |Writes(cfg, w, s)|
    ensures Inv(CutStep(cfg, w, s, n))
  {
    WritesTouchTheTargetOnly(cfg, w, s, n);
    TargetFacts(cfg, w, s, n);
  }

  lemma NextRowFacts(cfg: Config, w: World, s: Sighting, run: RunId, now: Seconds, dry: bool)
    requires Inv(w)
    ensures var row := NextRow(cfg, w, s, run, now, dry);
            var was := Lookup(w.rows, s.pk);
            && ClosureOk(row)
            && row.lastSeen == run && row.misses == 0
            && (row.issueKey.Some? ==> row.issueKey.value == Target(w, s))
            && (was.Some? && was.value.issueKey.Some? ==> row.issueKey == was.value.issueKey)
            && (row.issueKey.Some? && (was.None? || was.value.issueKey.None?) ==>
                  DecideIn(cfg, w, s) == Materialise && !dry)
  {
  }

  lemma StepKeepsInv(cfg: Config, w: World, s: Sighting, run: RunId, now: Seconds, dry: bool)
    requires Inv(w)
    ensures Inv(Step(cfg, w, s, run, now, dry))
  {
    NextRowFacts(cfg, w, s, run, now, dry);
    TargetFacts(cfg, w, s, |Writes(cfg, w, s)|);
    if !dry {
      CutStepKeepsInv(cfg, w, s, |Writes(cfg, w, s)|);
      WritesTouchTheTargetOnly(cfg, w, s, |Writes(cfg, w, s)|);
      StepSite(cfg, w, s, run, now);
    }
  }

  lemma PurgedSiteKeepsPks(cfg: Config, w: World, closing: set<Pk>, labelling: set<Pk>)
    ensures var site := PurgedSite(cfg, w, closing, labelling);
            && site.issues.Keys == w.site.issues.Keys && site.next == w.site.next
            && forall k :: k in site.issues ==> site.issues[k].pk == w.site.issues[k].pk
  {
  }

  lemma PurgedRowKeepsMapping(cfg: Config, w: World, pk: Pk, run: RunId, now: Seconds, dry: bool)
    requires pk in w.rows && ClosureOk(w.rows[pk])
    ensures var row := PurgedRow(cfg, w, pk, run, now, dry);
            ClosureOk(row) && row.issueKey == w.rows[pk].issueKey
  {
  }

  lemma PurgeKeepsInv(cfg: Config, w: World, run: RunId, now: Seconds, dry: bool)
    requires Inv(w)
    ensures Inv(Purge(cfg, w, run, now, dry))
  {
    var stale := if dry then {} else StaleSet(cfg, w, run, now);
    PurgedSiteKeepsPks(cfg, w, stale, stale);
    forall pk | pk in w.rows
      ensures ClosureOk(PurgedRow(cfg, w, pk, run, now, dry))
      ensures PurgedRow(cfg, w, pk, run, now, dry).issueKey == w.rows[pk].issueKey
    {
      PurgedRowKeepsMapping(cfg, w, pk, run, now, dry);
    }
    SameMapping(w, Purge(cfg, w, run, now, dry));
  }

  lemma SameMapping(w: World, w': World)
    requires Inv(w) && w'.rows.Keys == w.rows.Keys && w'.site.issues.Keys == w.site.issues.Keys
    requires w'.site.next == w.site.next
    requires forall pk :: pk in w.rows ==> ClosureOk(w'.rows[pk]) && w'.rows[pk].issueKey == w.rows[pk].issueKey
    requires forall k :: k in w.site.issues ==> w'.site.issues[k].pk == w.site.issues[k].pk
    ensures Inv(w')
  {
  }

  lemma CutPurgeKeepsInv(cfg: Config, w: World, closing: set<Pk>, labelling: set<Pk>)
    requires Inv(w)
    ensures Inv(CutPurge(cfg, w, closing, labelling))
  {
  }

  // ---------------------------------------------------------------- frames

  /** Two worlds hold the same row for `pk`, and the same issue for that row and by that primary key. */
  ghost predicate SameCell(v: World, w: World, pk: Pk) {
    && Lookup(v.rows, pk) == Lookup(w.rows, pk)
    && (pk in v.rows && v.rows[pk].issueKey.Some? ==>
          Lookup(v.site.issues, v.rows[pk].issueKey.value) == Lookup(w.site.issues, v.rows[pk].issueKey.value))
    && Find(v.site, pk) == Find(w.site, pk)
  }

  lemma CutStepFrame(cfg: Config, w: World, s: Sighting, n: nat, pk: Pk)
    requires Inv(w) && n <= |Writes(cfg, w, s)| && pk != s.pk
    ensures SameCell(w, CutStep(cfg, w, s, n), pk)
  {
    WritesTouchTheTargetOnly(cfg, w, s, n);
    TargetFacts(cfg, w, s, n);
    CutStepKeepsInv(cfg, w, s, n);
    SameFind(w.site, CutStep(cfg, w, s, n).site, pk);
  }

  lemma StepFrame(cfg: Config, w: World, s: Sighting, run: RunId, now: Seconds, dry: bool, pk: Pk)
    requires Inv(w) && pk != s.pk
    ensures SameCell(w, Step(cfg, w, s, run, now, dry), pk)
  {
    if !dry {
      CutStepFrame(cfg, w, s, |Writes(cfg, w, s)|, pk);
      StepSite(cfg, w, s, run, now);
    }
  }

  lemma SameFind(a: Site, b: Site, pk: Pk)
    requires SiteOk(a) && SiteOk(b)
    requires forall k :: (k in a.issues && a.issues[k].pk == pk) <==> (k in b.issues && b.issues[k].pk == pk)
    ensures Find(a, pk) == Find(b, pk)
  {
    if Find(a, pk).Some? {
      FindIs(b, pk, Find(a, pk).value);
    }
  }

  /** A batch without `pk` leaves its cell alone. */
  lemma StepAllFrame(cfg: Config, w: World, ss: seq<Sighting>, run: RunId, now: Seconds, dry: bool, pk: Pk)
    requires Inv(w) && !InBatch(ss, pk)
    ensures SameCell(w, StepAll(cfg, w, ss, run, now, dry), pk)
    decreases |ss|
  {
    if ss != [] {
      var w' := Step(cfg, w, ss[0], run, now, dry);
      StepKeepsInv(cfg, w, ss[0], run, now, dry);
      StepFrame(cfg, w, ss[0], run, now, dry, pk);
      TailBatch(ss, pk);
      StepAllFrame(cfg, w', ss[1..], run, now, dry, pk);
    }
  }

  lemma TailBatch(ss: seq<Sighting>, pk: Pk)
    requires ss != []
    ensures InBatch(ss, pk) <==> ss[0].pk == pk || InBatch(ss[1..], pk)
  {
    if InBatch(ss, pk) && ss[0].pk != pk {
      var i :| 0 <= i < |ss| && ss[i].pk == pk;
      assert ss[1..][i - 1].pk == pk;
    }
    if InBatch(ss[1..], pk) {
      var i :| 0 <= i < |ss[1..]| && ss[1..][i].pk == pk;
      assert ss[i + 1].pk == pk;
    }
  }

  lemma StepAllKeepsInv(cfg: Config, w: World, ss: seq<Sighting>, run: RunId, now: Seconds, dry: bool)
    requires Inv(w)
    ensures Inv(StepAll(cfg, w, ss, run, now, dry))
    decreases |ss|
  {
    if ss != [] {
      StepKeepsInv(cfg, w, ss[0], run, now, dry);
      StepAllKeepsInv(cfg, Step(cfg, w, ss[0], run, now, dry), ss[1..], run, now, dry);
    }
  }
}
