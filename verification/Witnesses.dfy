/** Histories from an empty store and site in which a promise that is documented fails. */
module Witnesses {
  import opened Wrappers
  import opened Store
  import opened Lifecycle
  import opened Invariants
  import opened Histories
  import opened Windows

  const NOTHING := State(World(map[], Site(map[], 0)), [], Idle, [])

  /** A detection that is to have an issue and is not fixed. */
  predicate Creating(s: Sighting) {
    s.create && s.status != Some(Fixed)
  }

  // ---------------------------------------------------------------- after the first run

  function FirstRow(s: Sighting): Row {
    Seen(None, s, 0, Some(0))
  }

  function FirstIssue(s: Sighting): Issue {
    Issue(s.pk, s.BuildFields(), false, None, [Opened])
  }

  /** One open issue, `misses` empty full runs ago. */
  function Waiting(s: Sighting, misses: nat): World {
    World(map[s.pk := FirstRow(s).(misses := misses)], Site(map[0 := FirstIssue(s)], 1))
  }

  /** The store is idle in `w`, and `n` runs are on record. */
  predicate Idles(st: State, w: World, n: nat) {
    st.phase == Idle && st.w == w && |st.runs| == n
  }

  function First(s: Sighting): seq<Event> {
    RunEvents([s], Incremental, false, 0, 0)
  }

  lemma StepAllOfOne(cfg: Config, w: World, s: Sighting, run: RunId, now: Seconds, dry: bool)
    ensures StepAll(cfg, w, [s], run, now, dry) == Step(cfg, w, s, run, now, dry)
  {
    assert [s][1..] == [];
    assert StepAll(cfg, Step(cfg, w, s, run, now, dry), [], run, now, dry) == Step(cfg, w, s, run, now, dry);
  }

  lemma FirstStep(cfg: Config, s: Sighting)
    requires Creating(s)
    ensures Step(cfg, NOTHING.w, s, 0, 0, false) == Waiting(s, 0)
  {
    assert DecideIn(cfg, NOTHING.w, s) == Materialise;
    CreateThenComment(cfg, NOTHING.w.site, s.pk, s.BuildFields());
  }

  lemma FirstRun(cfg: Config, s: Sighting)
    requires Creating(s)
    ensures Legal(cfg, NOTHING, First(s)) && Idles(Exec(cfg, NOTHING, First(s)), Waiting(s, 0), 1)
  {
    RunIsAHistory(cfg, NOTHING, [s], Incremental, false, 0, 0);
    StepAllOfOne(cfg, NOTHING.w, s, 0, 0, false);
    FirstStep(cfg, s);
  }

  // ---------------------------------------------------------------- a purge brought forward

  predicate Agent(s: Sighting) {
    HasAgent(Upper(s.tracking.GetOr("")))
  }

  /** A full run that fetches nothing. */
  function EmptyRun(dry: bool): seq<Event> {
    RunEvents([], Full, dry, 0, 0)
  }

  function EmptyRuns(n: nat): seq<Event> {
    if n == 0 then [] else EmptyRuns(n - 1) + EmptyRun(false)
  }

  lemma EmptyPurge(cfg: Config, s: Sighting, misses: nat, run: RunId, dry: bool)
    requires Agent(s) && run > 0
    ensures dry || misses + 1 < cfg.agentGraceSyncs ==>
              Purge(cfg, Waiting(s, misses), run, 0, dry) == Waiting(s, misses + 1)
    ensures misses + 1 >= cfg.agentGraceSyncs ==>
              var site := Purge(cfg, Waiting(s, misses), run, 0, false).site;
              0 in site.issues && site.issues[0].closed
  {
    var w := Waiting(s, misses);
    assert IsAgentTracked(w.rows[s.pk].(misses := misses + 1));
    assert GoesStale(cfg, w, s.pk, run, 0) <==> misses + 1 >= cfg.agentGraceSyncs;
    if dry || misses + 1 < cfg.agentGraceSyncs {
      var stale := if dry then {} else StaleSet(cfg, w, run, 0);
      assert stale == {};
      assert PurgedSite(cfg, w, stale, stale).issues == w.site.issues;
      assert Purge(cfg, w, run, 0, dry).rows == Waiting(s, misses + 1).rows;
    }
  }

  /** An empty full run in a waiting state. */
  lemma OneEmptyRun(cfg: Config, st: State, s: Sighting, misses: nat, n: nat, dry: bool)
    requires Idles(st, Waiting(s, misses), n) && n > 0 && Agent(s)
    ensures Legal(cfg, st, EmptyRun(dry))
    ensures dry || misses + 1 < cfg.agentGraceSyncs ==>
              Idles(Exec(cfg, st, EmptyRun(dry)), Waiting(s, misses + 1), n + 1)
    ensures !dry && misses + 1 >= cfg.agentGraceSyncs ==>
              var site := Exec(cfg, st, EmptyRun(dry)).w.site;
              0 in site.issues && site.issues[0].closed
  {
    RunIsAHistory(cfg, st, [], Full, dry, 0, 0);
    EmptyPurge(cfg, s, misses, n, dry);
  }

  /** One more empty full run after a history that ends waiting. */
  lemma OneMore(cfg: Config, s: Sighting, before: seq<Event>, misses: nat, n: nat, dry: bool)
    requires Agent(s) && n > 0 && Legal(cfg, NOTHING, before)
    requires Idles(Exec(cfg, NOTHING, before), Waiting(s, misses), n)
    ensures Legal(cfg, NOTHING, before + EmptyRun(dry))
    ensures dry || misses + 1 < cfg.agentGraceSyncs ==>
              Idles(Exec(cfg, NOTHING, before + EmptyRun(dry)), Waiting(s, misses + 1), n + 1)
    ensures !dry && misses + 1 >= cfg.agentGraceSyncs ==>
              var site := Exec(cfg, NOTHING, before + EmptyRun(dry)).w.site;
              0 in site.issues && site.issues[0].closed
  {
    OneEmptyRun(cfg, Exec(cfg, NOTHING, before), s, misses, n, dry);
    LegalSum(cfg, NOTHING, before, EmptyRun(dry));
  }

  lemma {:induction false} ManyEmptyRuns(cfg: Config, s: Sighting, n: nat)
    requires Creating(s) && Agent(s) && n < cfg.agentGraceSyncs
    ensures Legal(cfg, NOTHING, First(s) + EmptyRuns(n))
    ensures Idles(Exec(cfg, NOTHING, First(s) + EmptyRuns(n)), Waiting(s, n), n + 1)
  {
    if n == 0 {
      FirstRun(cfg, s);
      assert First(s) + EmptyRuns(0) == First(s);
    } else {
      ManyEmptyRuns(cfg, s, n - 1);
      OneMore(cfg, s, First(s) + EmptyRuns(n - 1), n - 1, n, false);
      assert First(s) + EmptyRuns(n) == First(s) + EmptyRuns(n - 1) + EmptyRun(false);
    }
  }

  /** Two misses short, one more run leaves the issue open, and two close it, even if the first is dry. */
  lemma TwoShort(cfg: Config, s: Sighting, before: seq<Event>, misses: nat, n: nat)
    requires Agent(s) && n > 0 && misses + 2 == cfg.agentGraceSyncs && Legal(cfg, NOTHING, before)
    requires Idles(Exec(cfg, NOTHING, before), Waiting(s, misses), n)
    ensures var plain, rehearsed := before + EmptyRun(false), before + EmptyRun(true) + EmptyRun(false);
            && Legal(cfg, NOTHING, plain) && Legal(cfg, NOTHING, rehearsed)
            && var a, b := Exec(cfg, NOTHING, plain).w.site, Exec(cfg, NOTHING, rehearsed).w.site;
               0 in a.issues && !a.issues[0].closed && 0 in b.issues && b.issues[0].closed
  {
    OneMore(cfg, s, before, misses, n, false);
    OneMore(cfg, s, before, misses, n, true);
    OneMore(cfg, s, before + EmptyRun(true), misses + 1, n + 1, false);
  }

  /**
    A detection is created and then missed by full runs until it is two misses short of the grace. A real full
    run that fetches nothing leaves the issue open; with a dry one before it, it closes the issue.
   */
  lemma DryFullRunHastensAPurge(cfg: Config, s: Sighting)
    requires cfg.agentGraceSyncs >= 2 && Creating(s) && Agent(s)
    ensures var before := First(s) + EmptyRuns(cfg.agentGraceSyncs - 2);
            var plain, rehearsed := before + EmptyRun(false), before + EmptyRun(true) + EmptyRun(false);
            && Legal(cfg, NOTHING, plain) && Legal(cfg, NOTHING, rehearsed)
            && var a, b := Exec(cfg, NOTHING, plain).w.site, Exec(cfg, NOTHING, rehearsed).w.site;
               0 in a.issues && !a.issues[0].closed && 0 in b.issues && b.issues[0].closed
  {
    var n := cfg.agentGraceSyncs - 2;
    ManyEmptyRuns(cfg, s, n);
    TwoShort(cfg, s, First(s) + EmptyRuns(n), n, n + 1);
  }

  // ---------------------------------------------------------------- an update swallowed

  /** The same detection with a material change. */
  predicate Changed(s: Sighting, t: Sighting) {
    Creating(t) && t.pk == s.pk && t.sig != s.sig
  }

  /** Its decision, on the row as the first run left it and as a dry sighting leaves it. */
  lemma ChangeDecided(cfg: Config, s: Sighting, t: Sighting, run: RunId)
    requires Creating(s) && Changed(s, t)
    ensures DecideIn(cfg, Waiting(s, 0), t) == Put
    ensures DecideIn(cfg, Step(cfg, Waiting(s, 0), t, run, 0, true), t) == Telemetry
  {
  }

  lemma ChangeWritten(cfg: Config, s: Sighting, t: Sighting, run: RunId)
    requires Creating(s) && Changed(s, t)
    ensures var site := Step(cfg, Waiting(s, 0), t, run, 0, false).site;
            0 in site.issues && site.issues[0].fields == t.BuildFields()
    ensures Step(cfg, Step(cfg, Waiting(s, 0), t, run, 0, true), t, run + 1, 0, false).site == Waiting(s, 0).site
  {
    var w := Waiting(s, 0);
    ChangeDecided(cfg, s, t, run);
    assert Writes(cfg, w, t) == [Update(0, t.BuildFields())];
    assert [Update(0, t.BuildFields())][..0] == [];
    assert ApplyAll(cfg, w.site, [Update(0, t.BuildFields())]) == Apply(cfg, w.site, Update(0, t.BuildFields()));
  }

  function SecondRun(t: Sighting, dry: bool): seq<Event> {
    RunEvents([t], Incremental, dry, 0, 0)
  }

  lemma OneSecondRun(cfg: Config, st: State, t: Sighting, dry: bool)
    requires st.phase == Idle
    ensures Legal(cfg, st, SecondRun(t, dry))
    ensures Idles(Exec(cfg, st, SecondRun(t, dry)), Step(cfg, st.w, t, |st.runs|, 0, dry), |st.runs| + 1)
  {
    RunIsAHistory(cfg, st, [t], Incremental, dry, 0, 0);
    StepAllOfOne(cfg, st.w, t, |st.runs|, 0, dry);
  }

  /**
    A detection is created and then changes. A real run brings the change to its issue; with a dry one before it,
    the issue keeps the fields of the first run.
   */
  lemma DryRunSwallowsAnUpdate(cfg: Config, s: Sighting, t: Sighting)
    requires Creating(s) && Changed(s, t)
    ensures var plain := First(s) + SecondRun(t, false);
            var rehearsed := First(s) + SecondRun(t, true) + SecondRun(t, false);
            && Legal(cfg, NOTHING, plain) && Legal(cfg, NOTHING, rehearsed)
            && var a, b := Exec(cfg, NOTHING, plain).w.site, Exec(cfg, NOTHING, rehearsed).w.site;
               && 0 in a.issues && a.issues[0].fields == t.BuildFields()
               && 0 in b.issues && b.issues[0].fields == s.BuildFields()
  {
    FirstRun(cfg, s);
    var st := Exec(cfg, NOTHING, First(s));
    ChangeWritten(cfg, s, t, 1);
    OneSecondRun(cfg, st, t, false);
    LegalSum(cfg, NOTHING, First(s), SecondRun(t, false));
    OneSecondRun(cfg, st, t, true);
    LegalSum(cfg, NOTHING, First(s), SecondRun(t, true));
    OneSecondRun(cfg, Exec(cfg, st, SecondRun(t, true)), t, false);
    LegalSum(cfg, NOTHING, First(s) + SecondRun(t, true), SecondRun(t, false));
  }

  // ---------------------------------------------------------------- a crash that is not recovered from

  /** The next run dies at the sighting of `f`, after the transition. */
  function Crash(f: Sighting): seq<Event> {
    [Start(Incremental, false, 0), SightDies(f, 1, true)]
  }

  function Transitioned(cfg: Config, s: Sighting): World {
    var issue := FirstIssue(s).(closed := true, resolution := Some(cfg.resolutionFixed));
    World(map[s.pk := FirstRow(s)], Site(map[0 := issue], 1))
  }

  lemma CrashIsLegal(cfg: Config, st: State, s: Sighting, f: Sighting)
    requires Creating(s) && f.pk == s.pk && f.status == Some(Fixed) && Idles(st, Waiting(s, 0), 1)
    ensures Legal(cfg, st, Crash(f)) && Idles(Exec(cfg, st, Crash(f)), Transitioned(cfg, s), 2)
  {
    var w := Waiting(s, 0);
    assert DecideIn(cfg, w, f) == CloseFixed;
    var c := Close(0, cfg.resolutionFixed);
    assert Writes(cfg, w, f)[..1] == [c] && [c][..0] == [];
    assert ApplyAll(cfg, w.site, [c]) == Apply(cfg, w.site, c);
    var started := Next(cfg, st, Start(Incremental, false, 0));
    OneEvent(cfg, st, Start(Incremental, false, 0));
    OneEvent(cfg, started, SightDies(f, 1, true));
    LegalSum(cfg, st, [Start(Incremental, false, 0)], [SightDies(f, 1, true)]);
    assert CutStep(cfg, w, f, 1) == Transitioned(cfg, s);
  }

  /**
    A detection is created and then reported fixed, with a fixed resolution that counts as sticky. A run that
    does not die closes the row; one that dies after the transition and is repeated leaves the row open on a
    closed issue.
   */
  lemma CrashIsNotRecoveredFrom(cfg: Config, s: Sighting, f: Sighting)
    requires Creating(s) && f.pk == s.pk && f.status == Some(Fixed) && cfg.resolutionFixed in cfg.stickyResolutions
    ensures var plain := First(s) + SecondRun(f, false);
            var crashed := First(s) + Crash(f) + SecondRun(f, false);
            && Legal(cfg, NOTHING, plain) && Legal(cfg, NOTHING, crashed)
            && var a, b := Exec(cfg, NOTHING, plain).w, Exec(cfg, NOTHING, crashed).w;
               && s.pk in a.rows && a.rows[s.pk].closedReason == Some(Remediated)
               && s.pk in b.rows && IsOpen(b.rows[s.pk])
               && b.site == Transitioned(cfg, s).site
  {
    FirstRun(cfg, s);
    var st := Exec(cfg, NOTHING, First(s));
    OneSecondRun(cfg, st, f, false);
    LegalSum(cfg, NOTHING, First(s), SecondRun(f, false));
    assert DecideIn(cfg, Waiting(s, 0), f) == CloseFixed;
    CrashIsLegal(cfg, st, s, f);
    LegalSum(cfg, NOTHING, First(s), Crash(f));
    OneSecondRun(cfg, Exec(cfg, st, Crash(f)), f, false);
    LegalSum(cfg, NOTHING, First(s) + Crash(f), SecondRun(f, false));
    assert DecideIn(cfg, Transitioned(cfg, s), f).HoldSticky?;
  }

  // ---------------------------------------------------------------- a scan hidden

  /**
    A real run, a dry run two seconds and an overlap later: a scan in between, which the real run could not see,
    lies in no window of the next incremental run.
   */
  lemma DryRunHidesAScan(cfg: Config)
    requires cfg.overlap >= 0
    ensures var es := RunEvents([], Full, false, 0, 0) + RunEvents([], Incremental, true, cfg.overlap + 2 * SECOND, 0);
            && Legal(cfg, NOTHING, es)
            && Unseen(0, cfg.overlap, SECOND, SECOND)
            && !Covers(ComputeSince(Exec(cfg, NOTHING, es).runs, Incremental, cfg.overlap), SECOND)
  {
    var real_, dry := RunEvents([], Full, false, 0, 0), RunEvents([], Incremental, true, cfg.overlap + 2 * SECOND, 0);
    RunIsAHistory(cfg, NOTHING, [], Full, false, 0, 0);
    RunIsAHistory(cfg, Exec(cfg, NOTHING, real_), [], Incremental, true, cfg.overlap + 2 * SECOND, 0);
    LegalSum(cfg, NOTHING, real_, dry);
    var runs := Exec(cfg, NOTHING, real_ + dry).runs;
    LastSuccessIsLatest(runs);
    assert runs[1].status == Success;
    assert LastSuccess(runs) == Some(1);
  }
}
