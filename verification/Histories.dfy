/** Whole histories: runs, sightings, purge passes, crashes and human edits, in any order the code allows. */
module Histories {
  import opened Wrappers
  import opened Store
  import opened Lifecycle
  import opened Invariants

  datatype Mode = Incremental | Full

  datatype RunStatus = Running | Success | Failed

  datatype SyncRun = SyncRun(mode: Mode, status: RunStatus, startedAt: Micros)

  /** Where the current run is. `Fetched` means that the source's stream ended without an error. */
  datatype Phase =
    | Idle
    | Fetching(run: RunId, mode: Mode, dry: bool)
    | Fetched(run: RunId, mode: Mode, dry: bool)
    | Swept(run: RunId)

  /** What a history keeps on record: committed sightings and committed purge passes. */
  datatype Entry =
    | Sighted(run: RunId, pk: Pk, status: Option<Status>)
    | Sweep(run: RunId)

  datatype State = State(w: World, runs: seq<SyncRun>, phase: Phase, log: seq<Entry>)

  datatype Event =
    | Start(mode: Mode, dry: bool, at: Micros)
    | Sight(s: Sighting, now: Seconds)
    | SightDies(s: Sighting, n: nat, recorded: bool)
    | FetchFails
    | FetchEnds
    | PurgePass(now: Seconds)
    | PurgePassDies(now: Seconds, closing: set<Pk>, labelling: set<Pk>)
    | Killed
    | Finish
    | Human(key: Key, issue: Issue)

  ghost predicate Enabled(cfg: Config, st: State, e: Event) {
    match e
    case Start(_, _, _) => st.phase.Idle?
    case Sight(_, _) => st.phase.Fetching?
    case SightDies(s, n, _) =>
      st.phase.Fetching? && n <= if st.phase.dry then 0 else |Writes(cfg, st.w, s)|
    case FetchFails => st.phase.Fetching?
    case FetchEnds => st.phase.Fetching?
    case PurgePass(_) => st.phase.Fetched? && st.phase.mode == Full
    case PurgePassDies(now, closing, labelling) =>
      && st.phase.Fetched? && st.phase.mode == Full
      && labelling <= closing <= if st.phase.dry then {} else StaleSet(cfg, st.w, st.phase.run, now)
    case Killed => !st.phase.Idle?
    case Finish => st.phase.Swept? || (st.phase.Fetched? && st.phase.mode == Incremental)
    case Human(key, issue) => key in st.w.site.issues && issue.pk == st.w.site.issues[key].pk
  }

  function EndRun(st: State, status: RunStatus): State
    requires !st.phase.Idle?
  {
    var r := st.phase.run;
    st.(runs := if r < |st.runs| then st.runs[r := st.runs[r].(status := status)] else st.runs, phase := Idle)
  }

  ghost function Next(cfg: Config, st: State, e: Event): State
    requires Enabled(cfg, st, e)
  {
    match e
    case Start(mode, dry, at) =>
      st.(runs := st.runs + [SyncRun(mode, Running, at)], phase := Fetching(|st.runs|, mode, dry))
    case Sight(s, now) =>
      st.(w := Step(cfg, st.w, s, st.phase.run, now, st.phase.dry),
          log := st.log + [Sighted(st.phase.run, s.pk, s.status)])
    case SightDies(s, n, recorded) =>
      var dead := st.(w := CutStep(cfg, st.w, s, n));
      if recorded then EndRun(dead, Failed) else dead.(phase := Idle)
    case FetchFails => EndRun(st, Failed)
    case FetchEnds => st.(phase := Fetched(st.phase.run, st.phase.mode, st.phase.dry))
    case PurgePass(now) =>
      st.(w := Purge(cfg, st.w, st.phase.run, now, st.phase.dry),
          phase := Swept(st.phase.run), log := st.log + [Sweep(st.phase.run)])
    case PurgePassDies(_, closing, labelling) => st.(w := CutPurge(cfg, st.w, closing, labelling), phase := Idle)
    case Killed => st.(phase := Idle)
    case Finish => EndRun(st, Success)
    case Human(key, issue) => st.(w := st.w.(site := st.w.site.(issues := st.w.site.issues[key := issue])))
  }

  ghost predicate Legal(cfg: Config, st: State, es: seq<Event>)
    decreases |es|
  {
    es != [] ==> Enabled(cfg, st, es[0]) && Legal(cfg, Next(cfg, st, es[0]), es[1..])
  }

  ghost function Exec(cfg: Config, st: State, es: seq<Event>): State
    requires Legal(cfg, st, es)
    decreases |es|
  {
    if es == [] then st else Exec(cfg, Next(cfg, st, es[0]), es[1..])
  }

  /** A legal history goes on with any event that is enabled where it ends. */
  lemma {:induction false} GoOn(cfg: Config, st: State, es: seq<Event>, e: Event)
    requires Legal(cfg, st, es) && Enabled(cfg, Exec(cfg, st, es), e)
    ensures Legal(cfg, st, es + [e]) && Exec(cfg, st, es + [e]) == Next(cfg, Exec(cfg, st, es), e)
    decreases |es|
  {
    if es == [] {
      assert (es + [e])[0] == e && (es + [e])[1..] == [];
    } else {
      assert (es + [e])[0] == es[0] && (es + [e])[1..] == es[1..] + [e];
      GoOn(cfg, Next(cfg, st, es[0]), es[1..], e);
    }
  }

  lemma {:induction false} LegalSum(cfg: Config, st: State, a: seq<Event>, b: seq<Event>)
    requires Legal(cfg, st, a) && Legal(cfg, Exec(cfg, st, a), b)
    ensures Legal(cfg, st, a + b) && Exec(cfg, st, a + b) == Exec(cfg, Exec(cfg, st, a), b)
    decreases |a|
  {
    if a == [] {
      assert a + b == b;
    } else {
      assert (a + b)[0] == a[0] && (a + b)[1..] == a[1..] + b;
      LegalSum(cfg, Next(cfg, st, a[0]), a[1..], b);
    }
  }

  lemma OneEvent(cfg: Config, st: State, e: Event)
    requires Enabled(cfg, st, e)
    ensures Legal(cfg, st, [e]) && Exec(cfg, st, [e]) == Next(cfg, st, e)
  {
    GoOn(cfg, st, [], e);
    assert [] + [e] == [e];
  }

  // ---------------------------------------------------------------- complete runs as histories

  function SightEvents(ss: seq<Sighting>, now: Seconds): seq<Event> {
    if ss == [] then [] else [Sight(ss[0], now)] + SightEvents(ss[1..], now)
  }

  /** What happens from the last sighting on. */
  function EndEvents(mode: Mode, now: Seconds): seq<Event> {
    if mode == Full then [FetchEnds, PurgePass(now), Finish] else [FetchEnds, Finish]
  }

  function RunEvents(ss: seq<Sighting>, mode: Mode, dry: bool, at: Micros, now: Seconds): seq<Event> {
    [Start(mode, dry, at)] + (SightEvents(ss, now) + EndEvents(mode, now))
  }

  lemma {:induction false} SightingsAreLegal(cfg: Config, st: State, ss: seq<Sighting>, now: Seconds)
    requires st.phase.Fetching?
    ensures Legal(cfg, st, SightEvents(ss, now))
    ensures var end := Exec(cfg, st, SightEvents(ss, now));
            && end.phase == st.phase && end.runs == st.runs
            && end.w == StepAll(cfg, st.w, ss, st.phase.run, now, st.phase.dry)
    decreases |ss|
  {
    if ss != [] {
      assert SightEvents(ss, now)[1..] == SightEvents(ss[1..], now);
      SightingsAreLegal(cfg, Next(cfg, st, Sight(ss[0], now)), ss[1..], now);
    }
  }

  lemma EndIsLegal(cfg: Config, st: State, now: Seconds)
    requires st.phase.Fetching? && st.phase.run < |st.runs|
    ensures Legal(cfg, st, EndEvents(st.phase.mode, now))
    ensures var end, r := Exec(cfg, st, EndEvents(st.phase.mode, now)), st.phase.run;
            && end.phase == Idle && end.runs == st.runs[r := st.runs[r].(status := Success)]
            && end.w == if st.phase.mode == Full then Purge(cfg, st.w, r, now, st.phase.dry) else st.w
  {
    var fetched := Next(cfg, st, FetchEnds);
    OneEvent(cfg, st, FetchEnds);
    if st.phase.mode == Full {
      var swept := Next(cfg, fetched, PurgePass(now));
      OneEvent(cfg, fetched, PurgePass(now));
      OneEvent(cfg, swept, Finish);
      LegalSum(cfg, fetched, [PurgePass(now)], [Finish]);
      LegalSum(cfg, st, [FetchEnds], [PurgePass(now)] + [Finish]);
      assert [FetchEnds] + ([PurgePass(now)] + [Finish]) == EndEvents(Full, now);
    } else {
      OneEvent(cfg, fetched, Finish);
      LegalSum(cfg, st, [FetchEnds], [Finish]);
      assert [FetchEnds] + [Finish] == EndEvents(Incremental, now);
    }
  }

  /** A complete run, as specified, is a legal history of the machine from any idle state. */
  lemma RunIsAHistory(cfg: Config, st: State, ss: seq<Sighting>, mode: Mode, dry: bool, at: Micros, now: Seconds)
    requires st.phase == Idle
    ensures Legal(cfg, st, RunEvents(ss, mode, dry, at, now))
    ensures var end := Exec(cfg, st, RunEvents(ss, mode, dry, at, now));
            && end.phase == Idle && end.runs == st.runs + [SyncRun(mode, Success, at)]
            && end.w == Run(cfg, st.w, ss, |st.runs|, now, mode == Full, dry)
  {
    var start := Start(mode, dry, at);
    var started := Next(cfg, st, start);
    OneEvent(cfg, st, start);
    SightingsAreLegal(cfg, started, ss, now);
    var sighted := Exec(cfg, started, SightEvents(ss, now));
    EndIsLegal(cfg, sighted, now);
    LegalSum(cfg, started, SightEvents(ss, now), EndEvents(mode, now));
    LegalSum(cfg, st, [start], SightEvents(ss, now) + EndEvents(mode, now));
  }

  // ---------------------------------------------------------------- reading the log

  /** Committed purge passes of runs later than `after`. */
  function Sweeps(log: seq<Entry>, after: RunId): nat {
    if log == [] then 0
    else
      var last := log[|log| - 1];
      Sweeps(log[..|log| - 1], after) + if last.Sweep? && last.run > after then 1 else 0
  }

  /** The run of the last committed sighting of `pk`. */
  function LastSighted(log: seq<Entry>, pk: Pk): Option<RunId> {
    if log == [] then None
    else
      var last := log[|log| - 1];
      if last.Sighted? && last.pk == pk then Some(last.run) else LastSighted(log[..|log| - 1], pk)
  }

  // ---------------------------------------------------------------- reachable states

  /** The stamps and the miss counters say what the log says. */
  ghost predicate LogOk(st: State) {
    && (forall i :: 0 <= i < |st.log| ==> st.log[i].run < |st.runs|)
    && (forall i :: 0 <= i < |st.log| && st.log[i].Sweep? && (st.phase.Fetching? || st.phase.Fetched?) ==>
          st.log[i].run < st.phase.run)
    && (forall pk :: Lookup(st.w.rows, pk).Some? <==> LastSighted(st.log, pk).Some?)
    && (forall pk :: pk in st.w.rows ==> LastSighted(st.log, pk) == Some(st.w.rows[pk].lastSeen))
    && (forall pk :: pk in st.w.rows && IsOpen(st.w.rows[pk]) ==>
          st.w.rows[pk].misses == Sweeps(st.log, st.w.rows[pk].lastSeen))
  }

  ghost predicate Good(st: State) {
    && Inv(st.w)
    && (!st.phase.Idle? ==> st.phase.run == |st.runs| - 1)
    && LogOk(st)
  }

  lemma EmptyIsGood()
    ensures Good(State(World(map[], Site(map[], 0)), [], Idle, []))
  {
  }

  lemma SweepsAdd(log: seq<Entry>, e: Entry, after: RunId)
    ensures Sweeps(log + [e], after) == Sweeps(log, after) + if e.Sweep? && e.run > after then 1 else 0
  {
    assert (log + [e])[..|log|] == log;
  }

  lemma LastSightedAdd(log: seq<Entry>, e: Entry, pk: Pk)
    ensures LastSighted(log + [e], pk) == if e.Sighted? && e.pk == pk then Some(e.run) else LastSighted(log, pk)
  {
    assert (log + [e])[..|log|] == log;
  }

  lemma {:induction false} NoSweepsAfter(log: seq<Entry>, after: RunId)
    requires forall i :: 0 <= i < |log| && log[i].Sweep? ==> log[i].run <= after
    ensures Sweeps(log, after) == 0
    decreases |log|
  {
    if log != [] {
      NoSweepsAfter(log[..|log| - 1], after);
    }
  }

  /** Entry `i` sights `pk` in run `r`, and no later entry sights `pk`. */
  predicate IsLast(log: seq<Entry>, pk: Pk, r: RunId, i: int) {
    && 0 <= i < |log| && log[i].Sighted? && log[i].pk == pk && log[i].run == r
    && forall j :: i < j < |log| && log[j].Sighted? ==> log[j].pk != pk
  }

  /** The last sighting is a sighting on the log, and no later entry sights `pk`. */
  lemma {:induction false} LastSightedIs(log: seq<Entry>, pk: Pk, r: RunId)
    ensures (exists i :: IsLast(log, pk, r, i)) <==> LastSighted(log, pk) == Some(r)
    decreases |log|
  {
    if log != [] {
      var n := |log| - 1;
      var last := log[n];
      if last.Sighted? && last.pk == pk {
        assert last.run == r ==> IsLast(log, pk, r, n);
      } else {
        LastSightedIs(log[..n], pk, r);
        forall i
          ensures IsLast(log, pk, r, i) <==> IsLast(log[..n], pk, r, i)
        {
          assert forall j :: 0 <= j < n ==> log[..n][j] == log[j];
        }
      }
    }
  }

  /** One more stamp on the log and on the row. */
  lemma StampIsLogged(st: State, pk: Pk, row: Row, status: Option<Status>, site: Site)
    requires Good(st) && st.phase.Fetching? && row.lastSeen == st.phase.run && row.misses == 0
    ensures LogOk(st.(w := World(st.w.rows[pk := row], site), log := st.log + [Sighted(st.phase.run, pk, status)]))
  {
    var r, e := st.phase.run, Sighted(st.phase.run, pk, status);
    NoSweepsAfter(st.log + [e], r);
    forall p
      ensures LastSighted(st.log + [e], p) == if p == pk then Some(r) else LastSighted(st.log, p)
    {
      LastSightedAdd(st.log, e, p);
    }
    forall after: RunId
      ensures Sweeps(st.log + [e], after) == Sweeps(st.log, after)
    {
      SweepsAdd(st.log, e, after);
    }
    assert forall p :: p != pk ==> Lookup(st.w.rows[pk := row], p) == Lookup(st.w.rows, p);
  }

  lemma SightIsGood(cfg: Config, st: State, s: Sighting, now: Seconds)
    requires Good(st) && Enabled(cfg, st, Sight(s, now))
    ensures Good(Next(cfg, st, Sight(s, now)))
  {
    var r, dry := st.phase.run, st.phase.dry;
    var row := NextRow(cfg, st.w, s, r, now, dry);
    StepKeepsInv(cfg, st.w, s, r, now, dry);
    NextRowFacts(cfg, st.w, s, r, now, dry);
    StampIsLogged(st, s.pk, row, s.status, Step(cfg, st.w, s, r, now, dry).site);
    assert Next(cfg, st, Sight(s, now)).w == World(st.w.rows[s.pk := row], Step(cfg, st.w, s, r, now, dry).site);
  }

  lemma PurgedRowFacts(cfg: Config, w: World, pk: Pk, run: RunId, now: Seconds, dry: bool)
    requires pk in w.rows && ClosureOk(w.rows[pk])
    ensures var row, row' := w.rows[pk], PurgedRow(cfg, w, pk, run, now, dry);
            && row'.lastSeen == row.lastSeen && row'.issueKey == row.issueKey
            && (IsOpen(row') ==> IsOpen(row) && row'.misses == row.misses + if row.lastSeen < run then 1 else 0)
            && (row'.closedReason != row.closedReason ==>
                  row'.closedReason == Some(Purged) && IsOpen(row) && row.lastSeen < run && !dry)
            && Purge(cfg, w, run, now, dry).rows.Keys == w.rows.Keys
            && Purge(cfg, w, run, now, dry).rows[pk] == row'
  {
  }

  lemma PurgePassIsGood(cfg: Config, st: State, now: Seconds)
    requires Good(st) && Enabled(cfg, st, PurgePass(now))
    ensures Good(Next(cfg, st, PurgePass(now)))
  {
    var r := st.phase.run;
    var st' := Next(cfg, st, PurgePass(now));
    PurgeKeepsInv(cfg, st.w, r, now, st.phase.dry);
    forall pk
      ensures LastSighted(st'.log, pk) == LastSighted(st.log, pk)
    {
      LastSightedAdd(st.log, Sweep(r), pk);
    }
    forall pk | pk in st'.w.rows && IsOpen(st'.w.rows[pk])
      ensures st'.w.rows[pk].misses == Sweeps(st'.log, st'.w.rows[pk].lastSeen)
    {
      SweepsAdd(st.log, Sweep(r), st.w.rows[pk].lastSeen);
      PurgedRowFacts(cfg, st.w, pk, r, now, st.phase.dry);
    }
    forall pk | pk in st.w.rows
      ensures pk in st'.w.rows && st'.w.rows[pk].lastSeen == st.w.rows[pk].lastSeen
    {
      PurgedRowFacts(cfg, st.w, pk, r, now, st.phase.dry);
    }
  }

  lemma NextIsGood(cfg: Config, st: State, e: Event)
    requires Good(st) && Enabled(cfg, st, e)
    ensures Good(Next(cfg, st, e))
  {
    match e
    case Sight(s, now) => SightIsGood(cfg, st, s, now);
    case PurgePass(now) => PurgePassIsGood(cfg, st, now);
    case SightDies(s, n, _) => CutStepKeepsInv(cfg, st.w, s, n);
    case PurgePassDies(_, closing, labelling) => CutPurgeKeepsInv(cfg, st.w, closing, labelling);
    case _ =>
  }

  /** Every state any legal history leads to is good: the invariant of the whole system. */
  lemma {:induction false} ReachableIsGood(cfg: Config, st: State, es: seq<Event>)
    requires Good(st) && Legal(cfg, st, es)
    ensures Good(Exec(cfg, st, es))
    decreases |es|
  {
    if es != [] {
      NextIsGood(cfg, st, es[0]);
      ReachableIsGood(cfg, Next(cfg, st, es[0]), es[1..]);
    }
  }

  /** Stamps lie below the id the next run will get. */
  lemma StampsAreBelow(st: State, pk: Pk)
    requires Good(st) && pk in st.w.rows
    ensures st.w.rows[pk].lastSeen < |st.runs|
  {
    var r := st.w.rows[pk].lastSeen;
    LastSightedIs(st.log, pk, r);
    var i :| IsLast(st.log, pk, r, i);
  }

  /** The miss counter of an open row counts the committed purge passes since its last sighting. */
  lemma MissCounterMeaning(cfg: Config, st: State, es: seq<Event>, pk: Pk)
    requires Good(st) && Legal(cfg, st, es)
    requires var rows := Exec(cfg, st, es).w.rows; pk in rows && IsOpen(rows[pk])
    ensures var end := Exec(cfg, st, es);
            && LastSighted(end.log, pk) == Some(end.w.rows[pk].lastSeen)
            && end.w.rows[pk].misses == Sweeps(end.log, end.w.rows[pk].lastSeen)
  {
    ReachableIsGood(cfg, st, es);
  }

  // ---------------------------------------------------------------- why rows are closed

  function ReasonOf(st: State, pk: Pk): Option<Reason> {
    if pk in st.w.rows then st.w.rows[pk].closedReason else None
  }

  /** The only ways a row's closure reason changes, in any reachable state. */
  lemma FixedIsNeverConfusedWithPurge(cfg: Config, st: State, e: Event, pk: Pk)
    requires Good(st) && Enabled(cfg, st, e)
    requires ReasonOf(Next(cfg, st, e), pk) != ReasonOf(st, pk)
    ensures pk in st.w.rows
    ensures match ReasonOf(Next(cfg, st, e), pk)
            case Some(Remediated) =>
              e.Sight? && e.s.pk == pk && e.s.status == Some(Fixed) && IsOpen(st.w.rows[pk]) && !st.phase.dry
            case Some(Purged) =>
              e.PurgePass? && st.phase == Fetched(st.phase.run, Full, false) && IsOpen(st.w.rows[pk]) &&
              LastSighted(st.log, pk).Some? && LastSighted(st.log, pk).value < st.phase.run
            case None =>
              e.Sight? && e.s.pk == pk && e.s.status != Some(Fixed) && !IsOpen(st.w.rows[pk]) && !st.phase.dry
  {
    match e
    case Sight(s, now) =>
      if s.pk == pk {
        StepReason(cfg, st.w, s, st.phase.run, now, st.phase.dry);
      }
    case PurgePass(now) =>
      assert pk in st.w.rows;
      PurgedRowFacts(cfg, st.w, pk, st.phase.run, now, st.phase.dry);
    case _ =>
  }

  lemma StepReason(cfg: Config, w: World, s: Sighting, run: RunId, now: Seconds, dry: bool)
    requires Inv(w)
    ensures var was := if s.pk in w.rows then w.rows[s.pk].closedReason else None;
            var row := NextRow(cfg, w, s, run, now, dry);
            row.closedReason != was ==>
              && s.pk in w.rows && !dry
              && match row.closedReason
                 case Some(Remediated) => s.status == Some(Fixed) && IsOpen(w.rows[s.pk])
                 case Some(Purged) => false
                 case None => s.status != Some(Fixed) && !IsOpen(w.rows[s.pk])
  {
  }

  /** An agent-tracked row goes stale only after `agentGraceSyncs` committed purge passes without a sighting. */
  lemma StaleNeedsGrace(cfg: Config, st: State, now: Seconds, pk: Pk)
    requires Good(st) && Enabled(cfg, st, PurgePass(now)) && pk in st.w.rows && IsAgentTracked(st.w.rows[pk])
    requires ReasonOf(st, pk) != Some(Purged) && ReasonOf(Next(cfg, st, PurgePass(now)), pk) == Some(Purged)
    ensures var log := Next(cfg, st, PurgePass(now)).log;
            LastSighted(log, pk).Some? && Sweeps(log, LastSighted(log, pk).value) >= cfg.agentGraceSyncs
  {
    var row, r := st.w.rows[pk], st.phase.run;
    LastSightedAdd(st.log, Sweep(r), pk);
    SweepsAdd(st.log, Sweep(r), row.lastSeen);
    assert row.(misses := row.misses + 1).tracking == row.tracking;
  }

  // ---------------------------------------------------------------- one issue per primary key

  ghost predicate Creates(cfg: Config, st: State, e: Event, pk: Pk)
    requires Enabled(cfg, st, e)
  {
    match e
    case Sight(s, _) => !st.phase.dry && Create(pk, s.BuildFields()) in Writes(cfg, st.w, s)
    case SightDies(s, n, _) => Create(pk, s.BuildFields()) in Writes(cfg, st.w, s)[..n]
    case _ => false
  }

  ghost function Creations(cfg: Config, st: State, es: seq<Event>, pk: Pk): nat
    requires Legal(cfg, st, es)
    decreases |es|
  {
    if es == [] then 0
    else (if Creates(cfg, st, es[0], pk) then 1 else 0) + Creations(cfg, Next(cfg, st, es[0]), es[1..], pk)
  }

  lemma CreateMakesTheOnlyIssue(cfg: Config, st: State, e: Event, pk: Pk)
    requires Good(st) && Enabled(cfg, st, e)
    ensures Find(st.w.site, pk).Some? ==> !Creates(cfg, st, e, pk) && Find(Next(cfg, st, e).w.site, pk).Some?
    ensures Creates(cfg, st, e, pk) ==> Find(Next(cfg, st, e).w.site, pk).Some?
  {
    NextIsGood(cfg, st, e);
    match e
    case Sight(s, now) =>
      StepSite(cfg, st.w, s, st.phase.run, now);
      CreateFound(cfg, st.w, s, |Writes(cfg, st.w, s)|, pk);
      assert Writes(cfg, st.w, s)[..|Writes(cfg, st.w, s)|] == Writes(cfg, st.w, s);
    case SightDies(s, n, _) => CreateFound(cfg, st.w, s, n, pk);
    case PurgePass(now) =>
      if Find(st.w.site, pk).Some? {
        FindIs(Next(cfg, st, e).w.site, pk, Find(st.w.site, pk).value);
      }
    case PurgePassDies(now, _, _) =>
      if Find(st.w.site, pk).Some? {
        FindIs(Next(cfg, st, e).w.site, pk, Find(st.w.site, pk).value);
      }
    case Human(key, issue) =>
      if Find(st.w.site, pk).Some? {
        FindIs(Next(cfg, st, e).w.site, pk, Find(st.w.site, pk).value);
      }
    case _ =>
  }

  lemma CreateFound(cfg: Config, w: World, s: Sighting, n: nat, pk: Pk)
    requires Inv(w) && n <= |Writes(cfg, w, s)|
    ensures var creates := Create(pk, s.BuildFields()) in Writes(cfg, w, s)[..n];
            var site := CutStep(cfg, w, s, n).site;
            && (Find(w.site, pk).Some? ==> !creates && Find(site, pk).Some?)
            && (creates ==> Find(site, pk).Some?)
  {
    WritesTouchTheTargetOnly(cfg, w, s, n);
    TargetFacts(cfg, w, s, n);
    CutStepKeepsInv(cfg, w, s, n);
    var site, k := CutStep(cfg, w, s, n).site, Target(w, s);
    if Find(w.site, pk).Some? {
      FindIs(site, pk, Find(w.site, pk).value);
    }
    if Create(pk, s.BuildFields()) in Writes(cfg, w, s)[..n] {
      FindIs(site, pk, k);
    }
  }

  /** Over any history at most one issue is created per primary key, and none where one already exists. */
  lemma {:induction false} AtMostOneIssueIsCreated(cfg: Config, st: State, es: seq<Event>, pk: Pk)
    requires Good(st) && Legal(cfg, st, es)
    ensures Creations(cfg, st, es, pk) <= if Find(st.w.site, pk).Some? then 0 else 1
    decreases |es|
  {
    if es != [] {
      NextIsGood(cfg, st, es[0]);
      CreateMakesTheOnlyIssue(cfg, st, es[0], pk);
      AtMostOneIssueIsCreated(cfg, Next(cfg, st, es[0]), es[1..], pk);
    }
  }

  lemma MappingStays(cfg: Config, st: State, e: Event, pk: Pk)
    requires Good(st) && Enabled(cfg, st, e) && pk in st.w.rows && st.w.rows[pk].issueKey.Some?
    ensures var rows := Next(cfg, st, e).w.rows;
            pk in rows && rows[pk].issueKey == st.w.rows[pk].issueKey
  {
    match e
    case Sight(s, now) => NextRowFacts(cfg, st.w, s, st.phase.run, now, st.phase.dry);
    case PurgePass(now) => PurgedRowFacts(cfg, st.w, pk, st.phase.run, now, st.phase.dry);
    case _ =>
  }

  /** Once a row is mapped to an issue, it stays mapped to that issue, which carries the row's primary key. */
  lemma {:induction false} MappingIsForever(cfg: Config, st: State, es: seq<Event>, pk: Pk)
    requires Good(st) && Legal(cfg, st, es) && pk in st.w.rows && st.w.rows[pk].issueKey.Some?
    ensures var end := Exec(cfg, st, es).w;
            && pk in end.rows && end.rows[pk].issueKey == st.w.rows[pk].issueKey
            && end.rows[pk].issueKey.value in end.site.issues
            && end.site.issues[end.rows[pk].issueKey.value].pk == pk
    decreases |es|
  {
    if es != [] {
      var st' := Next(cfg, st, es[0]);
      NextIsGood(cfg, st, es[0]);
      MappingStays(cfg, st, es[0], pk);
      MappingIsForever(cfg, st', es[1..], pk);
    }
  }

  // ---------------------------------------------------------------- sticky resolutions

  lemma CutStepKeepsStickyIssues(cfg: Config, w: World, s: Sighting, n: nat, k: Key)
    requires Inv(w) && n <= |Writes(cfg, w, s)| && k in w.site.issues && IsSticky(cfg, w.site.issues[k].resolution)
    ensures var site := CutStep(cfg, w, s, n).site;
            && k in site.issues
            && site.issues[k].(fields := w.site.issues[k].fields) == w.site.issues[k]
  {
    WritesTouchTheTargetOnly(cfg, w, s, n);
    TargetFacts(cfg, w, s, n);
  }

  /** No step of any run changes the resolution, the closed state or the comments of a sticky issue. */
  lemma StickySafety(cfg: Config, st: State, e: Event, k: Key)
    requires Good(st) && Enabled(cfg, st, e) && !e.Human?
    requires k in st.w.site.issues && IsSticky(cfg, st.w.site.issues[k].resolution)
    ensures var site := Next(cfg, st, e).w.site;
            && k in site.issues
            && site.issues[k].(fields := st.w.site.issues[k].fields) == st.w.site.issues[k]
  {
    match e
    case Sight(s, now) =>
      StepSite(cfg, st.w, s, st.phase.run, now);
      CutStepKeepsStickyIssues(cfg, st.w, s, |Writes(cfg, st.w, s)|, k);
    case SightDies(s, n, _) => CutStepKeepsStickyIssues(cfg, st.w, s, n, k);
    case PurgePass(now) =>
    case PurgePassDies(now, _, _) =>
    case _ =>
  }

  ghost predicate HandsOff(es: seq<Event>, k: Key) {
    forall i :: 0 <= i < |es| ==> !(es[i].Human? && es[i].key == k)
  }

  /** However long the history: until a human edits it again, a sticky issue keeps its resolution and closed state. */
  lemma {:induction false} StickyForever(cfg: Config, st: State, es: seq<Event>, k: Key)
    requires Good(st) && Legal(cfg, st, es) && HandsOff(es, k)
    requires k in st.w.site.issues && IsSticky(cfg, st.w.site.issues[k].resolution)
    ensures var site := Exec(cfg, st, es).w.site;
            && k in site.issues
            && site.issues[k].(fields := st.w.site.issues[k].fields) == st.w.site.issues[k]
    decreases |es|
  {
    if es != [] {
      var st' := Next(cfg, st, es[0]);
      NextIsGood(cfg, st, es[0]);
      assert HandsOff(es[1..], k);
      if !es[0].Human? {
        StickySafety(cfg, st, es[0], k);
      }
      StickyForever(cfg, st', es[1..], k);
    }
  }

  /** Its fields are another matter: a sighting edits a sticky issue exactly when it adopts it for an unmapped row. */
  lemma StickyIssueIsEditedExactlyOnAdoption(cfg: Config, w: World, s: Sighting, k: Key)
    requires Inv(w) && k in w.site.issues && IsSticky(cfg, w.site.issues[k].resolution)
    ensures var ws := Writes(cfg, w, s);
            (exists i :: 0 <= i < |ws| && !ws[i].Create? && ws[i].key == k) <==>
            && w.site.issues[k].pk == s.pk
            && s.create && s.status != Some(Fixed)
            && (s.pk in w.rows ==> w.rows[s.pk].issueKey.None?)
  {
    TargetFacts(cfg, w, s, 0);
    var ws := Writes(cfg, w, s);
    if w.site.issues[k].pk == s.pk {
      FindIs(w.site, s.pk, k);
      if DecideIn(cfg, w, s) == Materialise {
        assert ws[0] == Update(k, s.BuildFields());
      }
    }
  }

  /** Create dies after its write, a human sets a resolution on the orphaned issue, and the next run adopts it. */
  function Orphaned(s: Sighting, resolution: string): seq<Event> {
    [Start(Incremental, false, 0), SightDies(s, 1, true),
     Human(0, Issue(s.pk, s.BuildFields(), false, Some(resolution), [])), Start(Incremental, false, 1)]
  }

  lemma LegalOf4(cfg: Config, st: State, a: Event, b: Event, c: Event, d: Event)
    requires Enabled(cfg, st, a) && Enabled(cfg, Next(cfg, st, a), b) && Enabled(cfg, Next(cfg, Next(cfg, st, a), b), c)
    requires Enabled(cfg, Next(cfg, Next(cfg, Next(cfg, st, a), b), c), d)
    ensures Legal(cfg, st, [a, b, c, d])
    ensures Exec(cfg, st, [a, b, c, d]) == Next(cfg, Next(cfg, Next(cfg, Next(cfg, st, a), b), c), d)
  {
    GoOn(cfg, st, [], a);
    GoOn(cfg, st, [] + [a], b);
    GoOn(cfg, st, [] + [a] + [b], c);
    GoOn(cfg, st, [] + [a] + [b] + [c], d);
    assert [] + [a] + [b] + [c] + [d] == [a, b, c, d];
  }

  /** The state that lemma speaks of is reached from nothing: the last sighting here edits a sticky issue. */
  lemma StickyAdoptionIsReachable(cfg: Config, s: Sighting, resolution: string)
    requires s.create && s.status != Some(Fixed) && resolution in cfg.stickyResolutions
    ensures var nothing := State(World(map[], Site(map[], 0)), [], Idle, []);
            && Legal(cfg, nothing, Orphaned(s, resolution))
            && var st := Exec(cfg, nothing, Orphaned(s, resolution));
               && Enabled(cfg, st, Sight(s, 0)) && 0 in st.w.site.issues
               && IsSticky(cfg, st.w.site.issues[0].resolution)
               && Writes(cfg, st.w, s) == [Update(0, s.BuildFields())]
  {
    var nothing := State(World(map[], Site(map[], 0)), [], Idle, []);
    var es := Orphaned(s, resolution);
    var started := Next(cfg, nothing, es[0]);
    assert DecideIn(cfg, nothing.w, s) == Materialise;
    var c := Create(s.pk, s.BuildFields());
    assert Writes(cfg, nothing.w, s)[..1] == [c] && [c][..0] == [];
    assert ApplyAll(cfg, nothing.w.site, [c]) == Apply(cfg, nothing.w.site, c);
    var dead := Next(cfg, started, es[1]);
    var orphan := Issue(s.pk, s.BuildFields(), false, None, []);
    assert dead.w == World(map[], Site(map[0 := orphan], 1));
    var edited := Next(cfg, dead, es[2]);
    var st := Next(cfg, edited, es[3]);
    LegalOf4(cfg, nothing, es[0], es[1], es[2], es[3]);
    assert st.w.site.issues == map[0 := orphan.(resolution := Some(resolution))];
    FindIs(st.w.site, s.pk, 0);
  }
}
