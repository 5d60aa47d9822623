/** The managed scan window of incremental runs. Times are in microseconds; the window is rendered in whole seconds. */
module Windows {
  import opened Wrappers
  import opened Store
  import opened Histories

  const SECOND: Micros := 1_000_000

  /** Truncation to whole seconds, as rendering without a fraction does. */
  function WholeSeconds(t: Micros): Micros {
    t / SECOND * SECOND
  }

  /** `last_successful_any`: latest start first, ties broken by the larger id. */
  function LastSuccess(runs: seq<SyncRun>): Option<nat> {
    if runs == [] then None
    else
      var n := |runs| - 1;
      var before := LastSuccess(runs[..n]);
      if runs[n].status != Success then before
      else if before.Some? && before.value < n && runs[before.value].startedAt > runs[n].startedAt then before
      else Some(n)
  }

  lemma {:induction false} LastSuccessIsLatest(runs: seq<SyncRun>)
    ensures match LastSuccess(runs)
            case None => forall i :: 0 <= i < |runs| ==> runs[i].status != Success
            case Some(l) =>
              && l < |runs| && runs[l].status == Success
              && (forall i :: 0 <= i < |runs| && runs[i].status == Success ==> runs[i].startedAt <= runs[l].startedAt)
              && (forall i :: l < i < |runs| && runs[i].status == Success ==> runs[i].startedAt < runs[l].startedAt)
    decreases |runs|
  {
    if runs != [] {
      var n := |runs| - 1;
      LastSuccessIsLatest(runs[..n]);
      assert forall i :: 0 <= i < n ==> runs[..n][i] == runs[i];
    }
  }

  /** `_compute_since`, given the runs recorded when the run starts. */
  function ComputeSince(runs: seq<SyncRun>, mode: Mode, overlap: Micros): Option<Micros> {
    if mode == Full then None
    else
      LastSuccessIsLatest(runs);
      match LastSuccess(runs)
      case None => None
      case Some(l) => Some(WholeSeconds(runs[l].startedAt - overlap))
  }

  /** The `vm_scan_since` that is sent: the managed window wins over the static one. */
  function ScanSince(since: Option<Micros>, static_: Option<Micros>): Option<Micros> {
    if since.Some? then since else static_
  }

  /** `l` is the successful run that started last, the later of two that started together. */
  predicate IsLastSuccess(runs: seq<SyncRun>, l: nat) {
    && l < |runs| && runs[l].status == Success
    && (forall i :: 0 <= i < l && runs[i].status == Success ==> runs[i].startedAt <= runs[l].startedAt)
    && (forall i :: l < i < |runs| && runs[i].status == Success ==> runs[i].startedAt < runs[l].startedAt)
  }

  /**
    An incremental run looks back to the whole second that lies `overlap` before the start of the last successful
    run; a full one, and one without a predecessor, to the static floor, if there is one.
   */
  lemma WindowMeans(runs: seq<SyncRun>, mode: Mode, overlap: Micros, static_: Option<Micros>, l: nat)
    ensures var since := ScanSince(ComputeSince(runs, mode, overlap), static_);
            && (mode == Full || (forall i :: 0 <= i < |runs| ==> runs[i].status != Success) ==> since == static_)
            && (mode == Incremental && IsLastSuccess(runs, l) ==>
                  && since.Some? && since.value % 1_000_000 == 0
                  && since.value <= runs[l].startedAt - overlap < since.value + 1_000_000)
  {
    LastSuccessIsLatest(runs);
  }

  predicate Covers(window: Option<Micros>, t: Micros) {
    window.None? || window.value <= t
  }

  /**
    No scan is lost: a scan made at `scanned` and visible by `scanned + overlap` lies in the window of the
    first run that starts once it is visible and succeeds. `i` is that run, `runs` the table.
   */
  lemma NoScanIsLost(runs: seq<SyncRun>, i: nat, scanned: Micros, visible: Micros, overlap: Micros)
    requires i < |runs| && visible <= scanned + overlap
    requires forall j :: 0 <= j < i && runs[j].status == Success ==> runs[j].startedAt < visible
    ensures Covers(ScanSince(ComputeSince(runs[..i], runs[i].mode, overlap), None), scanned)
  {
    LastSuccessIsLatest(runs[..i]);
  }

  /** The rows of all runs before the current one are final. */
  lemma {:induction false} EarlierRunsAreFinal(cfg: Config, st: State, es: seq<Event>, n: nat)
    requires Legal(cfg, st, es) && n <= |st.runs| && (st.phase.Idle? || st.phase.run >= n)
    ensures var end := Exec(cfg, st, es);
            n <= |end.runs| && end.runs[..n] == st.runs[..n]
    decreases |es|
  {
    if es != [] {
      EarlierRunsAreFinal(cfg, Next(cfg, st, es[0]), es[1..], n);
    }
  }

  /** A run's mode and start are never rewritten. */
  lemma {:induction false} StartsAreFinal(cfg: Config, st: State, es: seq<Event>, r: RunId)
    requires Legal(cfg, st, es) && r < |st.runs|
    ensures var end := Exec(cfg, st, es);
            r < |end.runs| && end.runs[r].mode == st.runs[r].mode && end.runs[r].startedAt == st.runs[r].startedAt
    decreases |es|
  {
    if es != [] {
      StartsAreFinal(cfg, Next(cfg, st, es[0]), es[1..], r);
    }
  }

  /** Whatever happens since, the table tells when and how a run was started. */
  lemma StartIsRecorded(cfg: Config, st: State, mode: Mode, dry: bool, at: Micros, after: seq<Event>)
    requires Legal(cfg, st, [Start(mode, dry, at)] + after)
    ensures var end, r := Exec(cfg, st, [Start(mode, dry, at)] + after), |st.runs|;
            r < |end.runs| && end.runs[r].mode == mode && end.runs[r].startedAt == at
  {
    var es := [Start(mode, dry, at)] + after;
    assert es[0] == Start(mode, dry, at) && es[1..] == after;
    StartsAreFinal(cfg, Next(cfg, st, es[0]), after, |st.runs|);
  }

  /** The event that ends a run decides its status for good; a killed run keeps the one it had. */
  lemma EndIsRecorded(cfg: Config, st: State, e: Event, after: seq<Event>)
    requires Legal(cfg, st, [e] + after) && !st.phase.Idle? && st.phase.run < |st.runs|
    ensures var end, r := Exec(cfg, st, [e] + after), st.phase.run;
            && r < |end.runs|
            && (e.Finish? ==> end.runs[r].status == Success)
            && (e.FetchFails? || (e.SightDies? && e.recorded) ==> end.runs[r].status == Failed)
            && (e.Killed? || e.PurgePassDies? || (e.SightDies? && !e.recorded) ==>
                  end.runs[r].status == st.runs[r].status)
  {
    var es := [e] + after;
    assert es[0] == e && es[1..] == after;
    var next := Next(cfg, st, e);
    if next.phase.Idle? {
      EarlierRunsAreFinal(cfg, next, after, |next.runs|);
      assert Exec(cfg, next, after).runs[..|next.runs|][st.phase.run] == next.runs[st.phase.run];
    } else {
      StartsAreFinal(cfg, next, after, st.phase.run);
    }
  }

  /**
    No scan is lost, over whole histories: take the table as it stands at the end, and in it the first successful
    run that started once the scan was visible; the window that run computed when it started, from the table as it
    stood then, contains the scan. `before` leads up to that start, `after` is everything since.
   */
  lemma NoScanIsEverLost(cfg: Config, st: State, before: seq<Event>, mode: Mode, dry: bool, at: Micros,
      after: seq<Event>, scanned: Micros, visible: Micros)
    requires Legal(cfg, st, before) && Legal(cfg, Exec(cfg, st, before), [Start(mode, dry, at)] + after)
    requires visible <= scanned + cfg.overlap
    requires var then_ := Exec(cfg, st, before);
             var runs := Exec(cfg, then_, [Start(mode, dry, at)] + after).runs;
             forall j :: 0 <= j < |then_.runs| && j < |runs| && runs[j].status == Success ==>
                 runs[j].startedAt < visible
    ensures Covers(ScanSince(ComputeSince(Exec(cfg, st, before).runs, mode, cfg.overlap), None), scanned)
  {
    var then_, i := Exec(cfg, st, before), |Exec(cfg, st, before).runs|;
    var runs := Exec(cfg, then_, [Start(mode, dry, at)] + after).runs;
    EarlierRunsAreFinal(cfg, then_, [Start(mode, dry, at)] + after, i);
    assert forall j :: 0 <= j < i ==> runs[j] == runs[..i][j] == then_.runs[j];
    LastSuccessIsLatest(then_.runs);
  }

  /** A static floor voids this for the runs without a managed window: they cover a scan iff the floor does. */
  lemma StaticFloorDecidesUnmanagedRuns(runs: seq<SyncRun>, mode: Mode, overlap: Micros, floor: Micros, scanned: Micros)
    ensures ComputeSince(runs, mode, overlap).None? <==>
              mode == Full || forall i :: 0 <= i < |runs| ==> runs[i].status != Success
    ensures ComputeSince(runs, mode, overlap).None? ==>
              (Covers(ScanSince(ComputeSince(runs, mode, overlap), Some(floor)), scanned) <==> floor <= scanned)
  {
    LastSuccessIsLatest(runs);
  }

  /** Runs that failed, or never finished, do not move the window. */
  lemma {:induction false} FailuresNeverMoveTheWindow(runs: seq<SyncRun>, more: seq<SyncRun>, mode: Mode,
      overlap: Micros)
    requires forall i :: 0 <= i < |more| ==> more[i].status != Success
    ensures ComputeSince(runs + more, mode, overlap) == ComputeSince(runs, mode, overlap)
    decreases |more|
  {
    if more == [] {
      assert runs + more == runs;
    } else {
      var n := |more| - 1;
      FailuresNeverMoveTheWindow(runs, more[..n], mode, overlap);
      assert (runs + more)[..|runs| + n] == runs + more[..n];
      LastSuccessIsLatest(runs + more[..n]);
    }
  }

  /** The latest start of a successful real run. The table does not record which runs were `dry`; an observer may. */
  predicate LatestRealStart(runs: seq<SyncRun>, dry: set<RunId>, start: Micros) {
    && (exists i :: 0 <= i < |runs| && runs[i].status == Success && i !in dry && runs[i].startedAt == start)
    && (forall i :: 0 <= i < |runs| && runs[i].status == Success && i !in dry ==> runs[i].startedAt <= start)
  }

  /** A scan that was not visible when the run at `real_` started, and became so in time. */
  predicate Unseen(real_: Micros, overlap: Micros, scanned: Micros, visible: Micros) {
    real_ < visible <= scanned + overlap
  }

  /**
    Dry runs finish as successful runs and do move the window. The next incremental real run sees every scan
    that the last real run could not, exactly when the window starts no later than `overlap` before the
    first moment after that run.
   */
  lemma RealRunsSeeEverythingExactlyWhen(runs: seq<SyncRun>, dry: set<RunId>, real_: Micros, overlap: Micros)
    requires LatestRealStart(runs, dry, real_) && overlap >= 0
    ensures LastSuccess(runs).Some? && LastSuccess(runs).value < |runs|
    ensures (forall scanned, visible :: Unseen(real_, overlap, scanned, visible) ==>
               Covers(ComputeSince(runs, Incremental, overlap), scanned)) <==>
            WholeSeconds(runs[LastSuccess(runs).value].startedAt - overlap) <= real_ + 1 - overlap
  {
    LastSuccessIsLatest(runs);
    var since := ComputeSince(runs, Incremental, overlap);
    if since.value > real_ + 1 - overlap {
      assert Unseen(real_, overlap, real_ + 1 - overlap, real_ + 1);
      assert !Covers(since, real_ + 1 - overlap);
    }
  }
}
