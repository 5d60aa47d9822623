/** Absence is only ever inferred from a full run whose stream ended: the gate in front of the purge pass. */
module PurgeGate {
  import opened Store
  import opened Histories

  /** A legal history without its last event is legal, and that event was enabled there. */
  lemma {:induction false} LegalFront(cfg: Config, st: State, es: seq<Event>, e: Event)
    requires Legal(cfg, st, es + [e])
    ensures Legal(cfg, st, es) && Enabled(cfg, Exec(cfg, st, es), e)
    ensures Exec(cfg, st, es + [e]) == Next(cfg, Exec(cfg, st, es), e)
    decreases |es|
  {
    if es == [] {
      assert ([] + [e])[1..] == [];
    } else {
      assert (es + [e])[0] == es[0] && (es + [e])[1..] == es[1..] + [e];
      LegalFront(cfg, Next(cfg, st, es[0]), es[1..], e);
    }
  }

  /** A run started at `i`, and up to `j` it has done nothing but process sightings. */
  predicate Streams(es: seq<Event>, i: int, j: int, mode: Mode, dry: bool) {
    && 0 <= i < j <= |es|
    && es[i].Start? && es[i].mode == mode && es[i].dry == dry
    && forall k :: i < k < j ==> es[k].Sight? || es[k].Human?
  }

  /** The stream of that run ended at `j`, and only humans have acted since. */
  predicate Complete(es: seq<Event>, i: int, j: int, mode: Mode, dry: bool) {
    && Streams(es, i, j, mode, dry) && j < |es| && es[j] == FetchEnds
    && forall k :: j < k < |es| ==> es[k].Human?
  }

  lemma StreamsOn(es: seq<Event>, e: Event, i: int, mode: Mode, dry: bool)
    requires Streams(es, i, |es|, mode, dry)
    ensures e.Sight? || e.Human? ==> Streams(es + [e], i, |es| + 1, mode, dry)
    ensures e == FetchEnds ==> Complete(es + [e], i, |es|, mode, dry)
  {
    assert forall k :: 0 <= k < |es| ==> (es + [e])[k] == es[k];
  }

  lemma CompleteOn(es: seq<Event>, e: Event, i: int, j: int, mode: Mode, dry: bool)
    requires Complete(es, i, j, mode, dry) && e.Human?
    ensures Complete(es + [e], i, j, mode, dry)
  {
    assert forall k :: 0 <= k < |es| ==> (es + [e])[k] == es[k];
  }

  /** What the phase tells of how the history went. */
  lemma {:induction false} PhaseMeans(cfg: Config, st: State, es: seq<Event>) returns (i: int, j: int)
    requires st.phase.Idle? && Legal(cfg, st, es)
    ensures var ph := Exec(cfg, st, es).phase;
            && (ph.Fetching? ==> j == |es| && Streams(es, i, j, ph.mode, ph.dry))
            && (ph.Fetched? ==> Complete(es, i, j, ph.mode, ph.dry))
    decreases |es|
  {
    i, j := 0, 0;
    if es != [] {
      var most, e := es[..|es| - 1], es[|es| - 1];
      assert es == most + [e];
      LegalFront(cfg, st, most, e);
      i, j := PhaseMeans(cfg, st, most);
      var ph := Exec(cfg, st, most).phase;
      if e.Start? {
        i, j := |most|, |es|;
      } else if ph.Fetching? {
        StreamsOn(most, e, i, ph.mode, ph.dry);
        j := if e.FetchEnds? then |most| else |es|;
      } else if ph.Fetched? && e.Human? {
        CompleteOn(most, e, i, j, ph.mode, ph.dry);
      }
    }
  }

  /**
    A purge pass, whether it commits or dies, comes only after the stream of a full run has ended, with nothing but
    committed sightings since that run's start: never in an incremental run, nor after a fetch or a sighting failed.
   */
  lemma PurgeNeedsACompleteFullRun(cfg: Config, st: State, before: seq<Event>, e: Event) returns (i: int, j: int)
    requires st.phase.Idle? && Legal(cfg, st, before + [e]) && (e.PurgePass? || e.PurgePassDies?)
    ensures 0 <= i < |before| && before[i].Start? && before[i].mode == Full
    ensures Complete(before, i, j, Full, before[i].dry)
  {
    LegalFront(cfg, st, before, e);
    i, j := PhaseMeans(cfg, st, before);
  }
}
