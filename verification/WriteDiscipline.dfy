/** How often an open issue is rewritten, and when the stored hash is the signature Jira was last sent. */
module WriteDiscipline {
  import opened Wrappers
  import opened Store
  import opened Lifecycle
  import opened Invariants
  import opened Histories

  predicate Open(w: World, pk: Pk) {
    pk in w.rows && IsOpen(w.rows[pk])
  }

  /** `e` is a committed sighting of `pk`. */
  predicate Sights(e: Event, pk: Pk) {
    e.Sight? && e.s.pk == pk
  }

  /** A sighting of `pk` is real, to be created, not Fixed, and finds the issue not sticky. Other events are free. */
  ghost predicate Ordinary(cfg: Config, st: State, e: Event, pk: Pk)
    requires Enabled(cfg, st, e) && Open(st.w, pk)
  {
    Sights(e, pk) ==>
      && !st.phase.dry && e.s.create && e.s.status != Some(Fixed)
      && !IsSticky(cfg, ResolutionOf(st.w.site, st.w.rows[pk].issueKey.value))
  }

  ghost predicate StaysOpen(cfg: Config, st: State, es: seq<Event>, pk: Pk)
    requires Legal(cfg, st, es)
    decreases |es|
  {
    && Open(st.w, pk)
    && (es != [] ==> Ordinary(cfg, st, es[0], pk) && StaysOpen(cfg, Next(cfg, st, es[0]), es[1..], pk))
  }

  /** What the committed sightings of `pk` send to Jira along a history: all their writes. */
  ghost function WritesFor(cfg: Config, st: State, es: seq<Event>, pk: Pk): seq<Write>
    requires Legal(cfg, st, es)
    decreases |es|
  {
    if es == [] then []
    else
      var e := es[0];
      (if Sights(e, pk) && !st.phase.dry then Writes(cfg, st.w, e.s) else [])
      + WritesFor(cfg, Next(cfg, st, e), es[1..], pk)
  }

  /** The sightings of `pk` in order. */
  function SightingsOf(es: seq<Event>, pk: Pk): seq<Sighting> {
    if es == [] then []
    else (if Sights(es[0], pk) then [es[0].s] else []) + SightingsOf(es[1..], pk)
  }

  /** One PUT for each sighting whose signature differs from the one before, `last` being the one before the first. */
  function Puts(key: Key, last: Sig, ss: seq<Sighting>): seq<Write>
    decreases |ss|
  {
    if ss == [] then []
    else (if ss[0].sig != last then [Update(key, ss[0].BuildFields())] else []) + Puts(key, ss[0].sig, ss[1..])
  }

  /** The signature of the last of these sightings, `last` being the one before the first. */
  function LastSig(last: Sig, ss: seq<Sighting>): Sig {
    if ss == [] then last else ss[|ss| - 1].sig
  }

  function HashOf(w: World, pk: Pk): Option<Sig> {
    if pk in w.rows then w.rows[pk].materialHash else None
  }

  /** The signature in the last of these writes, `sent` having been sent before. */
  function LastSent(sent: Sig, ws: seq<Write>): Sig {
    if ws == [] then sent
    else if ws[|ws| - 1].Update? then ws[|ws| - 1].fields.sig
    else LastSent(sent, ws[..|ws| - 1])
  }

  lemma {:induction false} LastSentOfPuts(key: Key, last: Sig, ss: seq<Sighting>)
    ensures LastSent(last, Puts(key, last, ss)) == LastSig(last, ss)
    decreases |ss|
  {
    if ss != [] {
      var rest := Puts(key, ss[0].sig, ss[1..]);
      LastSentOfPuts(key, ss[0].sig, ss[1..]);
      if ss[0].sig != last {
        var first := Update(key, ss[0].BuildFields());
        LastSentAfter(last, first, rest);
      } else {
        assert Puts(key, last, ss) == rest;
      }
    }
  }

  lemma {:induction false} LastSentAfter(sent: Sig, first: Write, ws: seq<Write>)
    requires first.Update?
    ensures LastSent(sent, [first] + ws) == LastSent(first.fields.sig, ws)
    decreases |ws|
  {
    if ws == [] {
      assert [first] + ws == [first];
    } else {
      assert ([first] + ws)[..|ws|] == [first] + ws[..|ws| - 1];
      LastSentAfter(sent, first, ws[..|ws| - 1]);
    }
  }

  /** A real, creating sighting of an open row whose issue is not sticky. */
  lemma OneSighting(cfg: Config, w: World, s: Sighting, run: RunId, now: Seconds)
    requires Inv(w) && Open(w, s.pk) && s.create && s.status != Some(Fixed)
    requires !IsSticky(cfg, ResolutionOf(w.site, w.rows[s.pk].issueKey.value))
    ensures var k, was := w.rows[s.pk].issueKey.value, w.rows[s.pk].materialHash;
            && Writes(cfg, w, s) == (if was != Some(s.sig) then [Update(k, s.BuildFields())] else [])
            && s.pk in Step(cfg, w, s, run, now, false).rows
            && var row := Step(cfg, w, s, run, now, false).rows[s.pk];
               row.materialHash == Some(s.sig) && row.issueKey == Some(k)
  {
    assert DecideIn(cfg, w, s) in {Put, Telemetry};
  }

  /** No other event touches the hash or the key of a row that stays open, whatever it does to the issue. */
  lemma OtherEvent(cfg: Config, st: State, e: Event, pk: Pk)
    requires Good(st) && Enabled(cfg, st, e) && Open(st.w, pk) && !Sights(e, pk)
    ensures var rows := Next(cfg, st, e).w.rows;
            && pk in rows && rows[pk].materialHash == st.w.rows[pk].materialHash
            && rows[pk].issueKey == st.w.rows[pk].issueKey
  {
    match e
    case Sight(s, now) => StepFrame(cfg, st.w, s, st.phase.run, now, st.phase.dry, pk);
    case _ =>
  }

  /**
    Write discipline: however runs, purge passes, crashes, human edits and other detections are interleaved, as long
    as the row stays open, what its sightings send to Jira is one PUT for each material change, in order.
   */
  lemma {:induction false} WritesAreMaterialChanges(cfg: Config, st: State, es: seq<Event>, pk: Pk, sent: Sig)
    requires Good(st) && Legal(cfg, st, es) && StaysOpen(cfg, st, es, pk) && HashOf(st.w, pk) == Some(sent)
    ensures WritesFor(cfg, st, es, pk) == Puts(st.w.rows[pk].issueKey.value, sent, SightingsOf(es, pk))
    decreases |es|
  {
    if es != [] {
      var e, st' := es[0], Next(cfg, st, es[0]);
      NextIsGood(cfg, st, e);
      if Sights(e, pk) {
        OneSighting(cfg, st.w, e.s, st.phase.run, e.now);
        WritesAreMaterialChanges(cfg, st', es[1..], pk, e.s.sig);
        assert SightingsOf(es, pk) == [e.s] + SightingsOf(es[1..], pk);
        assert SightingsOf(es, pk)[1..] == SightingsOf(es[1..], pk);
      } else {
        OtherEvent(cfg, st, e, pk);
        WritesAreMaterialChanges(cfg, st', es[1..], pk, sent);
        assert SightingsOf(es, pk) == SightingsOf(es[1..], pk);
        assert WritesFor(cfg, st, es, pk) == WritesFor(cfg, st', es[1..], pk);
      }
    }
  }

  lemma {:induction false} HashIsLastSighted(cfg: Config, st: State, es: seq<Event>, pk: Pk, sent: Sig)
    requires Good(st) && Legal(cfg, st, es) && StaysOpen(cfg, st, es, pk) && HashOf(st.w, pk) == Some(sent)
    ensures HashOf(Exec(cfg, st, es).w, pk) == Some(LastSig(sent, SightingsOf(es, pk)))
    decreases |es|
  {
    if es != [] {
      var e, st' := es[0], Next(cfg, st, es[0]);
      NextIsGood(cfg, st, e);
      if Sights(e, pk) {
        OneSighting(cfg, st.w, e.s, st.phase.run, e.now);
        HashIsLastSighted(cfg, st', es[1..], pk, e.s.sig);
        assert SightingsOf(es, pk) == [e.s] + SightingsOf(es[1..], pk);
      } else {
        OtherEvent(cfg, st, e, pk);
        HashIsLastSighted(cfg, st', es[1..], pk, sent);
        assert SightingsOf(es, pk) == SightingsOf(es[1..], pk);
      }
    }
  }

  /** And the stored hash is always the signature last sent. */
  lemma HashIsLastSent(cfg: Config, st: State, es: seq<Event>, pk: Pk, sent: Sig)
    requires Good(st) && Legal(cfg, st, es) && StaysOpen(cfg, st, es, pk) && HashOf(st.w, pk) == Some(sent)
    ensures HashOf(Exec(cfg, st, es).w, pk) == Some(LastSent(sent, WritesFor(cfg, st, es, pk)))
  {
    WritesAreMaterialChanges(cfg, st, es, pk, sent);
    HashIsLastSighted(cfg, st, es, pk, sent);
    LastSentOfPuts(st.w.rows[pk].issueKey.value, sent, SightingsOf(es, pk));
  }

  // ---------------------------------------------------------------- the hash and the issue

  /** The stored hash is the signature the issue carries. */
  predicate InSync(w: World, pk: Pk) {
    && pk in w.rows && w.rows[pk].issueKey.Some? && w.rows[pk].issueKey.value in w.site.issues
    && w.rows[pk].materialHash == Some(w.site.issues[w.rows[pk].issueKey.value].fields.sig)
  }

  /** Humans leave the material fields of the issue alone, and no sighting of it dies half way. */
  predicate KeepsSig(st: State, e: Event, pk: Pk) {
    match e
    case Human(key, issue) =>
      key in st.w.site.issues && st.w.site.issues[key].pk == pk ==> issue.fields.sig == st.w.site.issues[key].fields.sig
    case SightDies(s, _, _) => s.pk != pk
    case _ => true
  }

  ghost predicate SigKept(cfg: Config, st: State, es: seq<Event>, pk: Pk)
    requires Legal(cfg, st, es)
    decreases |es|
  {
    es != [] ==> KeepsSig(st, es[0], pk) && SigKept(cfg, Next(cfg, st, es[0]), es[1..], pk)
  }

  lemma CellStaysInSync(v: World, w: World, pk: Pk)
    requires InSync(v, pk) && SameCell(v, w, pk)
    ensures InSync(w, pk)
  {
  }

  lemma SightingStaysInSync(cfg: Config, w: World, s: Sighting, run: RunId, now: Seconds)
    requires Inv(w) && Open(w, s.pk) && InSync(w, s.pk) && s.create && s.status != Some(Fixed)
    requires !IsSticky(cfg, ResolutionOf(w.site, w.rows[s.pk].issueKey.value))
    ensures InSync(Step(cfg, w, s, run, now, false), s.pk)
  {
    StepSite(cfg, w, s, run, now);
    WritesTouchTheTargetOnly(cfg, w, s, |Writes(cfg, w, s)|);
    assert DecideIn(cfg, w, s) in {Put, Telemetry};
  }

  /** The stale writes leave the material fields alone. */
  lemma PurgeStaysInSync(cfg: Config, w: World, closing: set<Pk>, labelling: set<Pk>, run: RunId, now: Seconds,
      dry: bool, pk: Pk)
    requires Inv(w) && InSync(w, pk)
    ensures InSync(CutPurge(cfg, w, closing, labelling), pk) && InSync(Purge(cfg, w, run, now, dry), pk)
  {
  }

  lemma EventStaysInSync(cfg: Config, st: State, e: Event, pk: Pk)
    requires Good(st) && Enabled(cfg, st, e) && Open(st.w, pk) && InSync(st.w, pk)
    requires Ordinary(cfg, st, e, pk) && KeepsSig(st, e, pk)
    ensures InSync(Next(cfg, st, e).w, pk)
  {
    match e
    case Sight(s, now) =>
      if s.pk == pk {
        SightingStaysInSync(cfg, st.w, s, st.phase.run, now);
      } else {
        StepFrame(cfg, st.w, s, st.phase.run, now, st.phase.dry, pk);
        CellStaysInSync(st.w, Step(cfg, st.w, s, st.phase.run, now, st.phase.dry), pk);
      }
    case SightDies(s, n, _) =>
      CutStepFrame(cfg, st.w, s, n, pk);
      CellStaysInSync(st.w, CutStep(cfg, st.w, s, n), pk);
    case PurgePass(now) => PurgeStaysInSync(cfg, st.w, {}, {}, st.phase.run, now, st.phase.dry, pk);
    case PurgePassDies(now, closing, labelling) =>
      PurgeStaysInSync(cfg, st.w, closing, labelling, st.phase.run, now, st.phase.dry, pk);
    case _ =>
  }

  /** Along such a stretch the issue also carries the signature last sent, unless a human or a crash changed it. */
  lemma {:induction false} IssueCarriesTheHash(cfg: Config, st: State, es: seq<Event>, pk: Pk)
    requires Good(st) && Legal(cfg, st, es) && StaysOpen(cfg, st, es, pk) && SigKept(cfg, st, es, pk)
    requires InSync(st.w, pk)
    ensures InSync(Exec(cfg, st, es).w, pk)
    decreases |es|
  {
    if es != [] {
      NextIsGood(cfg, st, es[0]);
      EventStaysInSync(cfg, st, es[0], pk);
      IssueCarriesTheHash(cfg, Next(cfg, st, es[0]), es[1..], pk);
    }
  }

  /** Creation, adoption and reopening start such a stretch in sync. */
  lemma WrittenIsInSync(cfg: Config, w: World, s: Sighting, run: RunId, now: Seconds)
    requires Inv(w) && DecideIn(cfg, w, s) in {Materialise, Return, Put}
    ensures InSync(Step(cfg, w, s, run, now, false), s.pk)
  {
    StepSite(cfg, w, s, run, now);
    WritesTouchTheTargetOnly(cfg, w, s, |Writes(cfg, w, s)|);
    TargetFacts(cfg, w, s, |Writes(cfg, w, s)|);
  }

  /**
    Outside such a stretch the hash can run ahead of Jira: a sighting leaves the row in sync exactly when
    it rewrites the fields, or brings the signature that was already there.
   */
  lemma SyncIsKeptExactlyBy(cfg: Config, w: World, s: Sighting, run: RunId, now: Seconds, dry: bool)
    requires Inv(w) && InSync(w, s.pk)
    ensures InSync(Step(cfg, w, s, run, now, dry), s.pk) <==>
              (!dry && DecideIn(cfg, w, s) in {Return, Put}) || w.rows[s.pk].materialHash == Some(s.sig)
  {
    var row', dec := NextRow(cfg, w, s, run, now, dry), DecideIn(cfg, w, s);
    var k, n := w.rows[s.pk].issueKey.value, |Writes(cfg, w, s)|;
    NextRowFacts(cfg, w, s, run, now, dry);
    assert row'.materialHash == Some(s.sig) && row'.issueKey == Some(k);
    if !dry {
      StepSite(cfg, w, s, run, now);
      WritesTouchTheTargetOnly(cfg, w, s, n);
      FieldsAfter(cfg, w.site.issues[k], dec, s, n);
      assert dec.Return? ==> n == 3;
      assert dec.Put? ==> n == 1;
    }
  }

  lemma FieldsAfter(cfg: Config, issue: Issue, dec: Decision, s: Sighting, n: nat)
    requires !dec.Materialise?
    ensures var now_ := TargetAfter(cfg, Some(issue), dec, s, n);
            && now_.Some?
            && now_.value.fields ==
               if (dec.Return? && n >= 2) || (dec.Put? && n >= 1) then s.BuildFields() else issue.fields
  {
  }
}
