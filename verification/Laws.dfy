/** What a committed sighting and a committed purge pass do, column by column and issue by issue. */
module Laws {
  import opened Wrappers
  import opened Store
  import opened Lifecycle
  import opened Invariants

  // ---------------------------------------------------------------- situations

  /** The issue's live resolution is one that only humans may change. */
  predicate Protected(cfg: Config, w: World, key: Key) {
    && key in w.site.issues
    && w.site.issues[key].resolution.Some?
    && w.site.issues[key].resolution.value in cfg.stickyResolutions
  }

  predicate Mapped(w: World, pk: Pk, key: Key) {
    pk in w.rows && w.rows[pk].issueKey == Some(key)
  }

  predicate Shut(w: World, pk: Pk) {
    pk in w.rows && w.rows[pk].closedAt.Some?
  }

  /** The closure columns are the same. */
  predicate SameClosure(a: Row, b: Row) {
    a.closedAt == b.closedAt && a.closedReason == b.closedReason && a.purgedAt == b.purgedAt
  }

  // ---------------------------------------------------------------- the stamp

  /** Whatever the branch, and in a dry run too: the row is stamped, and what the sighting does not supply is kept. */
  lemma Stamp(cfg: Config, w: World, s: Sighting, run: RunId, now: Seconds, dry: bool)
    ensures var rows := Step(cfg, w, s, run, now, dry).rows;
            && rows.Keys == w.rows.Keys + {s.pk}
            && (forall pk :: pk in w.rows && pk != s.pk ==> rows[pk] == w.rows[pk])
            && var row := rows[s.pk];
               && row.lastSeen == run && row.misses == 0 && row.materialHash == Some(s.sig)
               && (s.status.Some? ==> row.qualysStatus == s.status)
               && (s.tracking.Some? ==> row.tracking == s.tracking)
               && (s.lastScanned.Some? ==> row.lastScanned == s.lastScanned)
               && if s.pk in w.rows then
                    var was := w.rows[s.pk];
                    && row.firstSeen == was.firstSeen
                    && (s.status.None? ==> row.qualysStatus == was.qualysStatus)
                    && (s.tracking.None? ==> row.tracking == was.tracking)
                    && (s.lastScanned.None? ==> row.lastScanned == was.lastScanned)
                  else
                    && row.firstSeen == run && row.closedAt.None? && row.closedReason.None? && row.purgedAt.None?
                    && !row.sticky && row.jiraResolution.None?
                    && (s.status.None? ==> row.qualysStatus.None?)
                    && (s.tracking.None? ==> row.tracking.None?)
                    && (s.lastScanned.None? ==> row.lastScanned.None?)
  {
  }

  // ---------------------------------------------------------------- a mapped detection

  /** What a real sighting leaves of the issue and the row it is mapped to. */
  lemma MappedStep(cfg: Config, w: World, s: Sighting, run: RunId, now: Seconds, key: Key)
    requires Inv(w) && Mapped(w, s.pk, key)
    ensures var w' := Step(cfg, w, s, run, now, false);
            && Mapped(w', s.pk, key) && key in w.site.issues && key in w'.site.issues
            && w'.rows[s.pk] == NextRow(cfg, w, s, run, now, false)
            && w'.site.next == w.site.next
            && Some(w'.site.issues[key]) ==
               TargetAfter(cfg, Some(w.site.issues[key]), DecideIn(cfg, w, s), s, |Writes(cfg, w, s)|)
            && forall k :: k != key ==> Lookup(w'.site.issues, k) == Lookup(w.site.issues, k)
  {
    StepSite(cfg, w, s, run, now);
    WritesTouchTheTargetOnly(cfg, w, s, |Writes(cfg, w, s)|);
    NextRowFacts(cfg, w, s, run, now, false);
  }

  /**
    A closed row whose detection is sighted again and whose issue is not protected: the issue is open again with the
    fields of the sighting, and the row without closure, exactly when it was not purged, or purged detections are
    re-evaluated and this one is to be created. Otherwise nothing of this changes.
   */
  lemma Returned(cfg: Config, w: World, s: Sighting, run: RunId, now: Seconds, key: Key)
    requires Inv(w) && Mapped(w, s.pk, key) && Shut(w, s.pk) && !Protected(cfg, w, key) && s.status != Some(Fixed)
    ensures var w' := Step(cfg, w, s, run, now, false);
            var was, row := w.rows[s.pk], w'.rows[s.pk];
            && Mapped(w', s.pk, key) && key in w.site.issues && key in w'.site.issues
            && row.sticky == was.sticky && row.jiraResolution == was.jiraResolution
            && var i, i' := w.site.issues[key], w'.site.issues[key];
               if was.closedReason != Some(Purged) || (cfg.reevaluateOnReturn && s.create) then
                 && row.closedAt.None? && row.closedReason.None? && row.purgedAt.None?
                 && i' == Issue(s.pk, Fields(s.sig, s.extra, s.labels), false,
                                if cfg.reopenClears then None else i.resolution, i.notes + [Reopened])
               else
                 SameClosure(row, was) && i' == i
  {
    MappedStep(cfg, w, s, run, now, key);
  }

  /** A detection reported fixed closes its open, unprotected issue, and changes nothing of a closed one. */
  lemma ReportedFixed(cfg: Config, w: World, s: Sighting, run: RunId, now: Seconds, key: Key)
    requires Inv(w) && Mapped(w, s.pk, key) && s.status == Some(Fixed)
    requires Shut(w, s.pk) || !Protected(cfg, w, key)
    ensures var w' := Step(cfg, w, s, run, now, false);
            var was, row := w.rows[s.pk], w'.rows[s.pk];
            && Mapped(w', s.pk, key) && key in w.site.issues && key in w'.site.issues
            && row.sticky == was.sticky
            && var i, i' := w.site.issues[key], w'.site.issues[key];
               if was.closedAt.None? then
                 && row.closedAt == Some(now) && row.closedReason == Some(Remediated) && row.purgedAt.None?
                 && row.jiraResolution == Some(cfg.resolutionFixed)
                 && i' == i.(closed := true, resolution := Some(cfg.resolutionFixed), notes := i.notes + [Closed])
               else
                 SameClosure(row, was) && row.jiraResolution == was.jiraResolution && i' == i
  {
    MappedStep(cfg, w, s, run, now, key);
  }

  /** A protected issue is left as it is; the row is flagged and takes over the resolution. */
  lemma LeftToHumans(cfg: Config, w: World, s: Sighting, run: RunId, now: Seconds, key: Key)
    requires Inv(w) && Mapped(w, s.pk, key) && Protected(cfg, w, key)
    requires !Shut(w, s.pk) || s.status != Some(Fixed)
    ensures var w' := Step(cfg, w, s, run, now, false);
            && Mapped(w', s.pk, key) && w'.site == w.site
            && SameClosure(w'.rows[s.pk], w.rows[s.pk])
            && w'.rows[s.pk].sticky && w'.rows[s.pk].jiraResolution == w.site.issues[key].resolution
  {
  }

  /** An open, unprotected issue gets the fields of a sighting that is to be created and brings another signature. */
  lemma SightedOpen(cfg: Config, w: World, s: Sighting, run: RunId, now: Seconds, key: Key)
    requires Inv(w) && Mapped(w, s.pk, key) && !Shut(w, s.pk) && !Protected(cfg, w, key) && s.status != Some(Fixed)
    ensures var w' := Step(cfg, w, s, run, now, false);
            var was, row := w.rows[s.pk], w'.rows[s.pk];
            && Mapped(w', s.pk, key) && key in w.site.issues && key in w'.site.issues
            && SameClosure(row, was) && row.sticky == was.sticky && row.jiraResolution == was.jiraResolution
            && var i, i' := w.site.issues[key], w'.site.issues[key];
               i' == if s.create && was.materialHash != Some(s.sig)
                     then i.(fields := Fields(s.sig, s.extra, s.labels)) else i
  {
    MappedStep(cfg, w, s, run, now, key);
  }

  // ---------------------------------------------------------------- an unmapped detection

  predicate Unmapped(w: World, pk: Pk) {
    pk in w.rows ==> w.rows[pk].issueKey.None?
  }

  lemma UnmappedStep(cfg: Config, w: World, s: Sighting, run: RunId, now: Seconds)
    requires Inv(w) && Unmapped(w, s.pk)
    ensures var w' := Step(cfg, w, s, run, now, false);
            && s.pk in w'.rows && w'.rows[s.pk].closedAt.None? && w'.rows[s.pk].closedReason.None?
            && w'.site == SiteAfter(cfg, w, s, |Writes(cfg, w, s)|)
            && w'.rows[s.pk].issueKey == if s.create && s.status != Some(Fixed) then Some(Target(w, s)) else None
  {
    StepSite(cfg, w, s, run, now);
    WritesTouchTheTargetOnly(cfg, w, s, |Writes(cfg, w, s)|);
    NextRowFacts(cfg, w, s, run, now, false);
  }

  /** Not to be created, or fixed: Jira is left alone. */
  lemma NotBroughtIn(cfg: Config, w: World, s: Sighting, run: RunId, now: Seconds)
    requires Inv(w) && Unmapped(w, s.pk) && (!s.create || s.status == Some(Fixed))
    ensures var w' := Step(cfg, w, s, run, now, false);
            w'.site == w.site && s.pk in w'.rows && w'.rows[s.pk].issueKey.None?
  {
    UnmappedStep(cfg, w, s, run, now);
  }

  /** To be created, with its primary key on an issue already: that issue is adopted and gets the fields. */
  lemma Adopted(cfg: Config, w: World, s: Sighting, run: RunId, now: Seconds, key: Key)
    requires Inv(w) && Unmapped(w, s.pk) && s.create && s.status != Some(Fixed)
    requires key in w.site.issues && w.site.issues[key].pk == s.pk
    ensures var w' := Step(cfg, w, s, run, now, false);
            && Mapped(w', s.pk, key)
            && w'.site == w.site.(issues := w.site.issues[key :=
                 w.site.issues[key].(fields := Fields(s.sig, s.extra, s.labels))])
  {
    UnmappedStep(cfg, w, s, run, now);
    FindIs(w.site, s.pk, key);
  }

  /** To be created, and no issue carries its primary key: one is created under the next key. */
  lemma Created(cfg: Config, w: World, s: Sighting, run: RunId, now: Seconds)
    requires Inv(w) && Unmapped(w, s.pk) && s.create && s.status != Some(Fixed)
    requires forall k :: k in w.site.issues ==> w.site.issues[k].pk != s.pk
    ensures var w' := Step(cfg, w, s, run, now, false);
            && Mapped(w', s.pk, w.site.next)
            && w'.site == Site(w.site.issues[w.site.next :=
                 Issue(s.pk, Fields(s.sig, s.extra, s.labels), false, None, [Opened])], w.site.next + 1)
  {
    UnmappedStep(cfg, w, s, run, now);
  }

  // ---------------------------------------------------------------- a dry run

  /** A dry sighting leaves Jira, the mapping and the closure alone; it flags a row whose issue is protected. */
  lemma Rehearsed(cfg: Config, w: World, s: Sighting, run: RunId, now: Seconds)
    requires Inv(w)
    ensures var w' := Step(cfg, w, s, run, now, true);
            && w'.site == w.site && s.pk in w'.rows
            && (s.pk !in w.rows ==> w'.rows[s.pk].issueKey.None?)
            && (s.pk in w.rows ==>
                  var was, row := w.rows[s.pk], w'.rows[s.pk];
                  && row.issueKey == was.issueKey && SameClosure(row, was)
                  && row.sticky == (was.sticky || (was.issueKey.Some? && Protected(cfg, w, was.issueKey.value)
                                                   && (was.closedAt.None? || s.status != Some(Fixed)))))
  {
  }

  // ---------------------------------------------------------------- a sighting cut short

  lemma CutSite(cfg: Config, w: World, s: Sighting, n: nat)
    requires Inv(w) && n <= |Writes(cfg, w, s)|
    ensures CutStep(cfg, w, s, n) == World(w.rows, SiteAfter(cfg, w, s, n))
  {
    WritesTouchTheTargetOnly(cfg, w, s, n);
  }

  /** Closing as fixed: the transition comes first, then the note. */
  lemma CutClosing(cfg: Config, w: World, s: Sighting, n: nat, key: Key)
    requires Inv(w) && Mapped(w, s.pk, key) && !Shut(w, s.pk) && !Protected(cfg, w, key) && s.status == Some(Fixed)
    requires n <= |Writes(cfg, w, s)|
    ensures |Writes(cfg, w, s)| == 2 && key in w.site.issues
    ensures var i := w.site.issues[key];
            CutStep(cfg, w, s, n) == World(w.rows, w.site.(issues := w.site.issues[key :=
              if n == 0 then i
              else i.(closed := true, resolution := Some(cfg.resolutionFixed),
                      notes := if n == 1 then i.notes else i.notes + [Closed])]))
  {
    CutSite(cfg, w, s, n);
  }

  /** Returning: the issue is reopened, then gets the fields, then the note. */
  lemma CutReturning(cfg: Config, w: World, s: Sighting, n: nat, key: Key)
    requires Inv(w) && Mapped(w, s.pk, key) && Shut(w, s.pk) && !Protected(cfg, w, key) && s.status != Some(Fixed)
    requires w.rows[s.pk].closedReason != Some(Purged) || (cfg.reevaluateOnReturn && s.create)
    requires n <= |Writes(cfg, w, s)|
    ensures |Writes(cfg, w, s)| == 3 && key in w.site.issues
    ensures var i := w.site.issues[key];
            CutStep(cfg, w, s, n) == World(w.rows, w.site.(issues := w.site.issues[key :=
              if n == 0 then i
              else i.(closed := false, resolution := if cfg.reopenClears then None else i.resolution,
                      fields := if n == 1 then i.fields else Fields(s.sig, s.extra, s.labels),
                      notes := if n <= 2 then i.notes else i.notes + [Reopened])]))
  {
    CutSite(cfg, w, s, n);
  }

  /** Creating: the issue appears with its fields, then gets the note; the row does not know of it. */
  lemma CutCreating(cfg: Config, w: World, s: Sighting, n: nat)
    requires Inv(w) && Unmapped(w, s.pk) && s.create && s.status != Some(Fixed)
    requires forall k :: k in w.site.issues ==> w.site.issues[k].pk != s.pk
    requires n <= |Writes(cfg, w, s)|
    ensures |Writes(cfg, w, s)| == 2
    ensures CutStep(cfg, w, s, n) == World(w.rows,
              if n == 0 then w.site
              else Site(w.site.issues[w.site.next := Issue(s.pk, Fields(s.sig, s.extra, s.labels), false, None,
                                                         if n == 1 then [] else [Opened])], w.site.next + 1))
  {
    CutSite(cfg, w, s, n);
  }

  // ---------------------------------------------------------------- the counters

  /** What a mapped detection counts as, besides evaluated, in either mode. */
  lemma CountedMapped(cfg: Config, w: World, c: Counts, s: Sighting, run: RunId, now: Seconds, dry: bool, key: Key)
    requires Inv(w) && Mapped(w, s.pk, key)
    ensures var was, seen := w.rows[s.pk], c.(evaluated := c.evaluated + 1);
            TallyAll(cfg, w, c, [s], run, now, dry) ==
            if s.status == Some(Fixed) then
              if was.closedAt.None? && !Protected(cfg, w, key) then seen.(closedFixed := c.closedFixed + 1) else seen
            else if Protected(cfg, w, key) then seen
            else if was.closedAt.Some? then
              if was.closedReason != Some(Purged) then seen.(reopened := c.reopened + 1)
              else if !cfg.reevaluateOnReturn then seen
              else if s.create then seen.(reopened := c.reopened + 1)
              else seen.(skipped := c.skipped + 1)
            else if !s.create then seen.(skipped := c.skipped + 1)
            else if was.materialHash == Some(s.sig) then seen.(telemetry := c.telemetry + 1)
            else seen.(updated := c.updated + 1)
  {
  }

  lemma CountedUnmapped(cfg: Config, w: World, c: Counts, s: Sighting, run: RunId, now: Seconds, dry: bool)
    requires Inv(w) && Unmapped(w, s.pk)
    ensures var seen := c.(evaluated := c.evaluated + 1);
            TallyAll(cfg, w, c, [s], run, now, dry) ==
            if s.status == Some(Fixed) then seen
            else if s.create then seen.(created := c.created + 1)
            else if s.classified then seen.(classifiedLow := c.classifiedLow + 1)
            else seen.(skipped := c.skipped + 1)
  {
  }

  // ---------------------------------------------------------------- tracking and scan dates

  /** "agent" in any mixture of cases, anywhere. */
  ghost predicate SpellsAgent(t: string) {
    exists i :: SpellsAgentAt(t, i)
  }

  predicate SpellsAgentAt(t: string, i: int) {
    && 0 <= i && i + 5 <= |t|
    && forall j :: 0 <= j < 5 ==> t[i + j] == "AGENT"[j] || t[i + j] == "agent"[j]
  }

  lemma UpperIs(c: char, d: char)
    requires 'A' <= d <= 'Z'
    ensures UpperChar(c) == d <==> c == d || c == d - 'A' + 'a'
  {
  }

  lemma PrefixSpells(t: string)
    ensures "AGENT" <= Upper(t) <==> SpellsAgentAt(t, 0)
  {
    if |t| >= 5 {
      forall j | 0 <= j < 5
        ensures Upper(t)[j] == "AGENT"[j] <==> t[j] == "AGENT"[j] || t[j] == "agent"[j]
      {
        UpperIs(t[j], "AGENT"[j]);
      }
    }
    if "AGENT" <= Upper(t) {
      assert Upper(t)[..5] == "AGENT";
      assert forall j :: 0 <= j < 5 ==> Upper(t)[j] == "AGENT"[j];
    }
    if SpellsAgentAt(t, 0) {
      assert forall j :: 0 <= j < 5 ==> t[0 + j] == "AGENT"[j] || t[0 + j] == "agent"[j];
      assert forall j :: 0 <= j < 5 ==> Upper(t)[j] == "AGENT"[j];
      assert Upper(t)[..5] == "AGENT";
    }
  }

  lemma SpellsLater(t: string, i: int)
    requires t != []
    ensures i > 0 ==> (SpellsAgentAt(t, i) <==> SpellsAgentAt(t[1..], i - 1))
  {
    if i > 0 && i + 5 <= |t| {
      assert t[1..][i - 1..i + 4] == t[i..i + 5];
    }
  }

  lemma {:induction false} HasAgentSpells(t: string)
    ensures HasAgent(Upper(t)) <==> SpellsAgent(t)
    decreases |t|
  {
    PrefixSpells(t);
    if t != [] {
      assert Upper(t)[1..] == Upper(t[1..]);
      HasAgentSpells(t[1..]);
      forall i
        ensures i > 0 ==> (SpellsAgentAt(t, i) <==> SpellsAgentAt(t[1..], i - 1))
      {
        SpellsLater(t, i);
      }
      if SpellsAgent(t[1..]) {
        var i :| SpellsAgentAt(t[1..], i);
        assert SpellsAgentAt(t, i + 1);
      }
    }
  }

  /** Agent-tracked means that the tracking method contains "agent", whatever the case of its letters. */
  lemma AgentTrackedMeans(row: Row)
    ensures IsAgentTracked(row) <==> row.tracking.Some? && SpellsAgent(row.tracking.value)
  {
    HasAgentSpells(row.tracking.GetOr(""));
  }

  /** Absent for too long: so many misses for an agent, a last scan so many whole days back for the others. */
  ghost predicate Overdue(row: Row, misses: nat, cfg: Config, now: Seconds) {
    if row.tracking.Some? && SpellsAgent(row.tracking.value) then misses >= cfg.agentGraceSyncs
    else row.lastScanned.Some? && row.lastScanned.value.ScannedAt?
         && now - row.lastScanned.value.at >= 86400 * (cfg.scanGraceDays + 1)
  }

  lemma OverdueIs(row: Row, cfg: Config, now: Seconds)
    ensures ClassifyMissing(row, cfg, now) <==> Overdue(row, row.misses, cfg, now)
  {
    AgentTrackedMeans(row);
    if !IsAgentTracked(row) {
      NetworkStaleMeansWholeDays(row, cfg, now);
    }
  }

  // ---------------------------------------------------------------- the purge pass

  /** A mapped, open row that the run has not stamped. */
  predicate Absent(w: World, pk: Pk, run: RunId) {
    pk in w.rows && w.rows[pk].issueKey.Some? && w.rows[pk].closedAt.None? && w.rows[pk].lastSeen < run
  }

  /** Which of those the pass closes: its issue is not protected, and with this miss it is overdue. */
  ghost predicate Doomed(cfg: Config, w: World, pk: Pk, run: RunId, now: Seconds) {
    && Absent(w, pk, run)
    && !Protected(cfg, w, w.rows[pk].issueKey.value)
    && Overdue(w.rows[pk], w.rows[pk].misses + 1, cfg, now)
  }

  lemma DoomedIs(cfg: Config, w: World, pk: Pk, run: RunId, now: Seconds)
    requires pk in w.rows
    ensures GoesStale(cfg, w, pk, run, now) <==> Doomed(cfg, w, pk, run, now)
  {
    OverdueIs(w.rows[pk].(misses := w.rows[pk].misses + 1), cfg, now);
  }

  lemma StaleSetIs(cfg: Config, w: World, run: RunId, now: Seconds)
    ensures StaleSet(cfg, w, run, now) == set pk | pk in w.rows && Doomed(cfg, w, pk, run, now)
  {
    forall pk | pk in w.rows
      ensures GoesStale(cfg, w, pk, run, now) <==> Doomed(cfg, w, pk, run, now)
    {
      DoomedIs(cfg, w, pk, run, now);
    }
  }

  lemma {:induction false} SightingsMarkNothing(cfg: Config, w: World, c: Counts, ss: seq<Sighting>, run: RunId,
      now: Seconds, dry: bool)
    ensures TallyAll(cfg, w, c, ss, run, now, dry).markedStale == c.markedStale
    ensures TallyAll(cfg, w, c, ss, run, now, dry).evaluated == c.evaluated + |ss|
    decreases |ss|
  {
    if ss != [] {
      SightingsMarkNothing(cfg, Step(cfg, w, ss[0], run, now, dry), Tally(c, DecideIn(cfg, w, ss[0])), ss[1..], run,
        now, dry);
    }
  }

  /** A run, dry or real, counts every sighting, and the rows its purge pass closes or would close. */
  lemma RunCountsStale(cfg: Config, w: World, ss: seq<Sighting>, run: RunId, now: Seconds, full: bool, dry: bool)
    ensures var c := RunCounts(cfg, w, ss, run, now, full, dry);
            var seen := StepAll(cfg, w, ss, run, now, dry);
            && c.evaluated == |ss|
            && c.markedStale == if full then |set pk | pk in seen.rows && Doomed(cfg, seen, pk, run, now)| else 0
  {
    SightingsMarkNothing(cfg, w, ZERO_COUNTS, ss, run, now, dry);
    StaleSetIs(cfg, StepAll(cfg, w, ss, run, now, dry), run, now);
  }

  /** What the pass makes of a row. */
  lemma PurgedRowLaw(cfg: Config, w: World, run: RunId, now: Seconds, dry: bool, pk: Pk)
    requires Inv(w) && pk in w.rows
    ensures var rows := Purge(cfg, w, run, now, dry).rows;
            && rows.Keys == w.rows.Keys
            && var was, row := w.rows[pk], rows[pk];
               if !Absent(w, pk, run) then row == was
               else if Protected(cfg, w, was.issueKey.value) then
                 row == was.(misses := was.misses + 1, sticky := true,
                             jiraResolution := w.site.issues[was.issueKey.value].resolution)
               else if Doomed(cfg, w, pk, run, now) && !dry then
                 row == was.(misses := was.misses + 1, closedAt := Some(now), closedReason := Some(Purged),
                             purgedAt := Some(now), jiraResolution := Some(cfg.resolutionStale))
               else row == was.(misses := was.misses + 1)
  {
    DoomedIs(cfg, w, pk, run, now);
  }

  /** The row of an issue is one the pass closes. */
  ghost predicate DoomedIssue(cfg: Config, w: World, k: Key, run: RunId, now: Seconds) {
    && k in w.site.issues
    && Mapped(w, w.site.issues[k].pk, k) && Doomed(cfg, w, w.site.issues[k].pk, run, now)
  }

  /** And of an issue: closed, resolved as stale, and labelled with the two tags it did not have, or left alone. */
  lemma PurgedIssueLaw(cfg: Config, w: World, run: RunId, now: Seconds, dry: bool, k: Key)
    requires Inv(w) && k in w.site.issues
    ensures var site := Purge(cfg, w, run, now, dry).site;
            && site.issues.Keys == w.site.issues.Keys && site.next == w.site.next
            && var i, i' := w.site.issues[k], site.issues[k];
               if !dry && DoomedIssue(cfg, w, k, run, now) then
                 && i' == i.(closed := true, resolution := Some(cfg.resolutionStale),
                             fields := i.fields.(labels := i'.fields.labels))
                 && i'.fields.labels == i.fields.labels
                    + (if cfg.managedLabel in i.fields.labels then [] else [cfg.managedLabel])
                    + (if cfg.staleLabel in i.fields.labels || cfg.staleLabel == cfg.managedLabel then []
                       else [cfg.staleLabel])
               else i' == i
  {
    if w.site.issues[k].pk in w.rows {
      DoomedIs(cfg, w, w.site.issues[k].pk, run, now);
    }
  }

  /** A pass that died: the issues in `closing` are closed, those in `labelling` carry the tags, and no row knows. */
  lemma CutPurgeLaw(cfg: Config, w: World, closing: set<Pk>, labelling: set<Pk>, k: Key)
    requires Inv(w) && k in w.site.issues
    ensures var w' := CutPurge(cfg, w, closing, labelling);
            && w'.rows == w.rows && w'.site.next == w.site.next && w'.site.issues.Keys == w.site.issues.Keys
            && var i, i', owned := w.site.issues[k], w'.site.issues[k], Mapped(w, w.site.issues[k].pk, k);
               && i'.pk == i.pk && i'.notes == i.notes
               && i'.fields.sig == i.fields.sig && i'.fields.extra == i.fields.extra
               && i'.closed == (i.closed || (owned && i.pk in closing))
               && i'.resolution == (if owned && i.pk in closing then Some(cfg.resolutionStale) else i.resolution)
               && i'.fields.labels == i.fields.labels + if !(owned && i.pk in labelling) then [] else
                    (if cfg.managedLabel in i.fields.labels then [] else [cfg.managedLabel])
                    + (if cfg.staleLabel in i.fields.labels || cfg.staleLabel == cfg.managedLabel then []
                       else [cfg.staleLabel])
  {
  }
}
