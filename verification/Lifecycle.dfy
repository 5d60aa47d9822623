/** The lifecycle as a specification: what one sighting and one purge pass do to rows and issues. */
module Lifecycle {
  import opened Wrappers
  import opened Store

  // ---------------------------------------------------------------- Jira writes

  datatype Write =
    | Create(pk: Pk, fields: Fields)
    | Update(key: Key, fields: Fields)
    | Relabel(key: Key, labels: seq<string>)
    | Close(key: Key, resolution: string)
    | Reopen(key: Key)
    | Comment(key: Key, note: Note)

  function Edit(cfg: Config, issue: Issue, wr: Write): Issue
    requires !wr.Create?
  {
    match wr
    case Update(_, fields) => issue.(fields := fields)
    case Relabel(_, labels) => issue.(fields := issue.fields.(labels := labels))
    case Close(_, resolution) => issue.(closed := true, resolution := Some(resolution))
    case Reopen(_) => issue.(closed := false, resolution := if cfg.reopenClears then None else issue.resolution)
    case Comment(_, note) => issue.(notes := issue.notes + [note])
  }

  function Apply(cfg: Config, site: Site, wr: Write): Site {
    match wr
    case Create(pk, fields) =>
      Site(site.issues[site.next := Issue(pk, fields, false, None, [])], site.next + 1)
    case _ =>
      if wr.key in site.issues then site.(issues := site.issues[wr.key := Edit(cfg, site.issues[wr.key], wr)])
      else site
  }

  /** Writes take effect one after another; the last one is peeled off first. */
  function ApplyAll(cfg: Config, site: Site, ws: seq<Write>): Site {
    if ws == [] then site
    else Apply(cfg, ApplyAll(cfg, site, ws[..|ws| - 1]), ws[|ws| - 1])
  }

  // ---------------------------------------------------------------- one sighting

  datatype World = World(rows: map<Pk, Row>, site: Site)

  /** Which branch of the per-detection algorithm is taken. */
  datatype Decision =
    | NoteFixed
    | CloseFixed
    | HoldSticky(resolution: string)
    | HoldPurged
    | SkipPurged
    | Return
    | Materialise
    | Classify
    | SkipNew
    | Drift
    | Telemetry
    | Put

  function Decide(cfg: Config, row: Option<Row>, resolution: Option<string>, s: Sighting): Decision {
    var open := OpenKey(row);
    if s.status == Some(Fixed) then
      if open.None? then NoteFixed
      else if IsSticky(cfg, resolution) then HoldSticky(resolution.value)
      else CloseFixed
    else if row.Some? && row.value.issueKey.Some? && row.value.closedAt.Some? then
      if IsSticky(cfg, resolution) then HoldSticky(resolution.value)
      else if row.value.closedReason == Some(Purged) && !cfg.reevaluateOnReturn then HoldPurged
      else if row.value.closedReason == Some(Purged) && !s.create then SkipPurged
      else Return
    else if open.None? then
      if s.create then Materialise else if s.classified then Classify else SkipNew
    else if IsSticky(cfg, resolution) then HoldSticky(resolution.value)
    else if !s.create then Drift
    else if row.value.materialHash == Some(s.sig) then Telemetry
    else Put
  }

  function RowResolution(site: Site, row: Option<Row>): Option<string> {
    if row.Some? && row.value.issueKey.Some? then ResolutionOf(site, row.value.issueKey.value) else None
  }

  function DecideIn(cfg: Config, w: World, s: Sighting): Decision {
    var row := Lookup(w.rows, s.pk);
    Decide(cfg, row, RowResolution(w.site, row), s)
  }

  /** An issue carrying `pk`, if there is one. */
  ghost function Find(site: Site, pk: Pk): (k: Option<Key>)
    ensures k.Some? ==> k.value in site.issues && site.issues[k.value].pk == pk
    ensures k.None? ==> forall j :: j in site.issues ==> site.issues[j].pk != pk
  {
    if j :| j in site.issues && site.issues[j].pk == pk then Some(j) else None
  }

  /** The issue a sighting is about: the row's, else one found by primary key, else the next to be created. */
  ghost function Target(w: World, s: Sighting): Key {
    var row := Lookup(w.rows, s.pk);
    if row.Some? && row.value.issueKey.Some? then row.value.issueKey.value
    else Find(w.site, s.pk).GetOr(w.site.next)
  }

  /** The Jira writes a real sighting makes, in order. */
  ghost function Writes(cfg: Config, w: World, s: Sighting): seq<Write> {
    var k := Target(w, s);
    match DecideIn(cfg, w, s)
    case CloseFixed => [Close(k, cfg.resolutionFixed), Comment(k, Closed)]
    case Return => [Reopen(k), Update(k, s.BuildFields()), Comment(k, Reopened)]
    case Materialise =>
      if Find(w.site, s.pk).Some? then [Update(k, s.BuildFields())]
      else [Create(s.pk, s.BuildFields()), Comment(k, Opened)]
    case Put => [Update(k, s.BuildFields())]
    case _ => []
  }

  /** `upsert_seen`: stamp the row as seen in `run`. */
  function Seen(row: Option<Row>, s: Sighting, run: RunId, key: Option<Key>): Row {
    var base := if row.Some? then row.value
                else Row(None, None, None, None, None, None, run, run, 0, None, None, None, false);
    base.(
      lastSeen := run,
      misses := 0,
      issueKey := Option.Override(base.issueKey, key),
      qualysStatus := Option.Override(base.qualysStatus, s.status),
      materialHash := Some(s.sig),
      tracking := Option.Override(base.tracking, s.tracking),
      lastScanned := Option.Override(base.lastScanned, s.lastScanned))
  }

  function CloseRow(row: Row, reason: Reason, resolution: string, now: Seconds): Row {
    row.(closedAt := Some(now), closedReason := Some(reason), jiraResolution := Some(resolution),
         purgedAt := if reason == Purged then Some(now) else row.purgedAt)
  }

  /** The bookkeeping done before the snapshot. A dry run neither closes nor reopens the row. */
  function Bookkeep(cfg: Config, row: Option<Row>, dec: Decision, now: Seconds, dry: bool): Option<Row> {
    if row.None? then None
    else
      match dec
      case HoldSticky(resolution) => Some(row.value.(sticky := true, jiraResolution := Some(resolution)))
      case CloseFixed => if dry then row else Some(CloseRow(row.value, Remediated, cfg.resolutionFixed, now))
      case Return => if dry then row else Some(row.value.(closedAt := None, closedReason := None, purgedAt := None))
      case _ => row
  }

  ghost function NextRow(cfg: Config, w: World, s: Sighting, run: RunId, now: Seconds, dry: bool): Row {
    var row := Lookup(w.rows, s.pk);
    var dec := DecideIn(cfg, w, s);
    var key := if dec.Materialise? && !dry then Some(Target(w, s)) else None;
    Seen(Bookkeep(cfg, row, dec, now, dry), s, run, key)
  }

  /** One committed sighting. */
  ghost function Step(cfg: Config, w: World, s: Sighting, run: RunId, now: Seconds, dry: bool): World {
    World(w.rows[s.pk := NextRow(cfg, w, s, run, now, dry)],
          if dry then w.site else ApplyAll(cfg, w.site, Writes(cfg, w, s)))
  }

  /** A sighting that died after `n` Jira writes: they stay, the transaction is rolled back. */
  ghost function CutStep(cfg: Config, w: World, s: Sighting, n: nat): World
    requires n <= |Writes(cfg, w, s)|
  {
    w.(site := ApplyAll(cfg, w.site, Writes(cfg, w, s)[..n]))
  }

  // ---------------------------------------------------------------- counters

  datatype Counts = Counts(evaluated: nat, created: nat, updated: nat, closedFixed: nat, markedStale: nat,
                           reopened: nat, skipped: nat, telemetry: nat, classifiedLow: nat)

  const ZERO_COUNTS := Counts(0, 0, 0, 0, 0, 0, 0, 0, 0)

  function Tally(c: Counts, dec: Decision): Counts {
    Bump(c.(evaluated := c.evaluated + 1), dec)
  }

  function Bump(c: Counts, dec: Decision): Counts {
    match dec
    case CloseFixed => c.(closedFixed := c.closedFixed + 1)
    case SkipPurged => c.(skipped := c.skipped + 1)
    case SkipNew => c.(skipped := c.skipped + 1)
    case Drift => c.(skipped := c.skipped + 1)
    case Return => c.(reopened := c.reopened + 1)
    case Materialise => c.(created := c.created + 1)
    case Classify => c.(classifiedLow := c.classifiedLow + 1)
    case Telemetry => c.(telemetry := c.telemetry + 1)
    case Put => c.(updated := c.updated + 1)
    case NoteFixed => c
    case HoldSticky(_) => c
    case HoldPurged => c
  }

  // ---------------------------------------------------------------- the purge pass

  /** Open and not stamped in `run`. */
  predicate Missed(row: Row, run: RunId) {
    IsOpen(row) && row.lastSeen < run
  }

  /** The purge pass closes the row `pk`. */
  predicate GoesStale(cfg: Config, w: World, pk: Pk, run: RunId, now: Seconds)
    requires pk in w.rows
  {
    var row := w.rows[pk];
    && Missed(row, run)
    && !IsSticky(cfg, ResolutionOf(w.site, row.issueKey.value))
    && ClassifyMissing(row.(misses := row.misses + 1), cfg, now)
  }

  function StaleSet(cfg: Config, w: World, run: RunId, now: Seconds): set<Pk> {
    set pk | pk in w.rows && GoesStale(cfg, w, pk, run, now)
  }

  function PurgedRow(cfg: Config, w: World, pk: Pk, run: RunId, now: Seconds, dry: bool): Row
    requires pk in w.rows
  {
    var row := w.rows[pk];
    if !Missed(row, run) then row
    else
      var missed := row.(misses := row.misses + 1);
      var resolution := ResolutionOf(w.site, row.issueKey.value);
      if IsSticky(cfg, resolution) then missed.(sticky := true, jiraResolution := Some(resolution.value))
      else if ClassifyMissing(missed, cfg, now) && !dry then CloseRow(missed, Purged, cfg.resolutionStale, now)
      else missed
  }

  function WithLabel(labels: seq<string>, tag: string): seq<string> {
    if tag in labels then labels else labels + [tag]
  }

  function StaleLabels(cfg: Config, labels: seq<string>): seq<string> {
    WithLabel(WithLabel(labels, cfg.managedLabel), cfg.staleLabel)
  }

  /** A row of `pks` owns the issue `k`. */
  predicate OwnedBy(w: World, k: Key, pks: set<Pk>) {
    && k in w.site.issues
    && var pk := w.site.issues[k].pk;
       pk in pks && pk in w.rows && w.rows[pk].issueKey == Some(k)
  }

  /** The stale writes, on every issue at once: `closing` have been closed, `labelling` relabelled. */
  function PurgedSite(cfg: Config, w: World, closing: set<Pk>, labelling: set<Pk>): Site {
    w.site.(issues := map k | k in w.site.issues ::
      var i := w.site.issues[k];
      var i := if OwnedBy(w, k, closing) then i.(closed := true, resolution := Some(cfg.resolutionStale)) else i;
      if OwnedBy(w, k, labelling) then i.(fields := i.fields.(labels := StaleLabels(cfg, i.fields.labels))) else i)
  }

  /** The committed purge pass, given row by row and issue by issue, with no order of visits. */
  function Purge(cfg: Config, w: World, run: RunId, now: Seconds, dry: bool): World {
    var stale := if dry then {} else StaleSet(cfg, w, run, now);
    World(map pk | pk in w.rows :: PurgedRow(cfg, w, pk, run, now, dry), PurgedSite(cfg, w, stale, stale))
  }

  /** A purge pass that died part way: some stale issues closed, some of those relabelled, no row changed. */
  function CutPurge(cfg: Config, w: World, closing: set<Pk>, labelling: set<Pk>): World {
    w.(site := PurgedSite(cfg, w, closing, labelling))
  }

  // ---------------------------------------------------------------- whole runs

  ghost function StepAll(cfg: Config, w: World, ss: seq<Sighting>, run: RunId, now: Seconds, dry: bool): World
    decreases |ss|
  {
    if ss == [] then w
    else StepAll(cfg, Step(cfg, w, ss[0], run, now, dry), ss[1..], run, now, dry)
  }

  ghost function TallyAll(cfg: Config, w: World, c: Counts, ss: seq<Sighting>, run: RunId, now: Seconds,
      dry: bool): Counts
    decreases |ss|
  {
    if ss == [] then c
    else TallyAll(cfg, Step(cfg, w, ss[0], run, now, dry), Tally(c, DecideIn(cfg, w, ss[0])), ss[1..], run, now, dry)
  }

  /** One complete run: every sighting, then the purge pass if the run is full. */
  ghost function Run(cfg: Config, w: World, ss: seq<Sighting>, run: RunId, now: Seconds, full: bool, dry: bool): World {
    var seen := StepAll(cfg, w, ss, run, now, dry);
    if full then Purge(cfg, seen, run, now, dry) else seen
  }

  ghost function RunCounts(cfg: Config, w: World, ss: seq<Sighting>, run: RunId, now: Seconds, full: bool,
      dry: bool): Counts {
    var c := TallyAll(cfg, w, ZERO_COUNTS, ss, run, now, dry);
    if full then c.(markedStale := |StaleSet(cfg, StepAll(cfg, w, ss, run, now, dry), run, now)|) else c
  }

  predicate DistinctPks(ss: seq<Sighting>) {
    forall i, j :: 0 <= i < j < |ss| ==> ss[i].pk != ss[j].pk
  }

  predicate InBatch(ss: seq<Sighting>, pk: Pk) {
    exists i :: 0 <= i < |ss| && ss[i].pk == pk
  }
}
