/** The rows of the state store, the issues of the Jira site, and the purge classifier. */
module Store {
  import opened Wrappers

  type Pk = string
  type Sig = string
  type Key = nat
  type RunId = nat
  type Seconds = int
  type Micros = int

  datatype Status = New | Active | ReOpened | Fixed

  /** Why the connector closed an issue. */
  datatype Reason = Remediated | Purged

  /** `last_vm_scanned_date` as the purge pass reads it. */
  datatype ScanDate = Unparseable | ScannedAt(at: Seconds)

  /** One `detection_state` row. `closedAt`, `closedReason`, `purgedAt` are kept apart, as in the table. */
  datatype Row = Row(
    issueKey: Option<Key>,
    jiraResolution: Option<string>,
    qualysStatus: Option<Status>,
    tracking: Option<string>,
    lastScanned: Option<ScanDate>,
    materialHash: Option<Sig>,
    firstSeen: RunId,
    lastSeen: RunId,
    misses: nat,
    closedAt: Option<Seconds>,
    closedReason: Option<Reason>,
    purgedAt: Option<Seconds>,
    sticky: bool)

  /** What `build_fields` writes: the material fields (by their signature), everything else, and labels. */
  datatype Fields = Fields(sig: Sig, extra: string, labels: seq<string>)

  datatype Note = Opened | Closed | Reopened

  datatype Issue = Issue(pk: Pk, fields: Fields, closed: bool, resolution: Option<string>, notes: seq<Note>)

  /** The Jira site: issues by key, and the number the next created issue gets. */
  datatype Site = Site(issues: map<Key, Issue>, next: Key)

  /** One merged vulnerability as the orchestrator uses it, with the rules engine's verdict on it. */
  datatype Sighting = Sighting(
    pk: Pk,
    status: Option<Status>,
    sig: Sig,
    create: bool,
    classified: bool,
    tracking: Option<string>,
    lastScanned: Option<ScanDate>,
    extra: string,
    labels: seq<string>)
  {
    function BuildFields(): Fields {
      Fields(sig, extra, labels)
    }
  }

  /** `reopenClears` is the site's workflow: whether reopening an issue clears its resolution. */
  datatype Config = Config(
    resolutionFixed: string,
    resolutionStale: string,
    stickyResolutions: set<string>,
    managedLabel: string,
    staleLabel: string,
    agentGraceSyncs: int,
    scanGraceDays: int,
    reevaluateOnReturn: bool,
    reopenClears: bool,
    overlap: Micros)

  const SECONDS_PER_DAY := 86400

  function UpperChar(c: char): char {
    if 'a' <= c <= 'z' then c - 'a' + 'A' else c
  }

  function Upper(s: string): string {
    seq(|s|, i requires 0 <= i < |s| => UpperChar(s[i]))
  }

  /** "AGENT" occurs in `s`; `<=` is the prefix test. */
  predicate HasAgent(s: string) {
    "AGENT" <= s || (s != "" && HasAgent(s[1..]))
  }

  predicate IsAgentTracked(row: Row) {
    HasAgent(Upper(row.tracking.GetOr("")))
  }

  /** True for "stale", false for "keep". */
  predicate ClassifyMissing(row: Row, cfg: Config, now: Seconds) {
    if IsAgentTracked(row) then row.misses >= cfg.agentGraceSyncs
    else
      match row.lastScanned
      case Some(ScannedAt(at)) => (now - at) / SECONDS_PER_DAY > cfg.scanGraceDays
      case _ => false
  }

  /** A network-scanned row is stale exactly when its last scan lies at least grace + 1 whole days back. */
  lemma NetworkStaleMeansWholeDays(row: Row, cfg: Config, now: Seconds)
    requires !IsAgentTracked(row)
    ensures ClassifyMissing(row, cfg, now) <==>
              row.lastScanned.Some? && row.lastScanned.value.ScannedAt? &&
              now - row.lastScanned.value.at >= (cfg.scanGraceDays + 1) * SECONDS_PER_DAY
  {
  }

  /** The issue a sighting of this row would act on: none without a mapping, and none once the row is closed. */
  function OpenKey(row: Option<Row>): Option<Key> {
    if row.Some? && row.value.closedAt.None? then row.value.issueKey else None
  }

  predicate IsOpen(row: Row) {
    row.issueKey.Some? && row.closedAt.None?
  }

  function Lookup<K, V>(m: map<K, V>, k: K): Option<V> {
    if k in m then Some(m[k]) else None
  }

  /** `_current_resolution`: an issue that cannot be read has none. */
  function ResolutionOf(site: Site, key: Key): Option<string> {
    if key in site.issues then site.issues[key].resolution else None
  }

  predicate IsSticky(cfg: Config, resolution: Option<string>) {
    resolution.Some? && resolution.value in cfg.stickyResolutions
  }
}
