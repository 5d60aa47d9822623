/** The orchestrator as it runs: a Jira client, a transactional store, and the loops over sightings and missed rows. */
module Orchestrator {
  import opened Wrappers
  import opened Store
  import opened Lifecycle
  import opened Invariants
  import opened Histories
  import opened Windows

  /** The Jira site. Any write may raise instead of taking effect. */
  class JiraClient {
    const cfg: Config
    var issues: map<Key, Issue>
    var next: Key
    ghost var origin: Site
    ghost var journal: seq<Write>

    ghost predicate Valid()
      reads this
    {
      Here() == ApplyAll(cfg, origin, journal)
    }

    function Here(): Site
      reads this
    {
      Site(issues, next)
    }

    constructor (cfg: Config, site: Site)
      ensures Valid() && this.cfg == cfg && Here() == site
    {
      this.cfg := cfg;
      issues, next := site.issues, site.next;
      origin, journal := site, [];
    }

    /** Start a new journal: a transaction begins. */
    ghost method Mark()
      modifies this`origin, this`journal
      ensures Valid() && origin == Here() && journal == []
    {
      origin, journal := Here(), [];
    }

    method Perform(wr: Write) returns (o: Outcome)
      requires Valid()
      modifies this`issues, this`next, this`journal
      ensures Valid()
      ensures o.Done? ==> Here() == Apply(cfg, old(Here()), wr) && journal == old(journal) + [wr]
      ensures o.Died? ==> Here() == old(Here()) && journal == old(journal)
    {
      var accepted: bool := *;
      if !accepted {
        return Died;
      }
      var site := Apply(cfg, Here(), wr);
      issues, next := site.issues, site.next;
      journal := journal + [wr];
      assert journal[..|journal| - 1] == old(journal);
      return Done;
    }

    method FindIssueByPrimaryKey(pk: Pk) returns (key: Option<Key>)
      requires SiteOk(Here())
      ensures key == Find(Here(), pk)
    {
      var todo := issues.Keys;
      while todo != {}
        invariant todo <= issues.Keys
        invariant forall k :: k in issues && issues[k].pk == pk ==> k in todo
      {
        var k :| k in todo;
        if issues[k].pk == pk {
          FindIs(Here(), pk, k);
          return Some(k);
        }
        todo := todo - {k};
      }
      return None;
    }

    method CreateIssue(pk: Pk, fields: Fields) returns (o: Outcome, key: Key)
      requires Valid()
      modifies this`issues, this`next, this`journal
      ensures Valid()
      ensures o.Done? ==> && key == old(next) && Here() == Apply(cfg, old(Here()), Create(pk, fields))
                          && journal == old(journal) + [Create(pk, fields)]
      ensures o.Died? ==> Here() == old(Here()) && journal == old(journal)
    {
      key := next;
      o := Perform(Create(pk, fields));
    }
  }

  /** The state store: what is committed, and the session's working copy. Any commit may raise. */
  class StateStore {
    var rows: map<Pk, Row>
    var runs: seq<SyncRun>
    var savedRows: map<Pk, Row>
    var savedRuns: seq<SyncRun>

    constructor (rows: map<Pk, Row>, runs: seq<SyncRun>)
      ensures Clean() && this.rows == rows && this.runs == runs
    {
      this.rows, savedRows := rows, rows;
      this.runs, savedRuns := runs, runs;
    }

    /** No session is open. */
    predicate Clean()
      reads this
    {
      rows == savedRows && runs == savedRuns
    }

    /** The end of `session_scope`: keep the working copy, or lose it. */
    method Close(o: Outcome) returns (o': Outcome)
      modifies this
      ensures Clean()
      ensures o'.Done? ==> o.Done? && rows == old(rows) && runs == old(runs)
      ensures o'.Died? ==> rows == old(savedRows) && runs == old(savedRuns)
    {
      var committed: bool := *;
      if o.Died? || !committed {
        rows, runs := savedRows, savedRuns;
        return Died;
      }
      savedRows, savedRuns := rows, runs;
      return Done;
    }

    method UpsertSeen(s: Sighting, run: RunId, key: Option<Key>)
      modifies this`rows
      ensures rows == old(rows)[s.pk := Seen(Lookup(old(rows), s.pk), s, run, key)]
    {
      var row;
      if s.pk in rows {
        row := rows[s.pk];
      } else {
        row := Row(None, None, None, None, None, None, run, run, 0, None, None, None, false);
      }
      row := row.(lastSeen := run, misses := 0, materialHash := Some(s.sig));
      if key.Some? {
        row := row.(issueKey := key);
      }
      if s.status.Some? {
        row := row.(qualysStatus := s.status);
      }
      if s.tracking.Some? {
        row := row.(tracking := s.tracking);
      }
      if s.lastScanned.Some? {
        row := row.(lastScanned := s.lastScanned);
      }
      rows := rows[s.pk := row];
    }

    /** Bump the counter of every open row not stamped in `run`; list those rows in some order. */
    method MarkMissed(run: RunId) returns (missed: seq<Pk>)
      modifies this`rows
      ensures rows.Keys == old(rows).Keys
      ensures forall pk :: pk in rows ==>
                var was := old(rows)[pk];
                rows[pk] == if Missed(was, run) then was.(misses := was.misses + 1) else was
      ensures forall pk :: pk in missed <==> pk in old(rows) && Missed(old(rows)[pk], run)
      ensures forall i, j :: 0 <= i < j < |missed| ==> missed[i] != missed[j]
    {
      missed := [];
      var todo := rows.Keys;
      while todo != {}
        invariant todo <= rows.Keys == old(rows).Keys
        invariant forall pk :: pk in missed <==> pk in rows && pk !in todo && Missed(old(rows)[pk], run)
        invariant forall pk :: pk in rows ==>
                    var was := old(rows)[pk];
                    rows[pk] == if pk in missed then was.(misses := was.misses + 1) else was
        invariant forall i, j :: 0 <= i < j < |missed| ==> missed[i] != missed[j]
      {
        var pk :| pk in todo;
        todo := todo - {pk};
        if Missed(rows[pk], run) {
          rows := rows[pk := rows[pk].(misses := rows[pk].misses + 1)];
          missed := missed + [pk];
        }
      }
    }

    method RecordClosed(pk: Pk, reason: Reason, resolution: string, now: Seconds)
      modifies this`rows
      ensures rows == if pk in old(rows) then old(rows)[pk := CloseRow(old(rows)[pk], reason, resolution, now)]
                      else old(rows)
    {
      if pk in rows {
        var row := rows[pk].(closedAt := Some(now), closedReason := Some(reason), jiraResolution := Some(resolution));
        if reason == Purged {
          row := row.(purgedAt := Some(now));
        }
        rows := rows[pk := row];
      }
    }

    method SetSticky(pk: Pk, resolution: string)
      modifies this`rows
      ensures rows == if pk in old(rows)
                      then old(rows)[pk := old(rows)[pk].(sticky := true, jiraResolution := Some(resolution))]
                      else old(rows)
    {
      if pk in rows {
        rows := rows[pk := rows[pk].(sticky := true, jiraResolution := Some(resolution))];
      }
    }
  }

  class RunSummary {
    var evaluated: nat
    var created: nat
    var updated: nat
    var closedFixed: nat
    var markedStale: nat
    var reopened: nat
    var skipped: nat
    var telemetry: nat
    var classifiedLow: nat

    constructor ()
      ensures Value() == ZERO_COUNTS
    {
      evaluated, created, updated, closedFixed, markedStale := 0, 0, 0, 0, 0;
      reopened, skipped, telemetry, classifiedLow := 0, 0, 0, 0;
    }

    function Value(): Counts
      reads this
    {
      Counts(evaluated, created, updated, closedFixed, markedStale, reopened, skipped, telemetry, classifiedLow)
    }
  }

  /** What `iter_merged` yields, and whether it came to its end without raising. */
  datatype Stream = Stream(items: seq<Sighting>, complete: bool)

  class SyncOrchestrator {
    const cfg: Config
    const jira: JiraClient
    const store: StateStore

    ghost predicate Valid()
      reads this, jira, store
    {
      jira.cfg == cfg && jira.Valid() && Inv(Now())
    }

    function Now(): World
      reads this, jira, store
    {
      World(store.rows, jira.Here())
    }

    constructor (cfg: Config, jira: JiraClient, store: StateStore)
      requires jira.cfg == cfg && jira.Valid() && Inv(World(store.rows, jira.Here()))
      ensures Valid() && this.cfg == cfg && this.jira == jira && this.store == store
    {
      this.cfg, this.jira, this.store := cfg, jira, store;
    }

    /** Read the live resolution; flag the row when it is sticky. */
    method CheckSticky(pk: Pk, key: Key) returns (sticky: bool)
      modifies store`rows
      ensures sticky == IsSticky(cfg, ResolutionOf(jira.Here(), key))
      ensures store.rows == if sticky && pk in old(store.rows)
                            then old(store.rows)[pk := old(store.rows)[pk].(sticky := true,
                                   jiraResolution := ResolutionOf(jira.Here(), key))]
                            else old(store.rows)
    {
      var resolution := None;
      if key in jira.issues {
        resolution := jira.issues[key].resolution;
      }
      sticky := IsSticky(cfg, resolution);
      if sticky {
        store.SetSticky(pk, resolution.value);
      }
    }

    /** The transaction that began in `w` has made every planned write and stamped the row. */
    ghost predicate Did(w: World, s: Sighting, run: RunId, now: Seconds, dry: bool)
      reads this, jira, store
    {
      && jira.Valid() && jira.origin == w.site
      && jira.journal == (if dry then [] else Writes(cfg, w, s))
      && store.rows == w.rows[s.pk := NextRow(cfg, w, s, run, now, dry)]
    }

    /**
      Every planned write is made, the bookkeeping is done, and `key` is the key to record; only the stamp is
      missing.
     */
    ghost predicate Booked(w: World, s: Sighting, now: Seconds, dry: bool, key: Option<Key>)
      reads this, jira, store
    {
      var row, dec := Lookup(w.rows, s.pk), DecideIn(cfg, w, s);
      var booked := Bookkeep(cfg, row, dec, now, dry);
      && jira.Valid() && jira.origin == w.site
      && jira.journal == (if dry then [] else Writes(cfg, w, s))
      && (if row == booked then store.rows == w.rows else booked.Some? && store.rows == w.rows[s.pk := booked.value])
      && (if dec.Materialise? && !dry then key == Some(Target(w, s))
          else key.None? || (row.Some? && row.value.issueKey == key))
    }

    /** `_snapshot`. */
    method Snapshot(run: RunId, s: Sighting, key: Option<Key>, dry: bool, now: Seconds, ghost w: World)
      requires Booked(w, s, now, dry, key)
      modifies store`rows
      ensures Did(w, s, run, now, dry)
    {
      store.UpsertSeen(s, run, key);
    }

    /** It died: the writes made are a prefix of the planned ones. */
    ghost predicate DiedIn(w: World, s: Sighting, dry: bool)
      reads this, jira
    {
      && jira.Valid() && jira.origin == w.site
      && !dry && jira.journal <= Writes(cfg, w, s)
    }

    /** The transaction is at its start, in the world `w`. */
    ghost predicate AtStart(w: World)
      reads this, jira, store
    {
      Valid() && jira.journal == [] && jira.origin == jira.Here() && Now() == w
    }

    /** The Jira side of a return, and the clearing of the row's closed bookkeeping. */
    method ReopenIssue(s: Sighting, key: Key, ghost ws: seq<Write>) returns (o: Outcome)
      requires jira.Valid() && jira.journal == []
      requires s.pk in store.rows && ws == [Reopen(key), Update(key, s.BuildFields()), Comment(key, Reopened)]
      modifies jira`issues, jira`next, jira`journal, store`rows
      ensures jira.Valid() && jira.journal <= ws
      ensures o.Done? ==> jira.journal == ws
      ensures o.Done? ==> store.rows == old(store.rows)[s.pk :=
                old(store.rows)[s.pk].(closedAt := None, closedReason := None, purgedAt := None)]
    {
      o := jira.Perform(Reopen(key));
      if o.Died? {
        return;
      }
      :- jira.Perform(Update(key, s.BuildFields()));
      store.rows := store.rows[s.pk := store.rows[s.pk].(closedAt := None, closedReason := None, purgedAt := None)];
      :- jira.Perform(Comment(key, Reopened));
      return Done;
    }

    /** A purged issue whose detection is below the threshold stays closed. */
    method LeavePurged(run: RunId, s: Sighting, key: Key, summary: RunSummary, dry: bool, now: Seconds, ghost w: World)
      requires AtStart(w) && DecideIn(cfg, w, s) == SkipPurged && s.pk in w.rows && w.rows[s.pk].issueKey == Some(key)
      modifies store`rows, summary`skipped
      ensures Did(w, s, run, now, dry)
      ensures summary.Value() == Bump(old(summary.Value()), SkipPurged)
    {
      summary.skipped := summary.skipped + 1;
      Snapshot(run, s, Some(key), dry, now, w);
    }

    /** Reopen and rewrite the issue. */
    method TakeBack(run: RunId, s: Sighting, key: Key, summary: RunSummary, dry: bool, now: Seconds,
        ghost w: World) returns (o: Outcome)
      requires AtStart(w) && DecideIn(cfg, w, s) == Return && s.pk in w.rows && w.rows[s.pk].issueKey == Some(key)
      modifies jira`issues, jira`next, jira`journal, store`rows, summary`reopened
      ensures o.Done? ==> Did(w, s, run, now, dry)
      ensures o.Done? ==> summary.Value() == Bump(old(summary.Value()), Return)
      ensures o.Died? ==> DiedIn(w, s, dry)
    {
      summary.reopened := summary.reopened + 1;
      if !dry {
        :- ReopenIssue(s, key, Writes(cfg, w, s));
      }
      Snapshot(run, s, Some(key), dry, now, w);
      return Done;
    }

    /** A closed row is sighted again. */
    method HandleReturned(run: RunId, s: Sighting, row: Row, summary: RunSummary, dry: bool, now: Seconds,
        ghost w: World) returns (o: Outcome)
      requires AtStart(w)
      requires s.status != Some(Fixed) && Lookup(store.rows, s.pk) == Some(row)
      requires row.issueKey.Some? && row.closedAt.Some?
      modifies jira`issues, jira`next, jira`journal, store`rows, summary
      ensures o.Done? ==> Did(w, s, run, now, dry)
      ensures o.Done? ==> summary.Value() == Bump(old(summary.Value()), DecideIn(cfg, w, s))
      ensures o.Died? ==> DiedIn(w, s, dry)
    {
      var key := row.issueKey.value;
      ghost var dec := DecideIn(cfg, w, s);
      var sticky := CheckSticky(s.pk, key);
      if sticky {
        assert dec.HoldSticky?;
        Snapshot(run, s, Some(key), dry, now, w);
        return Done;
      }
      var closedByStale := row.closedReason == Some(Purged);
      if closedByStale && !cfg.reevaluateOnReturn {
        assert dec == HoldPurged;
        Snapshot(run, s, Some(key), dry, now, w);
        return Done;
      }
      if closedByStale && !s.create {
        assert dec == SkipPurged;
        LeavePurged(run, s, key, summary, dry, now, w);
        return Done;
      }
      assert dec == Return;
      o := TakeBack(run, s, key, summary, dry, now, w);
    }

    /** One PUT. */
    method PutFields(s: Sighting, key: Key, ghost ws: seq<Write>) returns (o: Outcome)
      requires jira.Valid() && jira.journal == [] && ws == [Update(key, s.BuildFields())]
      modifies jira`issues, jira`next, jira`journal
      ensures jira.Valid() && jira.journal <= ws
      ensures o.Done? ==> jira.journal == ws
    {
      o := jira.Perform(Update(key, s.BuildFields()));
    }

    method OpenIssue(s: Sighting, ghost ws: seq<Write>) returns (o: Outcome, key: Key)
      requires jira.Valid() && jira.journal == [] && ws == [Create(s.pk, s.BuildFields()), Comment(jira.next, Opened)]
      modifies jira`issues, jira`next, jira`journal
      ensures jira.Valid() && jira.journal <= ws
      ensures o.Done? ==> jira.journal == ws && key == old(jira.next)
    {
      key :- jira.CreateIssue(s.pk, s.BuildFields());
      :- jira.Perform(Comment(key, Opened));
      return Done, key;
    }

    /** Adopt the issue that already carries the primary key, or create one. */
    method MaterialiseIssue(s: Sighting, ghost w: World) returns (o: Outcome, key: Key)
      requires AtStart(w) && DecideIn(cfg, w, s) == Materialise
      modifies jira`issues, jira`next, jira`journal
      ensures jira.Valid() && jira.journal <= Writes(cfg, w, s)
      ensures o.Done? ==> jira.journal == Writes(cfg, w, s) && key == Target(w, s)
    {
      ghost var ws := Writes(cfg, w, s);
      var existing := jira.FindIssueByPrimaryKey(s.pk);
      if existing.Some? {
        key := existing.value;
        o := PutFields(s, key, ws);
      } else {
        o, key := OpenIssue(s, ws);
      }
    }

    /** Not to be created: the row is recorded, and the sighting counted as classified or skipped. */
    method RecordOnly(run: RunId, s: Sighting, summary: RunSummary, dry: bool, now: Seconds, ghost w: World)
      requires AtStart(w) && DecideIn(cfg, w, s) == if s.classified then Classify else SkipNew
      modifies store`rows, summary`classifiedLow, summary`skipped
      ensures Did(w, s, run, now, dry)
      ensures summary.Value() == Bump(old(summary.Value()), if s.classified then Classify else SkipNew)
    {
      if s.classified {
        summary.classifiedLow := summary.classifiedLow + 1;
      } else {
        summary.skipped := summary.skipped + 1;
      }
      Snapshot(run, s, None, dry, now, w);
    }

    /** To be created. */
    method BringIn(run: RunId, s: Sighting, summary: RunSummary, dry: bool, now: Seconds, ghost w: World)
      returns (o: Outcome)
      requires AtStart(w) && DecideIn(cfg, w, s) == Materialise
      modifies jira`issues, jira`next, jira`journal, store`rows, summary`created
      ensures o.Done? ==> Did(w, s, run, now, dry)
      ensures o.Done? ==> summary.Value() == Bump(old(summary.Value()), Materialise)
      ensures o.Died? ==> DiedIn(w, s, dry)
    {
      summary.created := summary.created + 1;
      var key := None;
      if !dry {
        var k :- MaterialiseIssue(s, w);
        key := Some(k);
      }
      Snapshot(run, s, key, dry, now, w);
      return Done;
    }

    /** No open issue, and no closed one either. */
    method HandleNoIssue(run: RunId, s: Sighting, summary: RunSummary, dry: bool, now: Seconds, ghost w: World)
      returns (o: Outcome)
      requires AtStart(w)
      requires s.status != Some(Fixed)
      requires s.pk in store.rows ==> store.rows[s.pk].issueKey.None?
      modifies jira`issues, jira`next, jira`journal, store`rows, summary
      ensures o.Done? ==> Did(w, s, run, now, dry)
      ensures o.Done? ==> summary.Value() == Bump(old(summary.Value()), DecideIn(cfg, w, s))
      ensures o.Died? ==> DiedIn(w, s, dry)
    {
      ghost var dec := DecideIn(cfg, w, s);
      if !s.create {
        assert dec == if s.classified then Classify else SkipNew;
        RecordOnly(run, s, summary, dry, now, w);
        return Done;
      }
      assert dec == Materialise;
      o := BringIn(run, s, summary, dry, now, w);
    }

    /** The Jira side of a fix, and the closing of the row. */
    method CloseIssue(s: Sighting, key: Key, now: Seconds, ghost ws: seq<Write>) returns (o: Outcome)
      requires jira.Valid() && jira.journal == []
      requires s.pk in store.rows && ws == [Close(key, cfg.resolutionFixed), Comment(key, Closed)]
      modifies jira`issues, jira`next, jira`journal, store`rows
      ensures jira.Valid() && jira.journal <= ws
      ensures o.Done? ==> jira.journal == ws
      ensures o.Done? ==> store.rows == old(store.rows)[s.pk :=
                CloseRow(old(store.rows)[s.pk], Remediated, cfg.resolutionFixed, now)]
    {
      o := jira.Perform(Close(key, cfg.resolutionFixed));
      if o.Died? {
        return;
      }
      store.RecordClosed(s.pk, Remediated, cfg.resolutionFixed, now);
      :- jira.Perform(Comment(key, Closed));
      return Done;
    }

    /** Qualys reports the detection fixed. */
    method HandleFixed(run: RunId, s: Sighting, open: Option<Key>, summary: RunSummary, dry: bool, now: Seconds,
        ghost w: World) returns (o: Outcome)
      requires AtStart(w) && s.status == Some(Fixed) && open == OpenKey(Lookup(store.rows, s.pk))
      modifies jira`issues, jira`next, jira`journal, store`rows, summary
      ensures o.Done? ==> Did(w, s, run, now, dry)
      ensures o.Done? ==> summary.Value() == Bump(old(summary.Value()), DecideIn(cfg, w, s))
      ensures o.Died? ==> DiedIn(w, s, dry)
    {
      var sticky := false;
      if open.Some? {
        sticky := CheckSticky(s.pk, open.value);
      }
      if open.Some? && !sticky {
        assert DecideIn(cfg, w, s) == CloseFixed;
        summary.closedFixed := summary.closedFixed + 1;
        if !dry {
          :- CloseIssue(s, open.value, now, Writes(cfg, w, s));
        }
      }
      Snapshot(run, s, open, dry, now, w);
      return Done;
    }

    /** One sighting inside its transaction. */
    method ProcessDetection(run: RunId, s: Sighting, summary: RunSummary, dry: bool, now: Seconds, ghost w: World)
      returns (o: Outcome)
      requires AtStart(w)
      modifies jira`issues, jira`next, jira`journal, store`rows, summary
      ensures o.Done? ==> Did(w, s, run, now, dry)
      ensures o.Done? ==> summary.Value() == Tally(old(summary.Value()), DecideIn(cfg, w, s))
      ensures o.Died? ==> DiedIn(w, s, dry)
    {
      ghost var before := summary.Value();
      summary.evaluated := summary.evaluated + 1;
      assert summary.Value() == before.(evaluated := before.evaluated + 1);
      assert Tally(before, DecideIn(cfg, w, s)) == Bump(summary.Value(), DecideIn(cfg, w, s));
      var row := Lookup(store.rows, s.pk);
      var open := OpenKey(row);
      if s.status == Some(Fixed) {
        o := HandleFixed(run, s, open, summary, dry, now, w);
        return;
      }
      if row.Some? && row.value.issueKey.Some? && row.value.closedAt.Some? {
        o := HandleReturned(run, s, row.value, summary, dry, now, w);
        return;
      }
      if open.None? {
        o := HandleNoIssue(run, s, summary, dry, now, w);
        return;
      }
      o := HandleOpen(run, s, row.value, open.value, summary, dry, now, w);
    }

    /** An open issue whose detection is now below the threshold. */
    method HandleDrift(run: RunId, s: Sighting, key: Key, summary: RunSummary, dry: bool, now: Seconds, ghost w: World)
      requires AtStart(w) && DecideIn(cfg, w, s) == Drift && s.pk in w.rows && w.rows[s.pk].issueKey == Some(key)
      modifies store`rows, summary`skipped
      ensures Did(w, s, run, now, dry)
      ensures summary.Value() == Bump(old(summary.Value()), Drift)
    {
      summary.skipped := summary.skipped + 1;
      Snapshot(run, s, Some(key), dry, now, w);
    }

    /** No material change: the row is refreshed, Jira is not. */
    method RecordTelemetry(run: RunId, s: Sighting, key: Key, summary: RunSummary, dry: bool, now: Seconds,
        ghost w: World)
      requires AtStart(w) && DecideIn(cfg, w, s) == Telemetry && s.pk in w.rows && w.rows[s.pk].issueKey == Some(key)
      modifies store`rows, summary`telemetry
      ensures Did(w, s, run, now, dry)
      ensures summary.Value() == Bump(old(summary.Value()), Telemetry)
    {
      summary.telemetry := summary.telemetry + 1;
      Snapshot(run, s, Some(key), dry, now, w);
    }

    /** A material change: one PUT. */
    method PutMaterial(run: RunId, s: Sighting, key: Key, summary: RunSummary, dry: bool, now: Seconds,
        ghost w: World) returns (o: Outcome)
      requires AtStart(w) && DecideIn(cfg, w, s) == Put && s.pk in w.rows && w.rows[s.pk].issueKey == Some(key)
      modifies jira`issues, jira`next, jira`journal, store`rows, summary`updated
      ensures o.Done? ==> Did(w, s, run, now, dry)
      ensures o.Done? ==> summary.Value() == Bump(old(summary.Value()), Put)
      ensures o.Died? ==> DiedIn(w, s, dry)
    {
      summary.updated := summary.updated + 1;
      if !dry {
        :- PutFields(s, key, Writes(cfg, w, s));
      }
      Snapshot(run, s, Some(key), dry, now, w);
      return Done;
    }

    /** An open issue and an active detection. */
    method HandleOpen(run: RunId, s: Sighting, row: Row, key: Key, summary: RunSummary, dry: bool, now: Seconds,
        ghost w: World) returns (o: Outcome)
      requires AtStart(w) && s.status != Some(Fixed) && Lookup(store.rows, s.pk) == Some(row)
      requires row.closedAt.None? && row.issueKey == Some(key)
      modifies jira`issues, jira`next, jira`journal, store`rows, summary
      ensures o.Done? ==> Did(w, s, run, now, dry)
      ensures o.Done? ==> summary.Value() == Bump(old(summary.Value()), DecideIn(cfg, w, s))
      ensures o.Died? ==> DiedIn(w, s, dry)
    {
      ghost var dec := DecideIn(cfg, w, s);
      var sticky := CheckSticky(s.pk, key);
      if sticky {
        assert dec.HoldSticky?;
        Snapshot(run, s, Some(key), dry, now, w);
        return Done;
      }
      if !s.create {
        assert dec == Drift;
        HandleDrift(run, s, key, summary, dry, now, w);
        return Done;
      }
      if row.materialHash == Some(s.sig) {
        assert dec == Telemetry;
        RecordTelemetry(run, s, key, summary, dry, now, w);
        return Done;
      }
      assert dec == Put;
      o := PutMaterial(run, s, key, summary, dry, now, w);
    }

    // -------------------------------------------------------------- the purge pass

    /** Close one stale row's issue, relabel it, and record the closure. */
    method CloseStale(pk: Pk, key: Key, now: Seconds, ghost w: World, ghost done: set<Pk>)
      returns (o: Outcome, ghost labelled: bool, ghost closed: bool)
      requires Inv(w) && pk in w.rows && w.rows[pk].issueKey == Some(key) && pk !in done
      requires jira.cfg == cfg && jira.Valid() && jira.Here() == PurgedSite(cfg, w, done, done)
      requires pk in store.rows
      modifies jira`issues, jira`next, jira`journal, store`rows
      ensures jira.Valid()
      ensures labelled ==> closed
      ensures jira.Here() == PurgedSite(cfg, w, if closed then done + {pk} else done,
                                        if labelled then done + {pk} else done)
      ensures o.Done? ==>
                && labelled
                && store.rows == old(store.rows)[pk := CloseRow(old(store.rows)[pk], Purged, cfg.resolutionStale, now)]
    {
      labelled, closed := false, false;
      PurgeCloses(cfg, w, done, done, pk, key);
      :- jira.Perform(Close(key, cfg.resolutionStale));
      closed := true;
      var labels := jira.issues[key].fields.labels;
      if cfg.managedLabel !in labels {
        labels := labels + [cfg.managedLabel];
      }
      if cfg.staleLabel !in labels {
        labels := labels + [cfg.staleLabel];
      }
      PurgeRelabels(cfg, w, done + {pk}, done, pk, key);
      :- jira.Perform(Relabel(key, labels));
      labelled := true;
      store.RecordClosed(pk, Purged, cfg.resolutionStale, now);
      return Done, labelled, closed;
    }

    /** One missed row. */
    method VisitMissed(pk: Pk, run: RunId, summary: RunSummary, dry: bool, now: Seconds, ghost w: World,
        ghost done: set<Pk>)
      returns (o: Outcome, ghost labelled: bool, ghost closed: bool)
      requires Inv(w) && pk in w.rows && Missed(w.rows[pk], run) && pk !in done
      requires pk in store.rows && store.rows[pk] == w.rows[pk].(misses := w.rows[pk].misses + 1)
      requires jira.cfg == cfg && jira.Valid()
      requires jira.Here() == if dry then w.site else PurgedSite(cfg, w, done, done)
      modifies jira`issues, jira`next, jira`journal, store`rows, summary`markedStale
      ensures jira.Valid()
      ensures labelled ==> closed
      ensures closed ==> GoesStale(cfg, w, pk, run, now) && !dry
      ensures !dry ==> jira.Here() == PurgedSite(cfg, w, if closed then done + {pk} else done,
                                                 if labelled then done + {pk} else done)
      ensures dry ==> o.Done? && jira.Here() == w.site
      ensures o.Done? ==> store.rows == old(store.rows)[pk := PurgedRow(cfg, w, pk, run, now, dry)]
      ensures o.Done? && !dry ==> labelled == GoesStale(cfg, w, pk, run, now)
      ensures o.Done? ==> summary.markedStale ==
                          old(summary.markedStale) + if GoesStale(cfg, w, pk, run, now) then 1 else 0
    {
      labelled, closed := false, false;
      var row := store.rows[pk];
      var key := row.issueKey.value;
      if !dry {
        UntouchedResolution(cfg, w, done, pk, key);
      }
      var sticky := CheckSticky(pk, key);
      if sticky {
        return Done, labelled, closed;
      }
      if !ClassifyMissing(row, cfg, now) {
        return Done, labelled, closed;
      }
      summary.markedStale := summary.markedStale + 1;
      if !dry {
        o, labelled, closed := CloseStale(pk, key, now, w, done);
        if o.Died? {
          return;
        }
      }
      return Done, labelled, closed;
    }

    /** Visit the `i`th missed row, the ones before it having been visited. */
    method VisitNext(missed: seq<Pk>, i: nat, run: RunId, summary: RunSummary, dry: bool, now: Seconds,
        ghost w: World)
      returns (o: Outcome, ghost closing: set<Pk>, ghost labelling: set<Pk>)
      requires Inv(w) && i < |missed| && (forall j, k :: 0 <= j < k < |missed| ==> missed[j] != missed[k])
      requires missed[i] in w.rows && Missed(w.rows[missed[i]], run)
      requires jira.cfg == cfg && jira.Valid() && PurgedSoFar(cfg, w, store.rows, missed, i, run, now, dry)
      requires jira.Here() == SiteSoFar(cfg, w, missed, i, run, now, dry)
      modifies jira`issues, jira`next, jira`journal, store`rows, summary`markedStale
      ensures jira.Valid()
      ensures o.Done? ==> PurgedSoFar(cfg, w, store.rows, missed, i + 1, run, now, dry)
      ensures o.Done? ==> jira.Here() == SiteSoFar(cfg, w, missed, i + 1, run, now, dry)
      ensures o.Done? ==> summary.markedStale + |DoneSet(cfg, w, missed, i, run, now)| ==
                          old(summary.markedStale) + |DoneSet(cfg, w, missed, i + 1, run, now)|
      ensures o.Died? ==> && !dry && labelling <= closing <= StaleSet(cfg, w, run, now)
                          && jira.Here() == PurgedSite(cfg, w, closing, labelling)
    {
      ghost var done, labelled, closed := DoneSet(cfg, w, missed, i, run, now), false, false;
      var pk := missed[i];
      DoneGrows(cfg, w, missed, i, run, now);
      OneMorePurged(cfg, w, store.rows, missed, i, run, now, dry);
      o, labelled, closed := VisitMissed(pk, run, summary, dry, now, w, done);
      closing := if closed then done + {pk} else done;
      labelling := if labelled then done + {pk} else done;
    }

    /** Visit the missed rows, in whatever order they come. */
    method VisitAll(missed: seq<Pk>, run: RunId, summary: RunSummary, dry: bool, now: Seconds, ghost w: World)
      returns (o: Outcome, ghost closing: set<Pk>, ghost labelling: set<Pk>)
      requires Inv(w) && (forall j, k :: 0 <= j < k < |missed| ==> missed[j] != missed[k])
      requires forall pk :: pk in missed ==> pk in w.rows && Missed(w.rows[pk], run)
      requires jira.cfg == cfg && jira.Valid() && PurgedSoFar(cfg, w, store.rows, missed, 0, run, now, dry)
      requires jira.Here() == w.site
      modifies jira`issues, jira`next, jira`journal, store`rows, summary`markedStale
      ensures jira.Valid()
      ensures o.Done? ==> && PurgedSoFar(cfg, w, store.rows, missed, |missed|, run, now, dry)
                          && jira.Here() == SiteSoFar(cfg, w, missed, |missed|, run, now, dry)
                          && summary.markedStale ==
                             old(summary.markedStale) + |DoneSet(cfg, w, missed, |missed|, run, now)|
      ensures o.Died? ==> && !dry && labelling <= closing <= StaleSet(cfg, w, run, now)
                          && jira.Here() == PurgedSite(cfg, w, closing, labelling)
    {
      closing, labelling := {}, {};
      NoPurge(cfg, w);
      assert DoneSet(cfg, w, missed, 0, run, now) == {};
      var i := 0;
      while i < |missed|
        invariant 0 <= i <= |missed| && jira.Valid()
        invariant PurgedSoFar(cfg, w, store.rows, missed, i, run, now, dry)
        invariant jira.Here() == SiteSoFar(cfg, w, missed, i, run, now, dry)
        invariant summary.markedStale == old(summary.markedStale) + |DoneSet(cfg, w, missed, i, run, now)|
      {
        assert missed[i] in missed;
        o, closing, labelling := VisitNext(missed, i, run, summary, dry, now, w);
        if o.Died? {
          return;
        }
        i := i + 1;
      }
      return Done, closing, labelling;
    }

    /** Count the misses and close what has gone stale. */
    method PurgePass(run: RunId, summary: RunSummary, dry: bool, now: Seconds)
      returns (o: Outcome, ghost closing: set<Pk>, ghost labelling: set<Pk>)
      requires Valid()
      modifies jira`issues, jira`next, jira`journal, store`rows, summary`markedStale
      ensures jira.Valid()
      ensures o.Done? ==> Now() == Purge(cfg, old(Now()), run, now, dry)
      ensures o.Done? ==> summary.markedStale == old(summary.markedStale) + |StaleSet(cfg, old(Now()), run, now)|
      ensures o.Died? ==> && !dry && labelling <= closing <= StaleSet(cfg, old(Now()), run, now)
                          && jira.Here() == PurgedSite(cfg, old(Now()), closing, labelling)
    {
      ghost var w := Now();
      var missed := store.MarkMissed(run);
      assert missed[..0] == [];
      o, closing, labelling := VisitAll(missed, run, summary, dry, now, w);
      if o.Done? {
        AllDone(cfg, w, missed, run, now);
        AllPurged(cfg, w, store.rows, jira.Here(), missed, run, now, dry);
      }
    }

    // -------------------------------------------------------------- transactions and runs

    /** The world and the runs are where the history `es` from `st` leads, in phase `phase`. */
    ghost predicate Follows(st: State, es: seq<Event>, phase: Phase)
      reads this, jira, store
    {
      && Legal(cfg, st, es)
      && var here := Exec(cfg, st, es);
         && here.w == Now() && here.runs == store.runs && here.phase == phase
         && (!phase.Idle? ==> phase.run == |store.runs| - 1)
    }

    /** One sighting, from `session_scope` to commit or rollback. */
    method SightTransaction(run: RunId, s: Sighting, summary: RunSummary, dry: bool, now: Seconds)
      returns (o: Outcome, ghost n: nat)
      requires Valid() && store.Clean()
      modifies jira, store, summary
      ensures Valid() && store.Clean() && store.runs == old(store.runs)
      ensures n <= if dry then 0 else |Writes(cfg, old(Now()), s)|
      ensures o.Done? ==> Now() == Step(cfg, old(Now()), s, run, now, dry)
      ensures o.Done? ==> summary.Value() == Tally(old(summary.Value()), DecideIn(cfg, old(Now()), s))
      ensures o.Died? ==> Now() == CutStep(cfg, old(Now()), s, n)
    {
      ghost var w := Now();
      jira.Mark();
      var done := ProcessDetection(run, s, summary, dry, now, w);
      n := if dry then 0 else |jira.journal|;
      StepKeepsInv(cfg, w, s, run, now, dry);
      CutStepKeepsInv(cfg, w, s, n);
      assert jira.journal == Writes(cfg, w, s)[..n];
      o := store.Close(done);
    }

    /** The purge pass, from `session_scope` to commit or rollback. */
    method PurgeTransaction(run: RunId, summary: RunSummary, dry: bool, now: Seconds)
      returns (o: Outcome, ghost closing: set<Pk>, ghost labelling: set<Pk>)
      requires Valid() && store.Clean()
      modifies jira, store, summary`markedStale
      ensures Valid() && store.Clean() && store.runs == old(store.runs)
      ensures o.Done? ==> Now() == Purge(cfg, old(Now()), run, now, dry)
      ensures o.Done? ==> summary.markedStale == old(summary.markedStale) + |StaleSet(cfg, old(Now()), run, now)|
      ensures o.Died? ==> && labelling <= closing <= (if dry then {} else StaleSet(cfg, old(Now()), run, now))
                          && Now() == CutPurge(cfg, old(Now()), closing, labelling)
    {
      ghost var w := Now();
      var done;
      done, closing, labelling := PurgePass(run, summary, dry, now);
      if done.Done? {
        closing := if dry then {} else StaleSet(cfg, w, run, now);
        labelling := closing;
      }
      PurgeKeepsInv(cfg, w, run, now, dry);
      CutPurgeKeepsInv(cfg, w, closing, labelling);
      o := store.Close(done);
    }

    /** `_finish_run`. */
    method FinishRun(run: RunId, status: RunStatus) returns (o: Outcome)
      requires store.Clean() && run < |store.runs|
      modifies store
      ensures store.Clean() && store.rows == old(store.rows)
      ensures store.runs == if o.Done? then old(store.runs)[run := old(store.runs)[run].(status := status)]
                            else old(store.runs)
    {
      store.runs := store.runs[run := store.runs[run].(status := status)];
      o := store.Close(Done);
    }

    /** One sighting of the stream. When it dies, the run is marked failed if that can still be committed. */
    method SightOne(run: RunId, mode: Mode, s: Sighting, summary: RunSummary, dry: bool, now: Seconds,
        ghost st: State, ghost es: seq<Event>)
      returns (o: Outcome, ghost es': seq<Event>)
      requires Valid() && store.Clean() && Follows(st, es, Fetching(run, mode, dry)) && run < |store.runs|
      modifies jira, store, summary
      ensures Valid() && store.Clean()
      ensures o.Done? ==> && Follows(st, es', Fetching(run, mode, dry)) && store.runs == old(store.runs)
                          && Now() == Step(cfg, old(Now()), s, run, now, dry)
                          && summary.Value() == Tally(old(summary.Value()), DecideIn(cfg, old(Now()), s))
      ensures o.Died? ==> Follows(st, es', Idle) && Unfinished(run, old(store.runs))
    {
      ghost var n;
      o, n := SightTransaction(run, s, summary, dry, now);
      ghost var e := Event.Sight(s, now);
      if o.Died? {
        var recorded := FinishRun(run, Failed);
        e := SightDies(s, n, recorded.Done?);
      }
      GoOn(cfg, st, es, e);
      es' := es + [e];
    }

    /** The run is still recorded as running, or as failed; no other run has changed. */
    ghost predicate Unfinished(run: RunId, was: seq<SyncRun>)
      requires run < |was|
      reads this, store
    {
      store.runs == was || store.runs == was[run := was[run].(status := Failed)]
    }

    /** The loop over the stream. */
    method SightAll(run: RunId, mode: Mode, items: seq<Sighting>, summary: RunSummary, dry: bool, now: Seconds,
        ghost st: State, ghost es: seq<Event>)
      returns (o: Outcome, ghost es': seq<Event>)
      requires Valid() && store.Clean() && Follows(st, es, Fetching(run, mode, dry)) && run < |store.runs|
      modifies jira, store, summary
      ensures Valid() && store.Clean()
      ensures o.Done? ==> && Follows(st, es', Fetching(run, mode, dry)) && store.runs == old(store.runs)
                          && Now() == StepAll(cfg, old(Now()), items, run, now, dry)
                          && summary.Value() == TallyAll(cfg, old(Now()), old(summary.Value()), items, run, now, dry)
      ensures o.Died? ==> Follows(st, es', Idle) && Unfinished(run, old(store.runs))
    {
      es' := es;
      var i := 0;
      assert items[0..] == items;
      while i < |items|
        invariant i <= |items| && Valid() && store.Clean() && store.runs == old(store.runs)
        invariant Follows(st, es', Fetching(run, mode, dry))
        invariant StepAll(cfg, Now(), items[i..], run, now, dry) == StepAll(cfg, old(Now()), items, run, now, dry)
        invariant TallyAll(cfg, Now(), summary.Value(), items[i..], run, now, dry) ==
                  TallyAll(cfg, old(Now()), old(summary.Value()), items, run, now, dry)
      {
        assert items[i..][0] == items[i] && items[i..][1..] == items[i + 1..];
        o, es' := SightOne(run, mode, items[i], summary, dry, now, st, es');
        if o.Died? {
          return;
        }
        i := i + 1;
      }
      o := Done;
    }

    /** Open the run and consume the stream; `es` and `phase` say how far the history has got. */
    method Fetch(dry: bool, mode: Mode, source: Option<Micros> -> Stream, summary: RunSummary, at: Micros,
        now: Seconds, ghost st: State)
      returns (o: Outcome, run: RunId, ghost es: seq<Event>)
      requires Valid() && store.Clean() && Follows(st, [], Idle)
      modifies jira, store, summary
      ensures Valid() && store.Clean() && run == |old(store.runs)|
      ensures var stream := source(ComputeSince(old(store.runs), mode, cfg.overlap));
              o.Done? ==>
                && stream.complete && Follows(st, es, Fetched(run, mode, dry))
                && Now() == StepAll(cfg, old(Now()), stream.items, run, now, dry)
                && summary.Value() == TallyAll(cfg, old(Now()), old(summary.Value()), stream.items, run, now, dry)
                && store.runs == old(store.runs) + [SyncRun(mode, Running, at)]
      ensures o.Died? ==> && Follows(st, es, Idle)
                          && (store.runs == old(store.runs) ||
                              Unfinished(run, old(store.runs) + [SyncRun(mode, Running, at)]))
    {
      es := [];
      run := |store.runs|;
      var since := ComputeSince(store.runs, mode, cfg.overlap);
      store.runs := store.runs + [SyncRun(mode, Running, at)];
      o := store.Close(Done);
      if o.Died? {
        return;
      }
      GoOn(cfg, st, [], Start(mode, dry, at));
      var stream := source(since);
      o, es := SightAll(run, mode, stream.items, summary, dry, now, st, [] + [Start(mode, dry, at)]);
      if o.Died? {
        return;
      }
      ghost var e := FetchEnds;
      if !stream.complete {
        var recorded := FinishRun(run, Failed);
        e := if recorded.Done? then FetchFails else Killed;
        o := Died;
      }
      GoOn(cfg, st, es, e);
      es := es + [e];
    }

    /** The purge pass of a full run. */
    method SweepUp(run: RunId, summary: RunSummary, dry: bool, now: Seconds, ghost st: State, ghost es: seq<Event>)
      returns (o: Outcome, ghost es': seq<Event>)
      requires Valid() && store.Clean() && Follows(st, es, Fetched(run, Full, dry))
      modifies jira, store, summary`markedStale
      ensures Valid() && store.Clean() && store.runs == old(store.runs)
      ensures Follows(st, es', if o.Done? then Swept(run) else Idle)
      ensures o.Done? ==> Now() == Purge(cfg, old(Now()), run, now, dry)
      ensures o.Done? ==> summary.markedStale == old(summary.markedStale) + |StaleSet(cfg, old(Now()), run, now)|
    {
      ghost var closing, labelling;
      o, closing, labelling := PurgeTransaction(run, summary, dry, now);
      ghost var e := if o.Done? then Event.PurgePass(now) else PurgePassDies(now, closing, labelling);
      GoOn(cfg, st, es, e);
      es' := es + [e];
    }

    /** Record the run as successful. */
    method Succeed(run: RunId, ghost phase: Phase, ghost st: State, ghost es: seq<Event>)
      returns (o: Outcome, ghost es': seq<Event>)
      requires Valid() && store.Clean() && Follows(st, es, phase) && run < |store.runs|
      requires phase == Swept(run) || (phase.Fetched? && phase.run == run && phase.mode == Incremental)
      modifies store
      ensures Valid() && store.Clean() && Follows(st, es', Idle) && store.rows == old(store.rows)
      ensures store.runs == if o.Done? then old(store.runs)[run := old(store.runs)[run].(status := Success)]
                            else old(store.runs)
    {
      o := FinishRun(run, Success);
      ghost var e := if o.Done? then Finish else Killed;
      GoOn(cfg, st, es, e);
      es' := es + [e];
    }

    /** After a complete stream: the purge pass of a full run, and the successful finish. */
    method Conclude(run: RunId, mode: Mode, summary: RunSummary, dry: bool, now: Seconds, ghost st: State,
        ghost es: seq<Event>)
      returns (o: Outcome, ghost es': seq<Event>)
      requires Valid() && store.Clean() && Follows(st, es, Fetched(run, mode, dry)) && run < |store.runs|
      modifies jira, store, summary`markedStale
      ensures Valid() && store.Clean() && Follows(st, es', Idle)
      ensures o.Done? ==> && Now() == (if mode == Full then Purge(cfg, old(Now()), run, now, dry) else old(Now()))
                          && summary.Value() == old(summary.Value()).(markedStale := old(summary.markedStale)
                               + if mode == Full then |StaleSet(cfg, old(Now()), run, now)| else 0)
                          && store.runs == old(store.runs)[run := old(store.runs)[run].(status := Success)]
      ensures o.Died? ==> store.runs == old(store.runs)
    {
      es' := es;
      ghost var phase := Fetched(run, mode, dry);
      if mode == Full {
        o, es' := SweepUp(run, summary, dry, now, st, es');
        if o.Died? {
          return;
        }
        phase := Swept(run);
      }
      o, es' := Succeed(run, phase, st, es');
    }

    /**
      One sync cycle. Whatever happens, it is a legal history; if it completes, it has done exactly what the
      specification of a complete run says, with exactly its counters.
     */
    method Run(dry: bool, mode: Mode, source: Option<Micros> -> Stream, at: Micros, now: Seconds, ghost st: State)
      returns (o: Outcome, summary: RunSummary, ghost es: seq<Event>)
      requires Valid() && store.Clean() && Follows(st, [], Idle)
      modifies jira, store
      ensures Valid() && store.Clean() && fresh(summary) && Follows(st, es, Idle)
      ensures var run := |old(store.runs)|;
              var stream := source(ComputeSince(old(store.runs), mode, cfg.overlap));
              o.Done? ==>
                && stream.complete
                && Now() == Lifecycle.Run(cfg, old(Now()), stream.items, run, now, mode == Full, dry)
                && summary.Value() == RunCounts(cfg, old(Now()), stream.items, run, now, mode == Full, dry)
                && store.runs == old(store.runs) + [SyncRun(mode, Success, at)]
      ensures o.Died? ==> || store.runs == old(store.runs)
                          || Unfinished(|old(store.runs)|, old(store.runs) + [SyncRun(mode, Running, at)])
    {
      summary := new RunSummary();
      ghost var w := Now();
      var run;
      o, run, es := Fetch(dry, mode, source, summary, at, now, st);
      if o.Died? {
        return;
      }
      ghost var items := source(ComputeSince(old(store.runs), mode, cfg.overlap)).items;
      assert Now() == StepAll(cfg, w, items, run, now, dry);
      assert summary.Value() == TallyAll(cfg, w, ZERO_COUNTS, items, run, now, dry);
      WholeRun(cfg, w, items, run, now, mode == Full, dry);
      RunFinishes(old(store.runs), mode, at);
      o, es := Conclude(run, mode, summary, dry, now, st, es);
    }
  }

  /** The rows so far: visited ones are final, the other missed ones only counted. */
  predicate PurgedSoFar(cfg: Config, w: World, rows: map<Pk, Row>, missed: seq<Pk>, i: nat, run: RunId,
      now: Seconds, dry: bool)
    requires i <= |missed|
  {
    && rows.Keys == w.rows.Keys
    && forall pk :: pk in w.rows ==>
         rows[pk] == if pk in missed[..i] then PurgedRow(cfg, w, pk, run, now, dry)
                     else if pk in missed then w.rows[pk].(misses := w.rows[pk].misses + 1)
                     else w.rows[pk]
  }

  lemma OneMorePurged(cfg: Config, w: World, rows: map<Pk, Row>, missed: seq<Pk>, i: nat, run: RunId, now: Seconds,
      dry: bool)
    requires i < |missed| && (forall j, k :: 0 <= j < k < |missed| ==> missed[j] != missed[k])
    requires missed[i] in w.rows && PurgedSoFar(cfg, w, rows, missed, i, run, now, dry)
    ensures rows[missed[i]] == w.rows[missed[i]].(misses := w.rows[missed[i]].misses + 1)
    ensures var row := PurgedRow(cfg, w, missed[i], run, now, dry);
            PurgedSoFar(cfg, w, rows[missed[i] := row], missed, i + 1, run, now, dry)
  {
    var pk := missed[i];
    assert missed[..i + 1] == missed[..i] + [pk] && pk !in missed[..i];
    assert pk in missed;
  }

  /** The rows that have gone stale among the first `i` missed ones. */
  ghost function DoneSet(cfg: Config, w: World, missed: seq<Pk>, i: nat, run: RunId, now: Seconds): set<Pk>
    requires i <= |missed|
  {
    set pk | pk in missed[..i] && pk in w.rows && GoesStale(cfg, w, pk, run, now)
  }

  /** The site when the first `i` missed rows have been visited. */
  ghost function SiteSoFar(cfg: Config, w: World, missed: seq<Pk>, i: nat, run: RunId, now: Seconds, dry: bool): Site
    requires i <= |missed|
  {
    var done := DoneSet(cfg, w, missed, i, run, now);
    if dry then w.site else PurgedSite(cfg, w, done, done)
  }

  lemma DoneGrows(cfg: Config, w: World, missed: seq<Pk>, i: nat, run: RunId, now: Seconds)
    requires i < |missed| && (forall j, k :: 0 <= j < k < |missed| ==> missed[j] != missed[k])
    requires missed[i] in w.rows
    ensures missed[i] !in DoneSet(cfg, w, missed, i, run, now)
    ensures DoneSet(cfg, w, missed, i + 1, run, now) ==
            if GoesStale(cfg, w, missed[i], run, now) then DoneSet(cfg, w, missed, i, run, now) + {missed[i]}
            else DoneSet(cfg, w, missed, i, run, now)
    ensures DoneSet(cfg, w, missed, i + 1, run, now) <= StaleSet(cfg, w, run, now)
    ensures DoneSet(cfg, w, missed, i, run, now) <= StaleSet(cfg, w, run, now)
  {
    assert missed[..i + 1] == missed[..i] + [missed[i]];
  }

  lemma AllDone(cfg: Config, w: World, missed: seq<Pk>, run: RunId, now: Seconds)
    requires forall pk :: pk in missed <==> pk in w.rows && Missed(w.rows[pk], run)
    ensures DoneSet(cfg, w, missed, |missed|, run, now) == StaleSet(cfg, w, run, now)
  {
    assert missed[..|missed|] == missed;
  }

  /** Every missed row visited, what is left is the purge pass as specified. */
  lemma AllPurged(cfg: Config, w: World, rows: map<Pk, Row>, site: Site, missed: seq<Pk>, run: RunId, now: Seconds,
      dry: bool)
    requires PurgedSoFar(cfg, w, rows, missed, |missed|, run, now, dry)
    requires forall pk :: pk in missed <==> pk in w.rows && Missed(w.rows[pk], run)
    requires var stale := StaleSet(cfg, w, run, now);
             site == if dry then w.site else PurgedSite(cfg, w, stale, stale)
    ensures World(rows, site) == Purge(cfg, w, run, now, dry)
  {
    assert missed[..|missed|] == missed;
    NoPurge(cfg, w);
    assert rows == Purge(cfg, w, run, now, dry).rows;
  }

  /** A run recorded as running and then as successful is recorded as successful. */
  lemma RunFinishes(runs: seq<SyncRun>, mode: Mode, at: Micros)
    ensures var open := runs + [SyncRun(mode, Running, at)];
            open[|runs| := open[|runs|].(status := Success)] == runs + [SyncRun(mode, Success, at)]
  {
  }

  /** Sightings do not touch the stale counter. */
  lemma {:induction false} CountsKeepStale(cfg: Config, w: World, c: Counts, ss: seq<Sighting>, run: RunId,
      now: Seconds, dry: bool)
    ensures TallyAll(cfg, w, c, ss, run, now, dry).markedStale == c.markedStale
    decreases |ss|
  {
    if ss != [] {
      var w' := Step(cfg, w, ss[0], run, now, dry);
      CountsKeepStale(cfg, w', Tally(c, DecideIn(cfg, w, ss[0])), ss[1..], run, now, dry);
    }
  }

  /** A complete run is its sightings and then, if it is full, its purge pass. */
  lemma WholeRun(cfg: Config, w: World, ss: seq<Sighting>, run: RunId, now: Seconds, full: bool, dry: bool)
    ensures var seen, c := StepAll(cfg, w, ss, run, now, dry), TallyAll(cfg, w, ZERO_COUNTS, ss, run, now, dry);
            && Lifecycle.Run(cfg, w, ss, run, now, full, dry) ==
               (if full then Purge(cfg, seen, run, now, dry) else seen)
            && RunCounts(cfg, w, ss, run, now, full, dry) ==
               c.(markedStale := c.markedStale + if full then |StaleSet(cfg, seen, run, now)| else 0)
  {
    CountsKeepStale(cfg, w, ZERO_COUNTS, ss, run, now, dry);
  }

  lemma NoPurge(cfg: Config, w: World)
    ensures PurgedSite(cfg, w, {}, {}) == w.site
  {
    assert PurgedSite(cfg, w, {}, {}).issues == w.site.issues;
  }

  /** Closing the issue of one more row. */
  lemma PurgeCloses(cfg: Config, w: World, closing: set<Pk>, labelling: set<Pk>, pk: Pk, k: Key)
    requires Inv(w) && pk in w.rows && w.rows[pk].issueKey == Some(k) && labelling <= closing && pk !in closing
    ensures Apply(cfg, PurgedSite(cfg, w, closing, labelling), Close(k, cfg.resolutionStale)) ==
            PurgedSite(cfg, w, closing + {pk}, labelling)
  {
    var a := Apply(cfg, PurgedSite(cfg, w, closing, labelling), Close(k, cfg.resolutionStale));
    var b := PurgedSite(cfg, w, closing + {pk}, labelling);
    forall j | j in w.site.issues
      ensures a.issues[j] == b.issues[j]
    {
      assert OwnedBy(w, j, closing + {pk}) == (OwnedBy(w, j, closing) || j == k);
    }
    assert a.issues == b.issues;
  }

  /** Relabelling it. */
  lemma PurgeRelabels(cfg: Config, w: World, closing: set<Pk>, labelling: set<Pk>, pk: Pk, k: Key)
    requires Inv(w) && pk in w.rows && w.rows[pk].issueKey == Some(k) && pk !in labelling
    ensures var site := PurgedSite(cfg, w, closing, labelling);
            Apply(cfg, site, Relabel(k, StaleLabels(cfg, site.issues[k].fields.labels))) ==
            PurgedSite(cfg, w, closing, labelling + {pk})
  {
    var site := PurgedSite(cfg, w, closing, labelling);
    var a := Apply(cfg, site, Relabel(k, StaleLabels(cfg, site.issues[k].fields.labels)));
    var b := PurgedSite(cfg, w, closing, labelling + {pk});
    forall j | j in w.site.issues
      ensures a.issues[j] == b.issues[j]
    {
      assert OwnedBy(w, j, labelling + {pk}) == (OwnedBy(w, j, labelling) || j == k);
    }
    assert a.issues == b.issues;
  }

  lemma UntouchedResolution(cfg: Config, w: World, done: set<Pk>, pk: Pk, k: Key)
    requires Inv(w) && pk in w.rows && w.rows[pk].issueKey == Some(k) && pk !in done
    ensures ResolutionOf(PurgedSite(cfg, w, done, done), k) == ResolutionOf(w.site, k)
  {
  }
}
