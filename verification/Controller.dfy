/**
 The continuous-audit loop over the findings table: scan, save each finding, set the gauges. Failed scans,
 unresolved clusters and failed saves leave their findings out of the table.
 */
module Controller {
  import opened Wrappers
  import opened Seqs
  import opened Findings
  import AuditScan

  /** A stored finding; JSON columns hold the values that they encode. */
  datatype Row = Row(id: string, clusterId: Option<string>, key: string, category: string, ruleId: string, severity: string,
                     resource: Resource, title: string, impact: string, rootCause: string, remediation: Remediation,
                     autofixable: bool, savings: real, firstSeen: int, lastSeen: int)

  /** One save that succeeded. */
  datatype Save = Save(id: string, clusterId: string, finding: Finding, at: int)

  function NullStr(s: string): Option<string> {
    if s == "" then None else Some(s)
  }

  function NewRow(s: Save): Row {
    var f := s.finding;
    Row(s.id, NullStr(s.clusterId), DedupKey(f), f.category, f.ruleId, f.severity, f.resource, f.title, f.impact, f.rootCause,
        f.remediation, Autofixable(f), f.savings, s.at, s.at)
  }

  /** The columns that a conflicting save replaces. */
  function Updated(r: Row, s: Save): Row {
    r.(lastSeen := s.at, severity := s.finding.severity, title := s.finding.title, impact := s.finding.impact,
       rootCause := s.finding.rootCause, remediation := s.finding.remediation)
  }

  // ----- the table, read off all saves -----

  /** The saves of one key, oldest first. */
  function Of(saves: seq<Save>, key: string): seq<Save> {
    if saves == [] then []
    else
      var s := saves[|saves| - 1];
      Of(saves[..|saves| - 1], key) + (if DedupKey(s.finding) == key then [s] else [])
  }

  /** The row of a key: the first save decides identity and first values, the latest the moving columns. */
  function RowOf(own: seq<Save>): Row
    requires own != []
  {
    var first, last := NewRow(own[0]), NewRow(own[|own| - 1]);
    first.(lastSeen := last.lastSeen, severity := last.severity, title := last.title, impact := last.impact,
           rootCause := last.rootCause, remediation := last.remediation)
  }

  /** One row for every key ever saved, and it is the row of that key's saves. */
  ghost predicate Reflects(rows: map<string, Row>, saves: seq<Save>) {
    forall key :: ReflectsAt(rows, Of(saves, key), key)
  }

  predicate ReflectsAt(rows: map<string, Row>, own: seq<Save>, key: string) {
    if own == [] then key !in rows else key in rows && rows[key] == RowOf(own)
  }

  function Upsert(rows: map<string, Row>, s: Save): map<string, Row> {
    var key := DedupKey(s.finding);
    rows[key := if key in rows then Updated(rows[key], s) else NewRow(s)]
  }

  lemma OfOneMore(saves: seq<Save>, s: Save, key: string)
    ensures Of(saves + [s], key) == Of(saves, key) + (if DedupKey(s.finding) == key then [s] else [])
  {
    assert (saves + [s])[..|saves|] == saves;
  }

  lemma UpsertReflects(rows: map<string, Row>, saves: seq<Save>, s: Save)
    requires Reflects(rows, saves)
    ensures Reflects(Upsert(rows, s), saves + [s])
  {
    hide ReflectsAt, Upsert, DedupKey;
    forall key ensures ReflectsAt(Upsert(rows, s), Of(saves + [s], key), key) {
      assert ReflectsAt(rows, Of(saves, key), key);
      OfOneMore(saves, s, key);
      UpsertReflectsAt(rows, Of(saves, key), s, key);
    }
  }

  lemma UpsertReflectsAt(rows: map<string, Row>, own: seq<Save>, s: Save, key: string)
    requires ReflectsAt(rows, own, key)
    ensures ReflectsAt(Upsert(rows, s), own + (if DedupKey(s.finding) == key then [s] else []), key)
  {
    hide DedupKey;
    if DedupKey(s.finding) == key {
      RowOfOneMore(own, s);
      hide RowOf, Updated, NewRow;
    } else {
      assert own + [] == own;
    }
  }

  lemma RowOfOneMore(own: seq<Save>, s: Save)
    ensures RowOf(own + [s]) == if own == [] then NewRow(s) else Updated(RowOf(own), s)
  {
    hide DedupKey;
  }

  // ----- the store -----

  class FindingStore {
    var clusters: map<string, string>    // name to id
    var rows: map<string, Row>           // by dedup key, which is unique
    var clock: int
    ghost var saves: seq<Save>

    ghost predicate Valid()
      reads this
    {
      Reflects(rows, saves) && forall i :: 0 <= i < |saves| ==> saves[i].at <= clock
    }

    constructor ()
      ensures Valid() && clusters == map[] && rows == map[] && saves == []
    {
      clusters, rows, clock, saves := map[], map[], 0, [];
    }

    /** The cluster's id, made up on first use. */
    method UpsertCluster(name: string, freshId: string, fails: bool) returns (id: Option<string>)
      requires Valid()
      modifies `clusters
      ensures Valid()
      ensures id == if fails then None else Some(if name in old(clusters) then old(clusters)[name] else freshId)
      ensures clusters == if fails || name in old(clusters) then old(clusters) else old(clusters)[name := freshId]
    {
      if fails {
        return None;
      }
      if name in clusters {
        return Some(clusters[name]);
      }
      clusters := clusters[name := freshId];
      return Some(freshId);
    }

    method SaveFinding(clusterId: string, f: Finding, freshId: string, passed: nat, fails: bool)
      requires Valid()
      modifies `rows, `clock, `saves
      ensures Valid() && clock == old(clock) + passed
      ensures saves == if fails then old(saves) else old(saves) + [Save(freshId, clusterId, f, clock)]
    {
      clock := clock + passed;
      if fails {
        return;
      }
      ghost var s := Save(freshId, clusterId, f, clock);
      UpsertReflects(rows, saves, s);
      hide Reflects, DedupKey;
      var key := DedupKey(f);
      if key in rows {
        rows := rows[key := rows[key].(lastSeen := clock, severity := f.severity, title := f.title, impact := f.impact,
                                       rootCause := f.rootCause, remediation := f.remediation)];
      } else {
        rows := rows[key := Row(freshId, NullStr(clusterId), key, f.category, f.ruleId, f.severity, f.resource, f.title,
                                f.impact, f.rootCause, f.remediation, Autofixable(f), f.savings, clock, clock)];
      }
      saves := saves + [s];
    }
  }

  // ----- the controller -----

  const CATEGORIES := ["reliability", "security", "cost", "optimization"]
  const SEVERITIES := ["P0", "P1", "P2", "P3"]

  datatype Bucket = Bucket(category: string, severity: string)

  function BucketOf(f: Finding): Bucket {
    Bucket(f.category, f.severity)
  }

  function CountOf(fs: seq<Finding>, b: Bucket): nat {
    if fs == [] then 0 else CountOf(fs[..|fs| - 1], b) + (if BucketOf(fs[|fs| - 1]) == b then 1 else 0)
  }

  /** How the store answers during a tick, by position of the finding. */
  datatype TickWorld = TickWorld(resolveFails: nat -> bool, saveFails: nat -> bool, clusterId: nat -> string, rowId: nat -> string,
                                 passed: nat -> nat)

  /** The cluster was cached before the tick, or an earlier finding of the tick resolved it. */
  predicate Known(ids: set<string>, fs: seq<Finding>, w: TickWorld, n: nat, name: string)
    requires n <= |fs|
  {
    name in ids || exists j :: 0 <= j < n && fs[j].resource.cluster == name && !w.resolveFails(j)
  }

  /** The findings among the first n that reach the table. */
  function Kept(ids: set<string>, fs: seq<Finding>, w: TickWorld, n: nat): seq<Finding>
    requires n <= |fs|
  {
    if n == 0 then []
    else
      Kept(ids, fs, w, n - 1)
      + (if Known(ids, fs, w, n, fs[n - 1].resource.cluster) && !w.saveFails(n - 1) then [fs[n - 1]] else [])
  }

  function FindingOf(s: Save): Finding {
    s.finding
  }

  class Controller {
    const store: FindingStore
    const metered: bool
    var clusterIds: map<string, string>
    var gauges: map<Bucket, nat>

    /** The cache never contradicts the store. */
    ghost predicate Valid()
      reads this, store
    {
      store.Valid() && Agrees(clusterIds, store.clusters)
    }

    constructor (store: FindingStore, metered: bool)
      requires store.Valid()
      ensures Valid() && clusterIds == map[] && gauges == map[] && this.store == store && this.metered == metered
    {
      this.store, this.metered, clusterIds, gauges := store, metered, map[], map[];
    }

    method ClusterId(name: string, freshId: string, fails: bool) returns (id: Option<string>)
      requires Valid()
      modifies `clusterIds, store`clusters
      ensures Valid()
      ensures id.Some? <==> name in old(clusterIds) || !fails
      ensures id.Some? ==> name in store.clusters && id.value == store.clusters[name]
      ensures clusterIds.Keys == if id.Some? then old(clusterIds).Keys + {name} else old(clusterIds).Keys
      ensures forall n :: n in old(store.clusters) ==> n in store.clusters && store.clusters[n] == old(store.clusters)[n]
    {
      hide FindingStore.Valid;
      if name in clusterIds {
        assert clusterIds.Keys == old(clusterIds).Keys + {name};
        return Some(clusterIds[name]);
      }
      id := store.UpsertCluster(name, freshId, fails);
      if id.None? {
        return;
      }
      clusterIds := clusterIds[name := id.value];
    }

    method UpdateGauges(fs: seq<Finding>)
      requires Valid()
      modifies `gauges
      ensures Valid()
      ensures !metered ==> gauges == old(gauges)
      ensures metered ==> AllShown(gauges, fs) && GaugesTell(gauges, fs)
    {
      if !metered {
        return;
      }
      var counts := Tally(fs);
      hide Shows;
      for i := 0 to |CATEGORIES|
        invariant forall x, y :: 0 <= x < i && 0 <= y < |SEVERITIES| ==> Shows(gauges, fs, CATEGORIES[x], SEVERITIES[y])
      {
        for j := 0 to |SEVERITIES|
          invariant forall x, y :: 0 <= x < i && 0 <= y < |SEVERITIES| ==> Shows(gauges, fs, CATEGORIES[x], SEVERITIES[y])
          invariant forall y :: 0 <= y < j ==> Shows(gauges, fs, CATEGORIES[i], SEVERITIES[y])
        {
          var b := Bucket(CATEGORIES[i], SEVERITIES[j]);
          var n := if b in counts then counts[b] else 0;
          SetOneMore(gauges, fs, b, n);
          gauges := gauges[b := n];
        }
      }
      ShownTells(gauges, fs);
    }

    /** One finding of a scan: resolve its cluster, then save it. */
    method SaveOne(f: Finding, w: TickWorld, i: nat)
      requires Valid()
      modifies `clusterIds, store
      ensures Valid()
      ensures var resolved := f.resource.cluster in old(clusterIds) || !w.resolveFails(i);
        && clusterIds.Keys == old(clusterIds).Keys + (if resolved then {f.resource.cluster} else {})
        && (if resolved && !w.saveFails(i) then
              store.saves == old(store.saves) + [Save(w.rowId(i), store.clusters[f.resource.cluster], f, store.clock)]
              && f.resource.cluster in store.clusters
            else store.saves == old(store.saves))
      ensures store.clock >= old(store.clock)
      ensures forall n :: n in old(store.clusters) ==> n in store.clusters && store.clusters[n] == old(store.clusters)[n]
    {
      hide FindingStore.Valid, Agrees;
      var id := ClusterId(f.resource.cluster, w.clusterId(i), w.resolveFails(i));
      if id.None? {
        return;
      }
      store.SaveFinding(id.value, f, w.rowId(i), w.passed(i), w.saveFails(i));
    }

    /** One scan-save-meter cycle; a failed scan changes nothing. */
    method Tick(report: Option<seq<Finding>>, w: TickWorld)
      requires Valid()
      modifies `clusterIds, `gauges, store
      ensures Valid()
      ensures report == None ==> clusterIds == old(clusterIds) && gauges == old(gauges) && store.rows == old(store.rows)
                                 && store.clusters == old(store.clusters) && store.saves == old(store.saves)
      ensures report.Some? ==>
                && Grew(old(store.saves), store.saves, old(store.clock), store.clusters)
                && Map(FindingOf, store.saves) == Map(FindingOf, old(store.saves)) + Kept(old(clusterIds).Keys, report.value, w, |report.value|)
                && (forall n :: n in clusterIds <==> Known(old(clusterIds).Keys, report.value, w, |report.value|, n))
                && (metered ==> AllShown(gauges, report.value) && GaugesTell(gauges, report.value))
    {
      hide Valid, AllShown, GaugesTell, Grew, Known, Kept, Placed, Map;
      if report == None {
        return;
      }
      var fs := report.value;
      GrewNothing(store.saves, store.clock, store.clusters);
      NothingKept(clusterIds.Keys, fs, w);
      for i := 0 to |fs|
        invariant Valid() && store.clock >= old(store.clock)
        invariant forall n :: n in clusterIds <==> Known(old(clusterIds).Keys, fs, w, i, n)
        invariant Map(FindingOf, store.saves) == Map(FindingOf, old(store.saves)) + Kept(old(clusterIds).Keys, fs, w, i)
        invariant Grew(old(store.saves), store.saves, old(store.clock), store.clusters)
      {
        ghost var saves, clusters := store.saves, store.clusters;
        OneMoreKept(old(clusterIds).Keys, fs, w, i);
        SaveOne(fs[i], w, i);
        if |store.saves| > |saves| {
          PlacedNow(store.saves[|saves|], store.clusters);
          OneMoreFinding(saves, store.saves[|saves|]);
        }
        GrewMore(old(store.saves), saves, store.saves, old(store.clock), clusters, store.clusters);
      }
      UpdateGauges(fs);
    }
  }

  lemma NothingKept(ids: set<string>, fs: seq<Finding>, w: TickWorld)
    ensures Kept(ids, fs, w, 0) == []
    ensures forall n :: Known(ids, fs, w, 0, n) <==> n in ids
  {}

  lemma OneMoreKept(ids: set<string>, fs: seq<Finding>, w: TickWorld, i: nat)
    requires i < |fs|
    ensures forall n :: Known(ids, fs, w, i + 1, n) <==> Known(ids, fs, w, i, n) || (n == fs[i].resource.cluster && !w.resolveFails(i))
    ensures Kept(ids, fs, w, i + 1)
         == Kept(ids, fs, w, i) + (if Known(ids, fs, w, i + 1, fs[i].resource.cluster) && !w.saveFails(i) then [fs[i]] else [])
  {
    forall n ensures Known(ids, fs, w, i + 1, n) <==> Known(ids, fs, w, i, n) || (n == fs[i].resource.cluster && !w.resolveFails(i)) {
      if n == fs[i].resource.cluster && !w.resolveFails(i) {
        assert Known(ids, fs, w, i + 1, n);
      }
    }
  }

  lemma OneMoreFinding(saves: seq<Save>, s: Save)
    ensures Map(FindingOf, saves + [s]) == Map(FindingOf, saves) + [s.finding]
  {
    MapConcat(FindingOf, saves, [s]);
    assert Map(FindingOf, [s]) == [s.finding];
  }

  lemma PlacedNow(s: Save, clusters: map<string, string>)
    requires s.finding.resource.cluster in clusters && s.clusterId == clusters[s.finding.resource.cluster]
    ensures Placed(s, clusters)
  {}

  function InBucket(category: string, severity: string): Finding -> bool {
    (f: Finding) => f.category == category && f.severity == severity
  }

  /** Each of the sixteen gauges shows how many findings have its category and severity. */
  ghost predicate GaugesTell(gauges: map<Bucket, nat>, fs: seq<Finding>) {
    forall c, s :: c in ["reliability", "security", "cost", "optimization"] && s in ["P0", "P1", "P2", "P3"] ==>
      Bucket(c, s) in gauges && gauges[Bucket(c, s)] == |Filter(InBucket(c, s), fs)|
  }

  lemma {:induction false} CountTells(fs: seq<Finding>, c: string, s: string)
    ensures CountOf(fs, Bucket(c, s)) == |Filter(InBucket(c, s), fs)|
  {
    if fs != [] {
      var n := |fs| - 1;
      CountTells(fs[..n], c, s);
      assert fs == fs[..n] + [fs[n]];
      FilterConcat(InBucket(c, s), fs[..n], [fs[n]]);
      FilterCons(InBucket(c, s), fs[n], []);
      assert [fs[n]] + [] == [fs[n]];
    }
  }

  lemma ShownTells(gauges: map<Bucket, nat>, fs: seq<Finding>)
    requires AllShown(gauges, fs)
    ensures GaugesTell(gauges, fs)
  {
    hide CountOf;
    forall c, s | c in ["reliability", "security", "cost", "optimization"] && s in ["P0", "P1", "P2", "P3"]
      ensures Bucket(c, s) in gauges && gauges[Bucket(c, s)] == |Filter(InBucket(c, s), fs)|
    {
      var x :| 0 <= x < |CATEGORIES| && CATEGORIES[x] == c;
      var y :| 0 <= y < |SEVERITIES| && SEVERITIES[y] == s;
      assert Shows(gauges, fs, CATEGORIES[x], SEVERITIES[y]);
      CountTells(fs, c, s);
    }
  }

  /** Why the i-th finding of a tick reaches the table. */
  predicate Reaches(ids: set<string>, fs: seq<Finding>, w: TickWorld, i: nat)
    requires i < |fs|
  {
    && !w.saveFails(i)
    && (fs[i].resource.cluster in ids
        || exists j :: 0 <= j <= i && fs[j].resource.cluster == fs[i].resource.cluster && !w.resolveFails(j))
  }

  /** Exactly the findings are kept whose save succeeds and whose cluster was cached or resolved by then, in order. */
  lemma {:induction false} KeptTells(ids: set<string>, fs: seq<Finding>, w: TickWorld, n: nat) returns (idx: seq<nat>)
    requires n <= |fs|
    ensures |idx| == |Kept(ids, fs, w, n)| && forall k :: 0 <= k < |idx| ==> idx[k] < n && Kept(ids, fs, w, n)[k] == fs[idx[k]]
    ensures forall k, l :: 0 <= k < l < |idx| ==> idx[k] < idx[l]
    ensures forall i: nat :: i < n ==> (i in idx <==> Reaches(ids, fs, w, i))
  {
    if n == 0 {
      idx := [];
    } else {
      idx := KeptTells(ids, fs, w, n - 1);
      assert Known(ids, fs, w, n, fs[n - 1].resource.cluster) && !w.saveFails(n - 1) <==> Reaches(ids, fs, w, n - 1);
      hide Known, Reaches;
      if Reaches(ids, fs, w, n - 1) {
        idx := idx + [n - 1];
      }
    }
  }

  method Tally(fs: seq<Finding>) returns (counts: map<Bucket, nat>)
    ensures forall b :: (if b in counts then counts[b] else 0) == CountOf(fs, b)
  {
    counts := map[];
    for i := 0 to |fs|
      invariant forall b :: (if b in counts then counts[b] else 0) == CountOf(fs[..i], b)
    {
      assert fs[..i + 1][..i] == fs[..i];
      var b := BucketOf(fs[i]);
      counts := counts[b := (if b in counts then counts[b] else 0) + 1];
    }
    assert fs[..|fs|] == fs;
  }

  lemma SetOneMore(gauges: map<Bucket, nat>, fs: seq<Finding>, b: Bucket, n: nat)
    requires n == CountOf(fs, b)
    ensures Shows(gauges[b := n], fs, b.category, b.severity)
    ensures forall c, s :: Shows(gauges, fs, c, s) ==> Shows(gauges[b := n], fs, c, s)
  {}

  predicate AllShown(gauges: map<Bucket, nat>, fs: seq<Finding>) {
    forall x, y :: 0 <= x < |CATEGORIES| && 0 <= y < |SEVERITIES| ==> Shows(gauges, fs, CATEGORIES[x], SEVERITIES[y])
  }

  /** Saves were only added, each at its cluster's id and not before the tick. */
  predicate Grew(before: seq<Save>, saves: seq<Save>, since: int, clusters: map<string, string>) {
    before <= saves && forall i :: |before| <= i < |saves| ==> Placed(saves[i], clusters) && saves[i].at >= since
  }

  lemma GrewNothing(saves: seq<Save>, since: int, clusters: map<string, string>)
    ensures Grew(saves, saves, since, clusters)
  {}

  lemma GrewMore(before: seq<Save>, saves: seq<Save>, saves': seq<Save>, since: int, clusters: map<string, string>, clusters': map<string, string>)
    requires Grew(before, saves, since, clusters)
    requires forall n :: n in clusters ==> n in clusters' && clusters'[n] == clusters[n]
    requires saves' == saves || (|saves'| == |saves| + 1 && saves' == saves + [saves'[|saves|]] && Placed(saves'[|saves|], clusters') && saves'[|saves|].at >= since)
    ensures Grew(before, saves', since, clusters')
  {}

  predicate Agrees(cache: map<string, string>, clusters: map<string, string>) {
    forall n :: n in cache ==> n in clusters && cache[n] == clusters[n]
  }

  /** The gauge of a bucket shows the number of its findings. */
  predicate Shows(gauges: map<Bucket, nat>, fs: seq<Finding>, category: string, severity: string) {
    var b := Bucket(category, severity);
    b in gauges && gauges[b] == CountOf(fs, b)
  }

  /** The save carries the id that its cluster has in the store. */
  predicate Placed(s: Save, clusters: map<string, string>) {
    s.finding.resource.cluster in clusters && s.clusterId == clusters[s.finding.resource.cluster]
  }

  // ----- the table over whole runs -----

  /** The saves that report the given issue, oldest first. */
  function About(saves: seq<Save>, identity: seq<string>): seq<Save> {
    if saves == [] then []
    else
      var s := saves[|saves| - 1];
      About(saves[..|saves| - 1], identity) + (if Identity(s.finding) == identity then [s] else [])
  }

  /** The columns of the row of an issue, from its first and its latest save. */
  predicate RowTells(row: Row, own: seq<Save>)
    requires own != []
  {
    var first, last := own[0], own[|own| - 1];
    var f, g := first.finding, last.finding;
    && row.id == first.id && row.clusterId == (if first.clusterId == "" then None else Some(first.clusterId))
    && row.key == DedupKey(f) && row.category == f.category && row.ruleId == f.ruleId && row.resource == f.resource
    && row.autofixable == (f.remediation.autoFixTool != "") && row.savings == f.savings && row.firstSeen == first.at
    && row.lastSeen == last.at && row.severity == g.severity && row.title == g.title && row.impact == g.impact
    && row.rootCause == g.rootCause && row.remediation == g.remediation
  }

  /**
   Without bars in its parts, an issue has one row in the table exactly when it was ever saved, and the
   row holds the first save's identity, cluster, category, savings and first-seen time, and the latest
   save's last-seen time, severity and texts.
   */
  lemma TableIsFoldOfSaves(rows: map<string, Row>, saves: seq<Save>, f: Finding)
    requires Reflects(rows, saves) && BarFree(Identity(f))
    ensures var own := About(saves, Identity(f));
      if own == [] then DedupKey(f) !in rows else DedupKey(f) in rows && RowTells(rows[DedupKey(f)], own)
  {
    assert ReflectsAt(rows, Of(saves, DedupKey(f)), DedupKey(f));
    SameIssue(saves, f);
  }

  lemma {:induction false} SameIssue(saves: seq<Save>, f: Finding)
    requires BarFree(Identity(f))
    ensures Of(saves, DedupKey(f)) == About(saves, Identity(f))
  {
    if saves != [] {
      var g := saves[|saves| - 1].finding;
      SameIssue(saves[..|saves| - 1], f);
      if DedupKey(g) == DedupKey(f) {
        SameKeySameIdentity(f, g);
      }
      hide BarFree;
    }
  }
}
