/**
 Concurrent audit scans. A bounded group of goroutines appends findings to a shared slice under a lock
 in whatever order they finish; the slice is then sorted by severity and category.
 */
module AuditScan {
  import opened Wrappers
  import opened Seqs
  import opened StableSort
  import Text
  import opened Findings

  // ----- report order -----

  datatype Key = Key(rank: int, category: string)

  /** P0 first; an unknown severity ranks like P0. */
  function Rank(severity: string): int {
    if severity == "P1" then 1 else if severity == "P2" then 2 else if severity == "P3" then 3 else 0
  }

  function KeyOf(f: Finding): Key {
    Key(Rank(f.severity), f.category)
  }

  predicate KeyLess(a: Key, b: Key) {
    a.rank < b.rank || (a.rank == b.rank && Text.Less(a.category, b.category))
  }

  function ByKey(): (Finding, Finding) -> bool {
    (f: Finding, g: Finding) => KeyLess(KeyOf(f), KeyOf(g))
  }

  function HasKey(k: Key): Finding -> bool {
    (f: Finding) => KeyOf(f) == k
  }

  function Keys(fs: seq<Finding>): seq<Key> {
    Map(KeyOf, fs)
  }

  function InOrder(fs: seq<Finding>): seq<Finding> {
    Sort(ByKey(), fs)
  }

  lemma KeysAreTotal(a: Key, b: Key)
    ensures a == b || KeyLess(a, b) || KeyLess(b, a)
    ensures !(KeyLess(a, b) && KeyLess(b, a)) && !KeyLess(a, a)
  {
    Text.LessTotal(a.category, b.category);
    Text.LessTotal(a.category, a.category);
  }

  lemma KeysAreTransitive(a: Key, b: Key, c: Key)
    requires KeyLess(a, b) && KeyLess(b, c)
    ensures KeyLess(a, c)
  {
    if a.rank == b.rank == c.rank {
      Text.LessTransitive(a.category, b.category, c.category);
    }
  }

  lemma KeyOrder()
    ensures StrictWeakOrder(ByKey())
  {
    var less := ByKey();
    forall x: Finding ensures !less(x, x) { KeysAreTotal(KeyOf(x), KeyOf(x)); }
    forall x, y, z | less(x, y) && less(y, z) ensures less(x, z) {
      KeysAreTransitive(KeyOf(x), KeyOf(y), KeyOf(z));
    }
    forall x, y, z | !less(x, y) && !less(y, z) ensures !less(x, z) {
      KeysAreTotal(KeyOf(x), KeyOf(y));
      KeysAreTotal(KeyOf(y), KeyOf(z));
      KeysAreTotal(KeyOf(x), KeyOf(z));
      if less(x, z) && KeyOf(y) != KeyOf(x) {
        KeysAreTransitive(KeyOf(y), KeyOf(x), KeyOf(z));
      }
    }
  }

  // ----- the group -----

  const LIMIT := 8

  datatype Step =
    | Launch             // the loop starts the next task; it waits while the group is full
    | Finish(task: nat)  // its result is in, and is appended under the lock
    | Leave(task: nat)   // its goroutine ends

  datatype Pool = Pool(next: nat, active: set<nat>, finished: seq<nat>)

  const START := Pool(0, {}, [])

  predicate Enabled(n: nat, p: Pool, step: Step) {
    match step
    case Launch => p.next < n && |p.active| < LIMIT
    case Finish(i) => i in p.active && i !in p.finished
    case Leave(i) => i in p.active && i in p.finished
  }

  function Next(p: Pool, step: Step): Pool {
    match step
    case Launch => p.(next := p.next + 1, active := p.active + {p.next})
    case Finish(i) => p.(finished := p.finished + [i])
    case Leave(i) => p.(active := p.active - {i})
  }

  predicate Legal(n: nat, p: Pool, run: seq<Step>)
    decreases |run|
  {
    run == [] || (Enabled(n, p, run[0]) && Legal(n, Next(p, run[0]), run[1..]))
  }

  function After(p: Pool, run: seq<Step>): Pool
    decreases |run|
  {
    if run == [] then p else After(Next(p, run[0]), run[1..])
  }

  /** Wait returns. */
  predicate Complete(n: nat, p: Pool) {
    p.next == n && p.active == {}
  }

  predicate Distinct(s: seq<nat>) {
    forall i, j :: 0 <= i < j < |s| ==> s[i] != s[j]
  }

  predicate PoolInv(n: nat, p: Pool) {
    && p.next <= n && |p.active| <= LIMIT && Distinct(p.finished)
    && (forall i :: i in p.active ==> i < p.next)
    && (forall i :: i in p.finished ==> i < p.next)
    && (forall i :: 0 <= i < p.next && i !in p.active ==> i in p.finished)
  }

  lemma StepKeepsPool(n: nat, p: Pool, step: Step)
    requires PoolInv(n, p) && Enabled(n, p, step)
    ensures PoolInv(n, Next(p, step)) && |Next(p, step).active| <= 8
  {
    var q := Next(p, step);
    if step.Launch? {
      assert forall i :: i in q.active ==> i == p.next || i in p.active;
    }
  }

  lemma {:induction false} RunKeepsPool(n: nat, p: Pool, run: seq<Step>)
    requires PoolInv(n, p) && Legal(n, p, run)
    ensures PoolInv(n, After(p, run))
    decreases |run|
  {
    if run != [] {
      StepKeepsPool(n, p, run[0]);
      RunKeepsPool(n, Next(p, run[0]), run[1..]);
    }
  }

  function Upto(n: nat): (r: seq<nat>)
    ensures |r| == n && forall i :: 0 <= i < n ==> r[i] == i
  {
    if n == 0 then [] else Upto(n - 1) + [n - 1]
  }

  predicate Schedule(n: nat, run: seq<Step>) {
    Legal(n, START, run) && Complete(n, After(START, run))
  }

  /** Tasks finish in some order, each of them once, never more than eight at a time. */
  lemma FinishingOrder(n: nat, run: seq<Step>)
    requires Schedule(n, run)
    ensures multiset(After(START, run).finished) == multiset(Upto(n))
  {
    RunKeepsPool(n, START, run);
    var order := After(START, run).finished;
    var a: multiset<nat>, b: multiset<nat> := multiset(order), multiset(Upto(n));
    forall x: nat ensures a[x] == b[x] {
      CountOfDistinct(order, x);
      CountOfDistinct(Upto(n), x);
      assert x < n ==> Upto(n)[x] == x;
    }
  }

  lemma {:induction false} CountOfDistinct(s: seq<nat>, x: nat)
    requires Distinct(s)
    ensures var bag: multiset<nat> := multiset(s); bag[x] == if x in s then 1 else 0
  {
    if s != [] {
      CountOfDistinct(s[1..], x);
      assert s == [s[0]] + s[1..];
    }
  }

  // ----- scans -----

  /** What a task delivers: its findings, or an error. */
  type Output = Option<seq<Finding>>

  function FindingsOf(o: Output): seq<Finding> {
    if o.Some? then o.value else []
  }

  function Pick(outs: seq<Output>): nat -> seq<Finding> {
    (i: nat) => if i < |outs| then FindingsOf(outs[i]) else []
  }

  /** The shared slice when the tasks finished in the given order. */
  function Gathered(outs: seq<Output>, order: seq<nat>): seq<Finding> {
    Flatten(Map(Pick(outs), order))
  }

  function Report(outs: seq<Output>, order: seq<nat>): seq<Finding> {
    InOrder(Gathered(outs, order))
  }

  function ReportOf(outs: seq<Output>, run: seq<Step>): seq<Finding> {
    Report(outs, After(START, run).finished)
  }

  /** The findings of all tasks one after the other. */
  function Sequential(outs: seq<Output>): seq<Finding> {
    Flatten(Map(FindingsOf, outs))
  }

  lemma GatheredOneMore(outs: seq<Output>, order: seq<nat>, i: nat)
    ensures Gathered(outs, order + [i]) == Gathered(outs, order) + Pick(outs)(i)
  {
    MapConcat(Pick(outs), order, [i]);
    FlattenConcat(Map(Pick(outs), order), [Pick(outs)(i)]);
    assert [i][1..] == [] && Map(Pick(outs), [i]) == [Pick(outs)(i)];
    assert [Pick(outs)(i)][1..] == [];
    assert Flatten([Pick(outs)(i)]) == Pick(outs)(i) + [];
  }

  method Collect(outs: seq<Output>, run: seq<Step>) returns (all: seq<Finding>, failed: bool)
    requires Schedule(|outs|, run)
    ensures all == Gathered(outs, After(START, run).finished)
    ensures failed <==> exists i :: 0 <= i < |outs| && outs[i] == None
  {
    hide Gathered, PoolInv, Enabled;
    StartsWell(|outs|);
    var p := START;
    all, failed := [], false;
    GatheredNothing(outs);
    for k := 0 to |run|
      invariant Legal(|outs|, p, run[k..]) && After(p, run[k..]) == After(START, run) && PoolInv(|outs|, p)
      invariant all == Gathered(outs, p.finished)
      invariant failed <==> exists i :: i in p.finished && i < |outs| && outs[i] == None
    {
      var step := run[k];
      assert run[k..][1..] == run[k + 1..];
      StepKeepsPool(|outs|, p, step);
      if step.Finish? {
        InRange(|outs|, p, step);
        GatheredOneMore(outs, p.finished, step.task);
        if outs[step.task].Some? {
          var fs := outs[step.task].value;
          if |fs| > 0 {
            all := all + fs;
          }
        } else {
          failed := true;
        }
      }
      ghost var before := p.finished;
      p := Next(p, step);
      assert p.finished == before || (step.Finish? && p.finished == before + [step.task]);
    }
    assert run[|run|..] == [];
    AllFinished(|outs|, p);
  }

  lemma StartsWell(n: nat)
    ensures PoolInv(n, START)
  {}

  lemma InRange(n: nat, p: Pool, step: Step)
    requires PoolInv(n, p) && Enabled(n, p, step) && step.Finish?
    ensures step.task < n
  {}

  lemma AllFinished(n: nat, p: Pool)
    requires PoolInv(n, p) && Complete(n, p)
    ensures forall i :: i in p.finished <==> 0 <= i < n
  {}

  lemma GatheredNothing(outs: seq<Output>)
    ensures Gathered(outs, []) == []
  {}

  function Delivered(rules: seq<seq<Finding>>): (r: seq<Output>)
    ensures |r| == |rules| && forall i :: 0 <= i < |r| ==> r[i] == Some(rules[i])
  {
    if rules == [] then [] else [Some(rules[0])] + Delivered(rules[1..])
  }

  /** A cluster: whether its snapshot succeeds, and what each enabled rule finds in it. */
  datatype Cluster = Cluster(snapshot: bool, rules: seq<seq<Finding>>)

  function ScanOutput(c: Cluster, run: seq<Step>): Output {
    if c.snapshot then Some(Report(Delivered(c.rules), After(START, run).finished)) else None
  }

  method Scan(c: Cluster, run: seq<Step>) returns (report: Output)
    requires Schedule(|c.rules|, run)
    ensures report == ScanOutput(c, run)
    ensures report.Some? <==> c.snapshot
    ensures report.Some? ==> ReportTells(c.rules, run, report.value)
  {
    hide Schedule, After, ReportTells, Gathered;
    if !c.snapshot {
      return None;
    }
    var all, failed := Collect(Delivered(c.rules), run);
    if failed {
      return None;
    }
    ReportOfTells(c.rules, run);
    return Some(InOrder(all));
  }

  /** The scan of each target, each under a schedule of its own. */
  function FleetOutputs(clusters: map<string, Cluster>, targets: seq<string>, inner: nat -> seq<Step>): (r: seq<Output>)
    requires forall i :: 0 <= i < |targets| ==> targets[i] in clusters
    ensures |r| == |targets| && forall i :: 0 <= i < |r| ==> r[i] == ScanOutput(clusters[targets[i]], inner(i))
  {
    if targets == [] then []
    else
      var n := |targets| - 1;
      FleetOutputs(clusters, targets[..n], inner) + [ScanOutput(clusters[targets[n]], inner(n))]
  }

  /** Every target resolved and scanned, unless a name is unknown. */
  method ScanTargets(clusters: map<string, Cluster>, targets: seq<string>, inner: nat -> seq<Step>) returns (outs: Option<seq<Output>>)
    requires forall i :: 0 <= i < |targets| && targets[i] in clusters ==> Schedule(|clusters[targets[i]].rules|, inner(i))
    ensures outs.Some? <==> forall i :: 0 <= i < |targets| ==> targets[i] in clusters
    ensures outs.Some? ==> outs.value == FleetOutputs(clusters, targets, inner)
  {
    hide ScanOutput, Schedule;
    var found: seq<Output> := [];
    for i := 0 to |targets|
      invariant forall j :: 0 <= j < i ==> targets[j] in clusters
      invariant found == FleetOutputs(clusters, targets[..i], inner)
    {
      if targets[i] !in clusters {
        return None;
      }
      var out := Scan(clusters[targets[i]], inner(i));
      assert targets[..i + 1][..i] == targets[..i];
      found := found + [out];
    }
    assert targets[..|targets|] == targets;
    return Some(found);
  }

  /** An unknown name or a failed snapshot fails the whole scan. */
  method ScanFleet(clusters: map<string, Cluster>, registered: seq<string>, names: seq<string>, inner: nat -> seq<Step>,
                   run: seq<Step>) returns (report: Output)
    requires var targets := if names == [] then registered else names;
      && (forall i :: 0 <= i < |targets| && targets[i] in clusters ==> Schedule(|clusters[targets[i]].rules|, inner(i)))
      && Schedule(|targets|, run)
    ensures var targets := if names == [] then registered else names;
      && (report.Some? <==> forall i :: 0 <= i < |targets| ==> targets[i] in clusters && clusters[targets[i]].snapshot)
      && (report.Some? ==> report.value == Report(FleetOutputs(clusters, targets, inner), After(START, run).finished))
      && (report.Some? ==> exists parts :: FleetTells(clusters, targets, inner, parts) && ReportTells(parts, run, report.value))
  {
    hide Schedule, After, ReportTells, FleetTells, Gathered, InOrder;
    var targets := names;
    if |names| == 0 {
      targets := registered;
    }
    var outs := ScanTargets(clusters, targets, inner);
    if outs.None? {
      return None;
    }
    var all, failed := Collect(outs.value, run);
    if failed {
      return None;
    }
    var parts := FleetParts(clusters, targets, inner, run);
    return Some(InOrder(all));
  }

  // ----- what a report is, in plain terms -----

  /** Two severities of the same urgency; whatever is none of P1, P2 and P3 counts as P0. */
  predicate SameUrgency(a: string, b: string) {
    a == b || (a !in ["P1", "P2", "P3"] && b !in ["P1", "P2", "P3"])
  }

  /** Finding g may stand somewhere behind finding f: P0 first, then P1, P2 and P3, and then by category. */
  predicate MayFollow(f: Finding, g: Finding) {
    && !(g.severity !in ["P1", "P2", "P3"] && f.severity in ["P1", "P2", "P3"])
    && !(g.severity == "P1" && f.severity in ["P2", "P3"])
    && !(g.severity == "P2" && f.severity == "P3")
    && (SameUrgency(f.severity, g.severity) ==> !Text.Less(g.category, f.category))
  }

  /** Findings of the urgency and category of f. */
  function PeersOf(f: Finding): Finding -> bool {
    (g: Finding) => SameUrgency(g.severity, f.severity) && g.category == f.category
  }

  function PartAt(parts: seq<seq<Finding>>): nat -> seq<Finding> {
    (i: nat) => if i < |parts| then parts[i] else []
  }

  /**
   A report on the parts that the tasks of a run delivered: all their findings, ordered by urgency and
   category, and peers in the order in which the tasks finished.
   */
  ghost predicate ReportTells(parts: seq<seq<Finding>>, run: seq<Step>, report: seq<Finding>) {
    && multiset(report) == multiset(Flatten(parts))
    && (forall i, j :: 0 <= i < j < |report| ==> MayFollow(report[i], report[j]))
    && (forall f :: Filter(PeersOf(f), report) == Filter(PeersOf(f), Flatten(Map(PartAt(parts), After(START, run).finished))))
  }

  /** The parts of a fleet's report are the reports of its clusters. */
  ghost predicate FleetTells(clusters: map<string, Cluster>, targets: seq<string>, inner: nat -> seq<Step>, parts: seq<seq<Finding>>) {
    && |parts| == |targets|
    && forall i :: 0 <= i < |targets| ==> targets[i] in clusters && ReportTells(clusters[targets[i]].rules, inner(i), parts[i])
  }

  lemma RankTells(a: string, b: string)
    ensures Rank(a) == Rank(b) <==> SameUrgency(a, b)
    ensures Rank(b) < Rank(a) <==>
              || (b !in ["P1", "P2", "P3"] && a in ["P1", "P2", "P3"])
              || (b == "P1" && a in ["P2", "P3"]) || (b == "P2" && a == "P3")
  {}

  lemma {:induction false} PeersShareTheKey(f: Finding, fs: seq<Finding>)
    ensures Filter(PeersOf(f), fs) == Filter(HasKey(KeyOf(f)), fs)
  {
    if fs != [] {
      PeersShareTheKey(f, fs[1..]);
      RankTells(f.severity, fs[0].severity);
    }
  }

  lemma SortedMayFollow(f: Finding, g: Finding)
    requires !ByKey()(g, f)
    ensures MayFollow(f, g)
  {
    RankTells(f.severity, g.severity);
    RankTells(g.severity, f.severity);
  }

  lemma {:induction false} DeliveredInOrder(parts: seq<seq<Finding>>, order: seq<nat>)
    ensures Gathered(Delivered(parts), order) == Flatten(Map(PartAt(parts), order))
  {
    if order != [] {
      DeliveredInOrder(parts, order[1..]);
    }
  }

  lemma {:induction false} DeliveredTogether(parts: seq<seq<Finding>>)
    ensures Sequential(Delivered(parts)) == Flatten(parts)
  {
    if parts != [] {
      DeliveredTogether(parts[1..]);
      assert Delivered(parts)[1..] == Delivered(parts[1..]);
    }
  }

  lemma ReportOfTells(parts: seq<seq<Finding>>, run: seq<Step>)
    requires Schedule(|parts|, run)
    ensures ReportTells(parts, run, Report(Delivered(parts), After(START, run).finished))
  {
    hide Schedule;
    var outs, order := Delivered(parts), After(START, run).finished;
    var report := Report(outs, order);
    ReportPermutes(outs, run);
    DeliveredTogether(parts);
    DeliveredInOrder(parts, order);
    forall i, j | 0 <= i < j < |report| ensures MayFollow(report[i], report[j]) {
      SortedMayFollow(report[i], report[j]);
    }
    forall f ensures Filter(PeersOf(f), report) == Filter(PeersOf(f), Flatten(Map(PartAt(parts), order))) {
      PeersShareTheKey(f, report);
      PeersShareTheKey(f, Gathered(outs, order));
      SameKeyStays(outs, order, KeyOf(f));
    }
    hide *;
  }

  lemma SameKeyStays(outs: seq<Output>, order: seq<nat>, k: Key)
    ensures Filter(HasKey(k), Report(outs, order)) == Filter(HasKey(k), Gathered(outs, order))
  {
    forall y, z | HasKey(k)(y) && HasKey(k)(z) ensures !ByKey()(y, z) {
      KeysAreTotal(KeyOf(y), KeyOf(z));
    }
    SortStable(ByKey(), HasKey(k), Gathered(outs, order));
  }

  lemma FleetParts(clusters: map<string, Cluster>, targets: seq<string>, inner: nat -> seq<Step>, run: seq<Step>)
    returns (parts: seq<seq<Finding>>)
    requires forall i :: 0 <= i < |targets| ==>
                           targets[i] in clusters && clusters[targets[i]].snapshot && Schedule(|clusters[targets[i]].rules|, inner(i))
    requires Schedule(|targets|, run)
    ensures FleetTells(clusters, targets, inner, parts)
    ensures ReportTells(parts, run, Report(FleetOutputs(clusters, targets, inner), After(START, run).finished))
  {
    hide Schedule, After, ReportTells, ScanOutput, Report, Delivered;
    var outs := FleetOutputs(clusters, targets, inner);
    parts := Map(FindingsOf, outs);
    forall i | 0 <= i < |targets| ensures ReportTells(clusters[targets[i]].rules, inner(i), parts[i]) && outs[i] == Some(parts[i]) {
      MapAt(FindingsOf, outs, i);
      ScanOutputTells(clusters[targets[i]], inner(i));
    }
    assert Delivered(parts) == outs;
    ReportOfTells(parts, run);
  }

  lemma ScanOutputTells(c: Cluster, run: seq<Step>)
    requires c.snapshot && Schedule(|c.rules|, run)
    ensures ScanOutput(c, run).Some? && ReportTells(c.rules, run, ScanOutput(c, run).value)
  {
    hide Schedule, After, ReportTells, Report;
    ReportOfTells(c.rules, run);
  }

  // ----- what every schedule yields -----

  lemma {:induction false} FlattenPermutes<T>(a: seq<seq<T>>, b: seq<seq<T>>)
    requires multiset(a) == multiset(b)
    ensures multiset(Flatten(a)) == multiset(Flatten(b))
  {
    if a == [] {
      assert |b| == |multiset(b)| == |multiset(a)| == 0;
    } else {
      var k := TakeOut(a, b);
      FlattenPermutes(a[1..], b[..k] + b[k + 1..]);
      FlattenAround(b, k);
    }
  }

  lemma FlattenAround<T>(b: seq<seq<T>>, k: nat)
    requires k < |b|
    ensures multiset(Flatten(b)) == multiset(b[k]) + multiset(Flatten(b[..k] + b[k + 1..]))
  {
    var l, x, r := b[..k], b[k], b[k + 1..];
    assert b == l + ([x] + r);
    FlattenConcat(l, [x] + r);
    FlattenConcat(l, r);
    assert ([x] + r)[1..] == r;
    assert Flatten([x] + r) == x + Flatten(r);
    hide Flatten;
    ConcatAround(Flatten(l), x, Flatten(r));
  }

  lemma ConcatAround<T>(l: seq<T>, x: seq<T>, r: seq<T>)
    ensures multiset(l + (x + r)) == multiset(x) + multiset(l + r)
  {}

  lemma {:induction false} SequentialIsGathered(outs: seq<Output>)
    ensures Map(Pick(outs), Upto(|outs|)) == Map(FindingsOf, outs)
  {
    var a, b := Map(Pick(outs), Upto(|outs|)), Map(FindingsOf, outs);
    forall i | 0 <= i < |outs| ensures a[i] == b[i] {
      MapAt(Pick(outs), Upto(|outs|), i);
      MapAt(FindingsOf, outs, i);
    }
  }

  /** A report holds what the tasks found, all of it, once, sorted. */
  lemma ReportPermutes(outs: seq<Output>, run: seq<Step>)
    requires Schedule(|outs|, run)
    ensures var report := Report(outs, After(START, run).finished);
      && multiset(report) == multiset(Sequential(outs))
      && Sorted(ByKey(), report)
  {
    hide Schedule;
    var order := After(START, run).finished;
    FinishingOrder(|outs|, run);
    hide After;
    MapPermutes(Pick(outs), order, Upto(|outs|));
    SequentialIsGathered(outs);
    FlattenPermutes(Map(Pick(outs), order), Map(Pick(outs), Upto(|outs|)));
    SortPermutes(ByKey(), Gathered(outs, order));
    KeyOrder();
    SortSorts(ByKey(), Gathered(outs, order));
  }

  predicate AscendingKeys(ks: seq<Key>) {
    forall i, j :: 0 <= i < j < |ks| ==> !KeyLess(ks[j], ks[i])
  }

  lemma {:induction false} AscendingKeysAreUnique(a: seq<Key>, b: seq<Key>)
    requires multiset(a) == multiset(b) && AscendingKeys(a) && AscendingKeys(b)
    ensures a == b
  {
    if a == [] {
      assert |b| == |multiset(b)| == |multiset(a)| == 0;
    } else {
      SameLeast(a, b);
      hide KeyLess;
      assert a == [a[0]] + a[1..] && b == [b[0]] + b[1..];
      assert multiset(a[1..]) == multiset(a) - multiset([a[0]]);
      assert multiset(b[1..]) == multiset(b) - multiset([b[0]]);
      AscendingKeysAreUnique(a[1..], b[1..]);
    }
  }

  lemma SameLeast(a: seq<Key>, b: seq<Key>)
    requires multiset(a) == multiset(b) && a != [] && AscendingKeys(a) && AscendingKeys(b)
    ensures b != [] && a[0] == b[0]
  {
    hide KeyLess;
    assert |b| == |multiset(b)| == |multiset(a)| == |a|;
    assert a[0] in multiset(b) && b[0] in multiset(a);
    var i :| 0 <= i < |b| && b[i] == a[0];
    var j :| 0 <= j < |a| && a[j] == b[0];
    KeysAreTotal(a[0], b[0]);
  }

  lemma SortedKeysAreUnique(a: seq<Finding>, b: seq<Finding>)
    requires multiset(a) == multiset(b) && Sorted(ByKey(), a) && Sorted(ByKey(), b)
    ensures Keys(a) == Keys(b)
  {
    MapPermutes(KeyOf, a, b);
    AscendingIfSorted(a);
    AscendingIfSorted(b);
    AscendingKeysAreUnique(Keys(a), Keys(b));
  }

  lemma AscendingIfSorted(a: seq<Finding>)
    requires Sorted(ByKey(), a)
    ensures AscendingKeys(Keys(a))
  {
    forall i, j | 0 <= i < j < |a| ensures !KeyLess(Keys(a)[j], Keys(a)[i]) {
      MapAt(KeyOf, a, i);
      MapAt(KeyOf, a, j);
      assert !ByKey()(a[j], a[i]);
    }
  }

  /** The same findings, and line by line the same severity rank and category. */
  predicate SameUpToTies(a: seq<Finding>, b: seq<Finding>) {
    multiset(a) == multiset(b) && Keys(a) == Keys(b)
  }

  /** Whatever the goroutines do: the same findings, and severity and category line by line the same. */
  lemma ScheduleIndependence(outs: seq<Output>, run: seq<Step>, run': seq<Step>)
    requires Schedule(|outs|, run) && Schedule(|outs|, run')
    ensures SameUpToTies(ReportOf(outs, run), ReportOf(outs, run'))
  {
    hide Report, Schedule, After, Keys;
    ReportPermutes(outs, run);
    ReportPermutes(outs, run');
    SortedKeysAreUnique(Report(outs, After(START, run).finished), Report(outs, After(START, run').finished));
  }

  function PickKey(outs: seq<Output>, k: Key): nat -> seq<Finding> {
    (i: nat) => Filter(HasKey(k), Pick(outs)(i))
  }

  /** The findings with one key appear task by task in finishing order, and within a task as it emitted them. */
  lemma BlocksFollowTheTasks(outs: seq<Output>, order: seq<nat>, k: Key)
    ensures Filter(HasKey(k), Report(outs, order)) == Flatten(Map(PickKey(outs, k), order))
  {
    forall y, z | HasKey(k)(y) && HasKey(k)(z) ensures !ByKey()(y, z) {
      KeysAreTotal(KeyOf(y), KeyOf(z));
    }
    SortStable(ByKey(), HasKey(k), Gathered(outs, order));
    FilterFlatten(outs, order, k);
  }

  lemma {:induction false} FilterFlatten(outs: seq<Output>, order: seq<nat>, k: Key)
    ensures Filter(HasKey(k), Flatten(Map(Pick(outs), order))) == Flatten(Map(PickKey(outs, k), order))
  {
    hide HasKey, Pick;
    if order != [] {
      FilterConcat(HasKey(k), Pick(outs)(order[0]), Flatten(Map(Pick(outs), order[1..])));
      FilterFlatten(outs, order[1..], k);
    }
  }

  /** Two schedules give the very same report exactly when they give the same block for every key. */
  lemma SameReport(outs: seq<Output>, order: seq<nat>, order': seq<nat>)
    ensures Report(outs, order) == Report(outs, order')
       <==> forall k :: Flatten(Map(PickKey(outs, k), order)) == Flatten(Map(PickKey(outs, k), order'))
  {
    var a, b := Report(outs, order), Report(outs, order');
    forall k ensures Filter(HasKey(k), a) == Flatten(Map(PickKey(outs, k), order))
                     && Filter(HasKey(k), b) == Flatten(Map(PickKey(outs, k), order')) {
      BlocksFollowTheTasks(outs, order, k);
      BlocksFollowTheTasks(outs, order', k);
    }
    if forall k :: Flatten(Map(PickKey(outs, k), order)) == Flatten(Map(PickKey(outs, k), order')) {
      KeyOrder();
      SortSorts(ByKey(), Gathered(outs, order));
      SortSorts(ByKey(), Gathered(outs, order'));
      forall x: Finding ensures Filter(Alike(ByKey(), x), a) == Filter(Alike(ByKey(), x), b) {
        AlikeIsSameKey(x, a);
        AlikeIsSameKey(x, b);
      }
      SortedUnique(ByKey(), a, b);
    }
  }

  lemma {:induction false} AlikeIsSameKey(x: Finding, fs: seq<Finding>)
    ensures Filter(Alike(ByKey(), x), fs) == Filter(HasKey(KeyOf(x)), fs)
  {
    if fs != [] {
      KeysAreTotal(KeyOf(x), KeyOf(fs[0]));
      AlikeIsSameKey(x, fs[1..]);
    }
  }

  // ----- when the report does not depend on the schedule -----

  /** The findings of the two tasks with this key read the same in either order of the tasks. */
  predicate Commute(outs: seq<Output>, k: Key, i: nat, j: nat) {
    PickKey(outs, k)(i) + PickKey(outs, k)(j) == PickKey(outs, k)(j) + PickKey(outs, k)(i)
  }

  ghost predicate TiesCommute(outs: seq<Output>) {
    forall k, i: nat, j: nat :: i < |outs| && j < |outs| ==> Commute(outs, k, i, j)
  }

  /** Every schedule gives the very same report. */
  ghost predicate Fixed(outs: seq<Output>) {
    forall run, run' :: Schedule(|outs|, run) && Schedule(|outs|, run') ==> ReportOf(outs, run) == ReportOf(outs, run')
  }

  /** The report is independent of the schedule exactly when tasks that share a key commute on it. */
  lemma FixedReport(outs: seq<Output>)
    ensures Fixed(outs) <==> TiesCommute(outs)
  {
    hide Schedule, ReportOf, Commute;
    if TiesCommute(outs) {
      forall run, run' | Schedule(|outs|, run) && Schedule(|outs|, run') ensures ReportOf(outs, run) == ReportOf(outs, run') {
        CommutingTiesFix(outs, run, run');
      }
    }
    if Fixed(outs) {
      forall k, i: nat, j: nat | i < |outs| && j < |outs| ensures Commute(outs, k, i, j) {
        FixedTiesCommute(outs, k, i, j);
      }
    }
  }

  predicate Swap(f: nat -> seq<Finding>, x: nat, y: nat) {
    f(x) + f(y) == f(y) + f(x)
  }

  lemma CommutingTiesFix(outs: seq<Output>, run: seq<Step>, run': seq<Step>)
    requires TiesCommute(outs) && Schedule(|outs|, run) && Schedule(|outs|, run')
    ensures ReportOf(outs, run) == ReportOf(outs, run')
  {
    var order, order' := After(START, run).finished, After(START, run').finished;
    FinishingOrder(|outs|, run);
    FinishingOrder(|outs|, run');
    SameMembers(order, |outs|);
    hide Schedule, After;
    forall k ensures Flatten(Map(PickKey(outs, k), order)) == Flatten(Map(PickKey(outs, k), order')) {
      forall x, y | x in order && y in order ensures Swap(PickKey(outs, k), x, y) {
        assert Commute(outs, k, x, y);
      }
      CommutingFlatten(PickKey(outs, k), order, order');
    }
    SameReport(outs, order, order');
  }

  lemma SameMembers(order: seq<nat>, n: nat)
    requires multiset(order) == multiset(Upto(n))
    ensures forall x: nat :: x in order <==> x < n
  {
    forall x: nat ensures x in order <==> x < n {
      var a: multiset<nat>, b: multiset<nat> := multiset(order), multiset(Upto(n));
      assert x in order <==> x in a;
      assert x in Upto(n) <==> x in b;
      assert x < n ==> Upto(n)[x] == x;
    }
  }

  lemma {:induction false} CommutingFlatten(f: nat -> seq<Finding>, a: seq<nat>, b: seq<nat>)
    requires multiset(a) == multiset(b)
    requires forall x, y :: x in a && y in a ==> Swap(f, x, y)
    ensures Flatten(Map(f, a)) == Flatten(Map(f, b))
  {
    if a == [] {
      assert |b| == |multiset(b)| == |multiset(a)| == 0;
    } else {
      var i := TakeOut(a, b);
      var l, r := b[..i], b[i + 1..];
      CommutingFlatten(f, a[1..], l + r);
      forall y | y in l ensures Swap(f, a[0], y) {
        assert y in multiset(b) && y in multiset(a);
      }
      PastCommuting(f, a[0], l);
      MapSplit(f, b, i);
      MapConcat(f, l, r);
      hide Map, Swap;
      FlattenPast(Map(f, l), f(a[0]), Map(f, r));
      FlattenCons(f, a);
    }
  }

  lemma FlattenCons(f: nat -> seq<Finding>, a: seq<nat>)
    requires a != []
    ensures Flatten(Map(f, a)) == f(a[0]) + Flatten(Map(f, a[1..]))
  {}

  /** A block that commutes with what stands before it may as well come first. */
  lemma FlattenPast(l: seq<seq<Finding>>, x: seq<Finding>, r: seq<seq<Finding>>)
    requires x + Flatten(l) == Flatten(l) + x
    ensures Flatten(l + ([x] + r)) == x + Flatten(l + r)
  {
    FlattenConcat(l, [x] + r);
    FlattenConcat(l, r);
    assert ([x] + r)[1..] == r;
    assert Flatten([x] + r) == x + Flatten(r);
    hide Flatten;
    Regroup(Flatten(l), x, Flatten(r));
  }

  lemma Regroup(l: seq<Finding>, x: seq<Finding>, r: seq<Finding>)
    requires x + l == l + x
    ensures l + (x + r) == x + (l + r)
  {
    assert l + (x + r) == (l + x) + r;
    assert x + (l + r) == (x + l) + r;
  }

  lemma {:induction false} PastCommuting(f: nat -> seq<Finding>, x: nat, l: seq<nat>)
    requires forall y :: y in l ==> Swap(f, x, y)
    ensures f(x) + Flatten(Map(f, l)) == Flatten(Map(f, l)) + f(x)
  {
    if l == [] {
      assert f(x) + [] == [] + f(x);
    } else {
      PastCommuting(f, x, l[1..]);
      FlattenCons(f, l);
      assert Swap(f, x, l[0]);
      var first, rest := f(l[0]), Flatten(Map(f, l[1..]));
      hide Map, Flatten;
      assert f(x) + (first + rest) == (f(x) + first) + rest;
      assert (first + f(x)) + rest == first + (f(x) + rest);
      assert first + (rest + f(x)) == (first + rest) + f(x);
    }
  }

  // ----- two tasks can always finish in either order, last -----

  lemma {:induction false} RunConcat(n: nat, p: Pool, a: seq<Step>, b: seq<Step>)
    requires Legal(n, p, a) && Legal(n, After(p, a), b)
    ensures Legal(n, p, a + b) && After(p, a + b) == After(After(p, a), b)
    decreases |a|
  {
    hide Enabled, Next;
    if a == [] {
      assert a + b == b;
    } else {
      assert (a + b)[1..] == a[1..] + b;
      RunConcat(n, Next(p, a[0]), a[1..], b);
    }
  }

  /** The first t tasks, all but i and j through to their end. */
  function Through(i: nat, j: nat, t: nat): seq<Step> {
    if t == 0 then []
    else Through(i, j, t - 1) + (if t - 1 == i || t - 1 == j then [Launch] else [Launch, Finish(t - 1), Leave(t - 1)])
  }

  function Others(i: nat, j: nat, t: nat): (r: seq<nat>)
    ensures forall x :: x in r ==> x < t && x != i && x != j
  {
    if t == 0 then [] else Others(i, j, t - 1) + (if t - 1 == i || t - 1 == j then [] else [t - 1])
  }

  function Held(i: nat, j: nat, t: nat): set<nat> {
    (if i < t then {i} else {}) + (if j < t then {j} else {})
  }

  lemma {:induction false} ThroughRuns(n: nat, i: nat, j: nat, t: nat)
    requires t <= n
    ensures Legal(n, START, Through(i, j, t)) && After(START, Through(i, j, t)) == Pool(t, Held(i, j, t), Others(i, j, t))
  {
    if t == 0 {
      assert Held(i, j, t) == {};
    } else {
      hide Legal, After, Through, Others, Held;
      ThroughRuns(n, i, j, t - 1);
      NextHeld(i, j, t);
      NextThrough(i, j, t);
      FewHeld(i, j, t - 1);
      var before, p := Through(i, j, t - 1), Pool(t - 1, Held(i, j, t - 1), Others(i, j, t - 1));
      var last := if t - 1 == i || t - 1 == j then [Launch] else [Launch, Finish(t - 1), Leave(t - 1)];
      if t - 1 == i || t - 1 == j {
        IsHeld(n, p);
      } else {
        RunsThrough(n, p);
      }
      RunConcat(n, START, before, last);
    }
  }

  /** A task is launched and goes on. */
  lemma IsHeld(n: nat, p: Pool)
    requires p.next < n && |p.active| < LIMIT
    ensures Legal(n, p, [Launch]) && After(p, [Launch]) == Pool(p.next + 1, p.active + {p.next}, p.finished)
  {
    OneStep(n, p, Launch, []);
    assert [Launch] + [] == [Launch];
  }

  lemma FewHeld(i: nat, j: nat, t: nat)
    ensures |Held(i, j, t)| <= 2 && t !in Held(i, j, t)
  {
    assert Held(i, j, t) <= {i, j};
    SubsetSize(Held(i, j, t), {i, j});
  }

  lemma SubsetSize(a: set<nat>, b: set<nat>)
    requires a <= b
    ensures |a| <= |b|
  {
    assert b == a + (b - a);
  }

  lemma NextThrough(i: nat, j: nat, t: nat)
    requires t > 0
    ensures Through(i, j, t) == Through(i, j, t - 1) + (if t - 1 == i || t - 1 == j then [Launch] else [Launch, Finish(t - 1), Leave(t - 1)])
    ensures Others(i, j, t) == if t - 1 == i || t - 1 == j then Others(i, j, t - 1) else Others(i, j, t - 1) + [t - 1]
  {}

  lemma NextHeld(i: nat, j: nat, t: nat)
    requires t > 0
    ensures Held(i, j, t) == Held(i, j, t - 1) + (if t - 1 == i || t - 1 == j then {t - 1} else {})
  {}

  lemma OneStep(n: nat, p: Pool, step: Step, rest: seq<Step>)
    requires Enabled(n, p, step) && Legal(n, Next(p, step), rest)
    ensures Legal(n, p, [step] + rest) && After(p, [step] + rest) == After(Next(p, step), rest)
  {
    assert ([step] + rest)[1..] == rest;
  }

  /** A task is launched, finishes and leaves before anything else happens. */
  lemma RunsThrough(n: nat, p: Pool)
    requires p.next < n && |p.active| < LIMIT && p.next !in p.active && p.next !in p.finished
    ensures var run := [Launch, Finish(p.next), Leave(p.next)];
      Legal(n, p, run) && After(p, run) == Pool(p.next + 1, p.active, p.finished + [p.next])
  {
    var t := p.next;
    var p1 := Next(p, Launch);
    var p2 := Next(p1, Finish(t));
    OneStep(n, p2, Leave(t), []);
    assert [Leave(t)] + [] == [Leave(t)];
    OneStep(n, p1, Finish(t), [Leave(t)]);
    OneStep(n, p, Launch, [Finish(t)] + [Leave(t)]);
    assert [Launch] + ([Finish(t)] + [Leave(t)]) == [Launch, Finish(t), Leave(t)];
    assert p.active + {t} - {t} == p.active;
  }

  /** The tasks i and j, as a and b, finish behind all others. */
  lemma LastTwo(n: nat, i: nat, j: nat, a: nat, b: nat) returns (run: seq<Step>)
    requires i < n && j < n && i != j && ((a == i && b == j) || (a == j && b == i))
    ensures Schedule(n, run) && After(START, run).finished == Others(i, j, n) + [a, b]
  {
    ThroughRuns(n, i, j, n);
    var p := Pool(n, Held(i, j, n), Others(i, j, n));
    assert p.active == {a, b};
    var p1 := Next(p, Finish(a));
    var p2 := Next(p1, Finish(b));
    var p3 := Next(p2, Leave(a));
    OneStep(n, p3, Leave(b), []);
    assert [Leave(b)] + [] == [Leave(b)];
    OneStep(n, p2, Leave(a), [Leave(b)]);
    OneStep(n, p1, Finish(b), [Leave(a)] + [Leave(b)]);
    OneStep(n, p, Finish(a), [Finish(b)] + ([Leave(a)] + [Leave(b)]));
    var end := [Finish(a)] + ([Finish(b)] + ([Leave(a)] + [Leave(b)]));
    run := Through(i, j, n) + end;
    RunConcat(n, START, Through(i, j, n), end);
    assert Others(i, j, n) + [a] + [b] == Others(i, j, n) + [a, b];
  }

  lemma FixedTiesCommute(outs: seq<Output>, k: Key, i: nat, j: nat)
    requires Fixed(outs) && i < |outs| && j < |outs|
    ensures Commute(outs, k, i, j)
  {
    if i != j {
      var run := LastTwo(|outs|, i, j, i, j);
      var run' := LastTwo(|outs|, i, j, j, i);
      assert ReportOf(outs, run) == ReportOf(outs, run');
      var others := Others(i, j, |outs|);
      BlocksFollowTheTasks(outs, others + [i, j], k);
      BlocksFollowTheTasks(outs, others + [j, i], k);
      hide Schedule, Report, After, PickKey;
      EndsInTwo(PickKey(outs, k), others, i, j);
      EndsInTwo(PickKey(outs, k), others, j, i);
      SameRest(Flatten(Map(PickKey(outs, k), others)), PickKey(outs, k)(i) + PickKey(outs, k)(j), PickKey(outs, k)(j) + PickKey(outs, k)(i));
    }
  }

  lemma EndsInTwo(f: nat -> seq<Finding>, order: seq<nat>, a: nat, b: nat)
    ensures Flatten(Map(f, order + [a, b])) == Flatten(Map(f, order)) + (f(a) + f(b))
  {
    MapConcat(f, order, [a, b]);
    FlattenConcat(Map(f, order), Map(f, [a, b]));
    FlattenCons(f, [a, b]);
    FlattenCons(f, [b]);
    assert [a, b][1..] == [b] && [b][1..] == [];
    assert Flatten(Map(f, [])) == [];
    hide Flatten, Map;
    assert f(b) + [] == f(b);
  }

  lemma SameRest(a: seq<Finding>, b: seq<Finding>, c: seq<Finding>)
    requires a + b == a + c
    ensures b == c
  {
    assert (a + b)[|a|..] == b && (a + c)[|a|..] == c;
  }

  /** At most one task finds anything with this key. */
  predicate Sole(outs: seq<Output>, k: Key) {
    forall i, j :: 0 <= i < j < |outs| ==> PickKey(outs, k)(i) == [] || PickKey(outs, k)(j) == []
  }

  /** In particular when no two tasks share a key, the report does not depend on the schedule at all. */
  lemma SoleEmittersFixTheReport(outs: seq<Output>, run: seq<Step>, run': seq<Step>)
    requires Schedule(|outs|, run) && Schedule(|outs|, run')
    requires forall k :: Sole(outs, k)
    ensures ReportOf(outs, run) == ReportOf(outs, run')
  {
    hide Schedule, ReportOf;
    forall k, i: nat, j: nat | i < |outs| && j < |outs| ensures Commute(outs, k, i, j) {
      SoleCommute(outs, k, i, j);
    }
    FixedReport(outs);
  }

  lemma SoleCommute(outs: seq<Output>, k: Key, i: nat, j: nat)
    requires Sole(outs, k) && i < |outs| && j < |outs|
    ensures Commute(outs, k, i, j)
  {
    hide PickKey;
    var a, b := PickKey(outs, k)(i), PickKey(outs, k)(j);
    assert i < j || j < i ==> a == [] || b == [];
    assert a + [] == [] + a && b + [] == [] + b;
  }

  lemma PickOne(outs: seq<Output>, k: Key, i: nat, f: Finding)
    requires i < |outs| && outs[i] == Some([f]) && KeyOf(f) == k
    ensures PickKey(outs, k)(i) == [f]
  {
    assert Pick(outs)(i) == [f] && HasKey(k)(f);
    FilterCons(HasKey(k), f, []);
    assert [f] + [] == [f];
  }

  /** Two rules that find different things of the same severity and category already make the report depend on the schedule. */
  lemma ScheduleCanShow(f: Finding, g: Finding)
    requires KeyOf(f) == KeyOf(g) && f != g
    ensures !Fixed([Some([f]), Some([g])])
  {
    var outs: seq<Output> := [Some([f]), Some([g])];
    var k := KeyOf(f);
    PickOne(outs, k, 0, f);
    PickOne(outs, k, 1, g);
    assert ([f] + [g])[0] != ([g] + [f])[0];
    assert !Commute(outs, k, 0, 1);
    FixedReport(outs);
  }

  // ----- fleets -----

  lemma {:induction false} SameParts(a: seq<Output>, b: seq<Output>)
    requires |a| == |b| && forall i :: 0 <= i < |a| ==> multiset(FindingsOf(a[i])) == multiset(FindingsOf(b[i]))
    ensures multiset(Sequential(a)) == multiset(Sequential(b))
  {
    if a != [] {
      SameParts(a[1..], b[1..]);
      assert multiset(FindingsOf(a[0])) == multiset(FindingsOf(b[0]));
    }
  }

  /** A fleet scan that succeeds: all targets are known and answer, and every group runs to its end. */
  predicate FleetRun(clusters: map<string, Cluster>, targets: seq<string>, inner: nat -> seq<Step>, run: seq<Step>) {
    && (forall i :: 0 <= i < |targets| ==>
          targets[i] in clusters && clusters[targets[i]].snapshot && Schedule(|clusters[targets[i]].rules|, inner(i)))
    && Schedule(|targets|, run)
  }

  function FleetReport(clusters: map<string, Cluster>, targets: seq<string>, inner: nat -> seq<Step>, run: seq<Step>): seq<Finding>
    requires FleetRun(clusters, targets, inner, run)
  {
    Report(FleetOutputs(clusters, targets, inner), After(START, run).finished)
  }

  /** The same for a fleet, whatever order its clusters and the rules within each cluster finish in. */
  lemma FleetScheduleIndependence(clusters: map<string, Cluster>, targets: seq<string>,
                                  inner: nat -> seq<Step>, run: seq<Step>, inner': nat -> seq<Step>, run': seq<Step>)
    requires FleetRun(clusters, targets, inner, run) && FleetRun(clusters, targets, inner', run')
    ensures SameUpToTies(FleetReport(clusters, targets, inner, run), FleetReport(clusters, targets, inner', run'))
  {
    var outs, outs' := FleetOutputs(clusters, targets, inner), FleetOutputs(clusters, targets, inner');
    forall i | 0 <= i < |targets| ensures multiset(FindingsOf(outs[i])) == multiset(FindingsOf(outs'[i])) {
      ReportPermutes(Delivered(clusters[targets[i]].rules), inner(i));
      ReportPermutes(Delivered(clusters[targets[i]].rules), inner'(i));
    }
    hide Report, Schedule, After, Keys, FleetOutputs;
    SameParts(outs, outs');
    ReportPermutes(outs, run);
    ReportPermutes(outs', run');
    SortedKeysAreUnique(Report(outs, After(START, run).finished), Report(outs', After(START, run').finished));
  }
}
