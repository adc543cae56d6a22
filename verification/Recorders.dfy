/**
 Any number of goroutines of one process in `Record` at once, as steps between which any other writer
 may step. Each transaction works on its own copy of the tables; only a commit publishes it.
 */
module Recorders {
  import opened Wrappers
  import opened AuditChain

  datatype Tables = Tables(executions: nat, log: seq<LogRow>)

  /** Where a writer is in Record; p is the payload that it records. */
  datatype Phase =
    | Outside
    | Locked(p: string)
    | Begun(p: string, tx: Tables)
    | Inserted(p: string, tx: Tables)
    | TailRead(p: string, tx: Tables, prev: string)
    | Appended(p: string, tx: Tables)
    | Leaving

  /** The mutex, the published tables, and what has been committed, oldest first. */
  datatype State = State(writers: map<nat, Phase>, mutex: Option<nat>, tables: Tables, committed: seq<string>)

  ghost predicate Init(s: State) {
    s.mutex == None && s.tables == Tables(0, []) && s.committed == []
    && forall w :: w in s.writers ==> s.writers[w] == Outside
  }

  function Move(s: State, w: nat, to: Phase): State {
    s.(writers := s.writers[w := to])
  }

  /** One statement of writer w, or its failure; the deferred rollback and unlock follow a failure. */
  ghost predicate Step(h: string -> string, s: State, t: State, w: nat) {
    w in s.writers && match s.writers[w]
    case Outside => s.mutex == None && exists p :: t == Move(s, w, Locked(p)).(mutex := Some(w))
    case Locked(p) => t == Move(s, w, Begun(p, s.tables)) || t == Move(s, w, Leaving)
    case Begun(p, tx) =>
      t == Move(s, w, Inserted(p, tx.(executions := tx.executions + 1))) || t == Move(s, w, Leaving)
    case Inserted(p, tx) => t == Move(s, w, TailRead(p, tx, Tail(tx.log))) || t == Move(s, w, Leaving)
    case TailRead(p, tx, prev) =>
      || t == Move(s, w, Leaving)
      || exists id :: t == Move(s, w, Appended(p, tx.(log := tx.log + [LogRow(id, p, prev, h(prev + p))])))
    case Appended(p, tx) =>
      t == Move(s, w, Leaving).(tables := tx, committed := s.committed + [p]) || t == Move(s, w, Leaving)
    case Leaving => t == Move(s, w, Outside).(mutex := None)
  }

  ghost predicate Next(h: string -> string, s: State, t: State) {
    exists w :: Step(h, s, t, w)
  }

  ghost predicate Run(h: string -> string, trace: seq<State>) {
    && trace != [] && Init(trace[0])
    && forall i :: 0 < i < |trace| ==> Next(h, trace[i - 1], trace[i])
  }

  /** What the holder's transaction is, relative to the published tables. */
  ghost predicate PhaseOk(h: string -> string, tables: Tables, ph: Phase) {
    match ph
    case Begun(p, tx) => tx == tables
    case Inserted(p, tx) => tx == tables.(executions := tables.executions + 1)
    case TailRead(p, tx, prev) => tx == tables.(executions := tables.executions + 1) && prev == Tail(tables.log)
    case Appended(p, tx) =>
      tx.executions == tables.executions + 1 && exists id :: tx.log == Extend(h, tables.log, id, p)
    case _ => true
  }

  ghost predicate Inv(h: string -> string, s: State) {
    && Chained(h, s.tables.log)
    && s.tables.executions == |s.tables.log|
    && Payloads(s.tables.log) == s.committed
    && (forall w :: w in s.writers ==> (s.writers[w] == Outside <==> s.mutex != Some(w)))
    && (forall w :: w in s.writers ==> PhaseOk(h, s.tables, s.writers[w]))
  }

  lemma InitInv(h: string -> string, s: State)
    requires Init(s)
    ensures Inv(h, s)
  {}

  /** A commit publishes the old log with one more row. */
  lemma CommitInv(h: string -> string, s: State, tx: Tables, p: string)
    requires Inv(h, s) && PhaseOk(h, s.tables, Appended(p, tx))
    ensures Chained(h, tx.log) && tx.executions == |tx.log| && Payloads(tx.log) == s.committed + [p]
  {
    var id :| tx.log == Extend(h, s.tables.log, id, p);
    ExtendKeepsChained(h, s.tables.log, id, p);
    PayloadsOneMore(tx.log);
    assert tx.log[..|tx.log| - 1] == s.tables.log;
  }

  lemma AppendOk(h: string -> string, tables: Tables, p: string, tx: Tables, prev: string, id: int)
    requires PhaseOk(h, tables, TailRead(p, tx, prev))
    ensures PhaseOk(h, tables, Appended(p, tx.(log := tx.log + [LogRow(id, p, prev, h(prev + p))])))
  {
    assert tx.log + [LogRow(id, p, prev, h(prev + p))] == Extend(h, tables.log, id, p);
  }

  lemma StepInv(h: string -> string, s: State, t: State, w: nat)
    requires Inv(h, s) && Step(h, s, t, w)
    ensures Inv(h, t) && s.committed <= t.committed
  {
    var ph, ph' := s.writers[w], t.writers[w];
    if ph.TailRead? && ph'.Appended? {
      var id :| t == Move(s, w, Appended(ph.p, ph.tx.(log := ph.tx.log + [LogRow(id, ph.p, ph.prev, h(ph.prev + ph.p))])));
      AppendOk(h, s.tables, ph.p, ph.tx, ph.prev, id);
    }
    if ph.Appended? {
      CommitInv(h, s, ph.tx, ph.p);
    }
    hide Chained, Payloads, Extend;
    assert PhaseOk(h, t.tables, ph');
    forall v | v in t.writers && v != w ensures t.writers[v] == s.writers[v] {}
  }

  lemma {:induction false} RunInv(h: string -> string, trace: seq<State>, i: nat)
    requires Run(h, trace) && i < |trace|
    ensures Inv(h, trace[i])
    ensures i > 0 ==> trace[i - 1].committed <= trace[i].committed
  {
    if i == 0 {
      InitInv(h, trace[0]);
    } else {
      RunInv(h, trace, i - 1);
      assert Next(h, trace[i - 1], trace[i]);
      hide Inv, Step;
      var w :| Step(h, trace[i - 1], trace[i], w);
      StepInv(h, trace[i - 1], trace[i], w);
    }
  }

  /**
   However the writers interleave and wherever they fail, every published state verifies as intact, has
   one log row per execution row, and lists exactly the committed payloads in commit order.
   */
  lemma EveryCommittedStateIsIntact(h: string -> string, trace: seq<State>, i: nat)
    requires Run(h, trace) && i < |trace|
    ensures Verdict(h, None, trace[i].tables.log, "") == Ok(0)
    ensures trace[i].tables.executions == |trace[i].tables.log|
    ensures Payloads(trace[i].tables.log) == trace[i].committed
    ensures i > 0 ==> trace[i - 1].committed <= trace[i].committed
  {
    RunInv(h, trace, i);
    VerdictIsFirstBreak(h, trace[i].tables.log);
  }
}
