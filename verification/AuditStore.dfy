/** The SQLite audit sink: `Record` in one transaction, and `VerifyAuditChain` over what is stored. */
module AuditStore {
  import opened Wrappers
  import opened Crypto
  import opened AuditChain

  datatype AuditEntry = AuditEntry(sessionId: string, tool: string, cluster: string, risk: string, args: string,
                                   diff: string, approver: string, dryRun: bool, status: string, summary: string)

  datatype Execution = Execution(sessionId: string, clusterId: Option<string>, tool: string, args: string,
                                 diff: Option<string>, risk: string, approvedBy: string, dryRun: bool, status: string)

  /** The statement of Record that the database or the random source lets fail. */
  datatype Fault = NoFault | AtBegin | AtEncryptArgs | AtEncryptDiff | AtInsertExecution | AtReadTail
                 | AtEncryptPayload | AtInsertLog | AtCommit

  datatype Nonces = Nonces(args: string, diff: string, payload: string)

  /** The args column and the payload show an empty object for absent arguments. */
  function ShownArgs(e: AuditEntry): string {
    if e.args == "" then "{}" else e.args
  }

  /** The stored rows decrypt to the clear ones, and their ids are positive and not yet exceeded. */
  predicate ReadsAs(cipher: Option<Cipher>, stored: seq<LogRow>, clear: seq<LogRow>, lastId: int) {
    && |stored| == |clear| && lastId >= 0
    && forall i :: 0 <= i < |stored| ==>
        && stored[i].(payload := clear[i].payload) == clear[i]
        && Dec(cipher, stored[i].payload) == Ok(clear[i].payload)
        && 0 < stored[i].id <= lastId
  }

  lemma ReadsAsOneMore(h: string -> string, cipher: Option<Cipher>, stored: seq<LogRow>, clear: seq<LogRow>, lastId: int,
                       nonce: string, p: string)
    requires ReadsAs(cipher, stored, clear, lastId) && (cipher.Some? ==> Sound(cipher.value))
    ensures Tail(stored) == Tail(clear)
    ensures var row := LogRow(lastId + 1, Enc(cipher, nonce, p), Tail(stored), h(Tail(stored) + p));
      ReadsAs(cipher, stored + [row], Extend(h, clear, lastId + 1, p), lastId + 1)
  {
    if stored != [] {
      assert stored[|stored| - 1].(payload := clear[|stored| - 1].payload) == clear[|stored| - 1];
    }
    DecUndoesEnc(cipher, nonce, p);
  }

  /**
   The clear row for an entry: its payload is the JSON of the entry, with an empty object for absent
   arguments, and empty text when there is no JSON; its hash covers the previous hash and the payload.
   */
  predicate RowTells(hash: string -> string, encode: AuditEntry -> Option<string>, e: AuditEntry, log: seq<LogRow>, row: LogRow, lastId: int) {
    var json := encode(if e.args == "" then e.(args := "{}") else e);
    && row.id == lastId + 1
    && row.payload == (if json.Some? then json.value else "")
    && row.hashPrev == (if log == [] then "" else log[|log| - 1].hashCurr)
    && row.hashCurr == hash(row.hashPrev + row.payload)
  }

  lemma RecordedRowTells(hash: string -> string, encode: AuditEntry -> Option<string>, e: AuditEntry, log: seq<LogRow>,
                         clear: seq<LogRow>, lastId: int, payload: string)
    requires Tail(log) == Tail(clear)
    requires var json := encode(e.(args := ShownArgs(e))); payload == if json.Some? then json.value else ""
    ensures |Extend(hash, clear, lastId + 1, payload)| == |clear| + 1
    ensures RowTells(hash, encode, e, log, Extend(hash, clear, lastId + 1, payload)[|clear|], lastId)
    ensures Extend(hash, clear, lastId + 1, payload)[|clear|] == LogRow(lastId + 1, payload, Tail(log), hash(Tail(log) + payload))
  {}

  class AuditStore {
    const hash: string -> string
    const encode: AuditEntry -> Option<string>  // JSON of the hashed fields; it fails on malformed arguments
    const cipher: Option<Cipher>
    var clusters: map<string, string>
    var executions: seq<Execution>
    var log: seq<LogRow>                        // payloads as stored
    var lastId: int

    constructor (hash: string -> string, encode: AuditEntry -> Option<string>, cipher: Option<Cipher>)
      requires cipher.Some? ==> Sound(cipher.value)
      ensures this.hash == hash && this.encode == encode && this.cipher == cipher
      ensures executions == [] && log == [] && lastId == 0 && Valid([])
    {
      this.hash, this.encode, this.cipher := hash, encode, cipher;
      clusters, executions, log, lastId := map[], [], [], 0;
    }

    /** An encoding failure is ignored and leaves an empty payload. */
    function Payload(e: AuditEntry): string {
      var json := encode(e.(args := ShownArgs(e)));
      if json.Some? then json.value else ""
    }

    /** Clear is the log as it reads once decrypted; it is intact, and each row has its execution. */
    ghost predicate Valid(clear: seq<LogRow>)
      reads this
    {
      && Chained(hash, clear)
      && (cipher.Some? ==> Sound(cipher.value))
      && ReadsAs(cipher, log, clear, lastId)
      && |log| == |executions|
    }

    predicate Strikes(e: AuditEntry, fault: Fault) {
      match fault
      case NoFault => false
      case AtEncryptArgs => cipher.Some?
      case AtEncryptDiff => cipher.Some? && e.diff != ""
      case AtEncryptPayload => cipher.Some?
      case _ => true
    }

    /** The execution row of an entry, unless encrypting a column fails. */
    method NewExecution(e: AuditEntry, nonces: Nonces, fault: Fault) returns (r: Option<Execution>)
      ensures r == None <==> cipher.Some? && (fault == AtEncryptArgs || (fault == AtEncryptDiff && e.diff != ""))
      ensures r.Some? ==> (r.value ==
                Execution(e.sessionId, if e.cluster != "" && e.cluster in clusters then Some(clusters[e.cluster]) else None, e.tool,
                          Enc(cipher, nonces.args, if e.args == "" then "{}" else e.args),
                          if e.diff == "" then None else Some(Enc(cipher, nonces.diff, e.diff)),
                          e.risk, e.approver, e.dryRun, e.status))
    {
      hide Enc;
      var clusterId := None;
      if e.cluster != "" && e.cluster in clusters {
        clusterId := Some(clusters[e.cluster]);
      }
      var args := e.args;
      if args == "" {
        args := "{}";
      }
      if fault == AtEncryptArgs && cipher.Some? { return None; }
      var encArgs := Enc(cipher, nonces.args, args);
      var encDiff := None;
      if e.diff != "" {
        if fault == AtEncryptDiff && cipher.Some? { return None; }
        encDiff := Some(Enc(cipher, nonces.diff, e.diff));
      }
      return Some(Execution(e.sessionId, clusterId, e.tool, encArgs, encDiff, e.risk, e.approver, e.dryRun, e.status));
    }

    /**
     Either a statement fails and nothing changes, or one execution row and one log row are added and
     the clear log is extended by the entry's payload.
     */
    method Record(e: AuditEntry, nonces: Nonces, fault: Fault, ghost clear: seq<LogRow>)
      returns (ok: bool, ghost clear': seq<LogRow>)
      requires Valid(clear)
      modifies `executions, `log, `lastId
      ensures Valid(clear') && ok == !Strikes(e, fault)
      ensures !ok ==> clear' == clear && executions == old(executions) && log == old(log) && lastId == old(lastId)
      ensures ok ==> clear' == Extend(hash, clear, lastId, Payload(e)) && lastId == old(lastId) + 1
      ensures ok ==> |clear'| == |clear| + 1
      ensures ok ==> log == old(log) + [clear'[|clear|].(payload := Enc(cipher, nonces.payload, Payload(e)))]
      ensures ok ==> RowTells(hash, encode, e, old(log), clear'[|clear|], old(lastId))
      ensures ok ==> executions == old(executions) + [
                       Execution(e.sessionId, if e.cluster != "" && e.cluster in clusters then Some(clusters[e.cluster]) else None, e.tool,
                                 Enc(cipher, nonces.args, ShownArgs(e)),
                                 if e.diff == "" then None else Some(Enc(cipher, nonces.diff, e.diff)),
                                 e.risk, e.approver, e.dryRun, e.status)]
    {
      hide Valid, Extend, Enc, Payload, RowTells;
      ok, clear' := false, clear;
      if fault == AtBegin { return; }
      var execution := NewExecution(e, nonces, fault);
      if execution == None { return; }
      if fault == AtInsertExecution || fault == AtReadTail { return; }
      if fault == AtEncryptPayload && cipher.Some? { return; }
      if fault == AtInsertLog || fault == AtCommit { return; }
      clear' := Commit(e, execution.value, nonces.payload, clear);
      ok := true;
    }

    /** The rows of a recording whose statements all succeed: the execution, and the next link of the chain. */
    method Commit(e: AuditEntry, execution: Execution, nonce: string, ghost clear: seq<LogRow>) returns (ghost clear': seq<LogRow>)
      requires Valid(clear)
      modifies `executions, `log, `lastId
      ensures Valid(clear') && clear' == Extend(hash, clear, lastId, Payload(e)) && lastId == old(lastId) + 1
      ensures |clear'| == |clear| + 1
      ensures log == old(log) + [clear'[|clear|].(payload := Enc(cipher, nonce, Payload(e)))]
      ensures RowTells(hash, encode, e, old(log), clear'[|clear|], old(lastId))
      ensures executions == old(executions) + [execution]
    {
      hide ReadsAs, Chained, Enc, Sound, RowTells;
      var prev := "";
      if log != [] {
        prev := log[|log| - 1].hashCurr;
      }
      var payload := Payload(e);
      assert prev == Tail(log);
      var cur := hash(prev + payload);
      var stored := Enc(cipher, nonce, payload);
      ReadsAsOneMore(hash, cipher, log, clear, lastId, nonce, payload);
      RecordedRowTells(hash, encode, e, log, clear, lastId, payload);
      ExtendKeepsChained(hash, clear, lastId + 1, payload);
      hide Extend, Tail, Payload;
      executions := executions + [execution];
      log := log + [LogRow(lastId + 1, stored, prev, cur)];
      lastId := lastId + 1;
      clear' := Extend(hash, clear, lastId, payload);
    }

    /** The verdict on whatever the log table holds, tampered with or not. */
    method VerifyAuditChain() returns (r: Result<int, string>)
      ensures r == Verdict(hash, cipher, log, "")
    {
      var prev := "";
      for i := 0 to |log|
        invariant Verdict(hash, cipher, log[i..], prev) == Verdict(hash, cipher, log, "")
      {
        assert log[i..][1..] == log[i + 1..];
        var clear := Dec(cipher, log[i].payload);
        if clear.Err? {
          return Err(clear.error);
        }
        var want := hash(prev + clear.value);
        if log[i].hashPrev != prev || log[i].hashCurr != want {
          return Ok(log[i].id);
        }
        prev := log[i].hashCurr;
      }
      return Ok(0);
    }

    /** A log that only Record has written verifies, whatever is encrypted in it. */
    lemma RecordedVerifies(clear: seq<LogRow>)
      requires Valid(clear)
      ensures Verdict(hash, cipher, log, "") == Ok(0)
    {
      ReadsAlike(hash, cipher, log, clear, "");
      VerdictIsFirstBreak(hash, clear);
    }
  }

  /** The verdict depends on the stored payloads only through what they decrypt to. */
  lemma {:induction false} ReadsAlike(h: string -> string, cipher: Option<Cipher>, stored: seq<LogRow>, clear: seq<LogRow>, prev: string)
    requires exists lastId :: ReadsAs(cipher, stored, clear, lastId)
    ensures Verdict(h, cipher, stored, prev) == Verdict(h, None, clear, prev)
  {
    var lastId :| ReadsAs(cipher, stored, clear, lastId);
    if stored != [] {
      assert stored[0].(payload := clear[0].payload) == clear[0];
      assert ReadsAs(cipher, stored[1..], clear[1..], lastId);
      ReadsAlike(h, cipher, stored[1..], clear[1..], clear[0].hashCurr);
    }
  }
}
