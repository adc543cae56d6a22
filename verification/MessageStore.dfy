/** Conversation messages in the local store: `AppendMessage` and `LoadMessages`. */
module MessageStore {
  import opened Wrappers
  import opened Seqs
  import opened StableSort
  import opened Crypto
  import opened Provider

  /** The JSON of the tool columns, which decodes to what was encoded. */
  datatype ToolPayload = ToolPayload(toolCalls: seq<ToolCall>, toolCallId: string, name: string)

  datatype Row = Row(session: string, role: Role, content: string, tool: Option<ToolPayload>, createdAt: int)

  function ToRow(cipher: Option<Cipher>, nonce: string, session: string, m: Message, now: int): Row {
    Row(session, m.role, Enc(cipher, nonce, m.content),
        if m.toolCalls != [] || m.toolCallId != "" then Some(ToolPayload(m.toolCalls, m.toolCallId, m.name)) else None,
        now)
  }

  function FromRow(cipher: Option<Cipher>, r: Row): Result<Message, string> {
    match Dec(cipher, r.content)
    case Err(e) => Err(e)
    case Ok(content) => Ok(match r.tool
                           case None => TextMessage(r.role, content)
                           case Some(p) => Message(r.role, content, p.toolCalls, p.toolCallId, p.name))
  }

  /** A name is stored only beside tool calls or a tool-call id. */
  predicate Survives(m: Message) {
    m.name == "" || m.toolCalls != [] || m.toolCallId != ""
  }

  /** What is read back: the name goes where it is not stored. */
  function AsStored(m: Message): Message {
    if Survives(m) then m else m.(name := "")
  }

  lemma RowReadsAs(cipher: Option<Cipher>, nonce: string, session: string, m: Message, now: int)
    requires cipher.Some? ==> Sound(cipher.value)
    ensures FromRow(cipher, ToRow(cipher, nonce, session, m, now)) == Ok(AsStored(m))
  {
    DecUndoesEnc(cipher, nonce, m.content);
  }

  /** Exactly the messages that survive come back as they were. */
  lemma RowRoundTrip(cipher: Option<Cipher>, nonce: string, session: string, m: Message, now: int)
    requires cipher.Some? ==> Sound(cipher.value)
    ensures FromRow(cipher, ToRow(cipher, nonce, session, m, now)) == Ok(m) <==> Survives(m)
  {
    RowReadsAs(cipher, nonce, session, m, now);
  }

  predicate ByTime(a: Row, b: Row) {
    a.createdAt < b.createdAt
  }

  /** The rows of a session by creation time, then insertion. */
  function Selected(rows: seq<Row>, session: string): seq<Row> {
    Sort((a: Row, b: Row) => ByTime(a, b), Filter((r: Row) => r.session == session, rows))
  }

  function ReadAll(cipher: Option<Cipher>, rows: seq<Row>): Result<seq<Message>, string> {
    if rows == [] then Ok([])
    else match FromRow(cipher, rows[0])
      case Err(e) => Err(e)
      case Ok(m) => match ReadAll(cipher, rows[1..])
        case Err(e) => Err(e)
        case Ok(rest) => Ok([m] + rest)
  }

  /** The rows of the session, in insertion order, read as the messages ms and carry rising times. */
  ghost predicate Holds(cipher: Option<Cipher>, rows: seq<Row>, session: string, ms: seq<Message>) {
    var own := Filter((r: Row) => r.session == session, rows);
    && ReadAll(cipher, own) == Ok(ms)
    && Sorted((a: Row, b: Row) => ByTime(a, b), own)
  }

  lemma TimeOrder()
    ensures StrictWeakOrder((a: Row, b: Row) => ByTime(a, b))
  {}

  /** Loading keeps insertion order exactly when creation times never fall. */
  lemma LoadOrder(rows: seq<Row>, session: string)
    ensures var own := Filter((r: Row) => r.session == session, rows);
      Selected(rows, session) == own <==> forall i, j :: 0 <= i < j < |own| ==> own[i].createdAt <= own[j].createdAt
  {
    var own := Filter((r: Row) => r.session == session, rows);
    TimeOrder();
    SortFixesSorted((a: Row, b: Row) => ByTime(a, b), own);
  }

  lemma HeldIsLoaded(cipher: Option<Cipher>, rows: seq<Row>, session: string, ms: seq<Message>)
    requires Holds(cipher, rows, session, ms)
    ensures ReadAll(cipher, Selected(rows, session)) == Ok(ms)
  {
    TimeOrder();
    SortFixesSorted((a: Row, b: Row) => ByTime(a, b), Filter((r: Row) => r.session == session, rows));
  }

  lemma {:induction false} ReadOneMore(cipher: Option<Cipher>, rows: seq<Row>, r: Row, ms: seq<Message>, m: Message)
    requires ReadAll(cipher, rows) == Ok(ms) && FromRow(cipher, r) == Ok(m)
    ensures ReadAll(cipher, rows + [r]) == Ok(ms + [m])
  {
    if rows == [] {
      assert rows + [r] == [r] && [r][1..] == [];
      assert ReadAll(cipher, [r][1..]) == Ok([]);
      assert [m] + [] == ms + [m];
    } else {
      assert (rows + [r])[1..] == rows[1..] + [r];
      ReadOneMore(cipher, rows[1..], r, ms[1..], m);
      assert ms + [m] == [ms[0]] + (ms[1..] + [m]);
    }
  }

  class MessageStore {
    const cipher: Option<Cipher>
    var rows: seq<Row>    // in rowid order
    var clock: int        // datetime('now'), which never goes back

    constructor (cipher: Option<Cipher>)
      requires cipher.Some? ==> Sound(cipher.value)
      ensures Valid() && rows == [] && this.cipher == cipher
    {
      this.cipher, rows, clock := cipher, [], 0;
    }

    ghost predicate Valid()
      reads this
    {
      && (cipher.Some? ==> Sound(cipher.value))
      && forall r :: r in rows ==> r.createdAt <= clock
    }

    /** Time passes, then the insert happens or fails. */
    method AppendMessage(session: string, m: Message, nonce: string, passed: nat, fails: bool) returns (ok: bool)
      requires Valid()
      modifies this
      ensures Valid() && ok == !fails
      ensures rows == if ok then old(rows) + [ToRow(cipher, nonce, session, m, clock)] else old(rows)
      ensures forall r :: r in old(rows) ==> r.createdAt <= clock
    {
      clock := clock + passed;
      if fails { return false; }
      rows := rows + [ToRow(cipher, nonce, session, m, clock)];
      return true;
    }

    method LoadMessages(session: string) returns (out: Result<seq<Message>, string>)
      ensures out == ReadAll(cipher, Selected(rows, session))
    {
      var found := Selected(rows, session);
      var msgs := [];
      for i := 0 to |found|
        invariant ReadAll(cipher, found[..i]) == Ok(msgs)
        invariant forall j :: 0 <= j < i ==> FromRow(cipher, found[j]).Ok?
      {
        var m := FromRow(cipher, found[i]);
        if m.Err? {
          FirstBadRow(cipher, found, i);
          return Err(m.error);
        }
        ReadOneMore(cipher, found[..i], found[i], msgs, m.value);
        assert found[..i + 1] == found[..i] + [found[i]];
        msgs := msgs + [m.value];
      }
      assert found[..|found|] == found;
      return Ok(msgs);
    }
  }

  lemma {:induction false} FirstBadRow(cipher: Option<Cipher>, rows: seq<Row>, i: nat)
    requires i < |rows| && FromRow(cipher, rows[i]).Err?
    requires forall j :: 0 <= j < i ==> FromRow(cipher, rows[j]).Ok?
    ensures ReadAll(cipher, rows) == Err(FromRow(cipher, rows[i]).error)
  {
    if i > 0 {
      FirstBadRow(cipher, rows[1..], i - 1);
    }
  }

  /** One append adds the message, as it is read back, to what its session holds. */
  lemma AppendHolds(cipher: Option<Cipher>, rows: seq<Row>, session: string, ms: seq<Message>, m: Message, nonce: string, now: int)
    requires cipher.Some? ==> Sound(cipher.value)
    requires Holds(cipher, rows, session, ms) && forall q :: q in rows ==> q.createdAt <= now
    ensures Holds(cipher, rows + [ToRow(cipher, nonce, session, m, now)], session, ms + [AsStored(m)])
  {
    RowReadsAs(cipher, nonce, session, m, now);
    HoldsOneMore(cipher, rows, session, ms, ToRow(cipher, nonce, session, m, now));
  }

  lemma HoldsOneMore(cipher: Option<Cipher>, rows: seq<Row>, session: string, ms: seq<Message>, r: Row)
    requires Holds(cipher, rows, session, ms) && forall q :: q in rows ==> q.createdAt <= r.createdAt
    ensures r.session != session ==> Holds(cipher, rows + [r], session, ms)
    ensures r.session == session && FromRow(cipher, r).Ok? ==> Holds(cipher, rows + [r], session, ms + [FromRow(cipher, r).value])
  {
    var p := (q: Row) => q.session == session;
    var own := Filter(p, rows);
    FilterConcat(p, rows, [r]);
    assert Filter(p, [r]) == if r.session == session then [r] else [];
    if r.session == session && FromRow(cipher, r).Ok? {
      ReadOneMore(cipher, own, r, ms, FromRow(cipher, r).value);
      assert forall i :: 0 <= i < |own| ==> own[i] in own;
    } else {
      assert own + [] == own;
    }
  }
}
