/** Short-term memory of a session: the rolling window and the summary of what it evicted. */
module SessionWindow {
  import opened Wrappers
  import opened Provider
  import opened MessageStore
  import opened Text

  const DEFAULT_WINDOW := 40

  // ----- rendering -----

  function Unbroken(s: string): (r: string)
    ensures |r| == |s| && '\n' !in r
  {
    if s == "" then "" else [if s[0] == '\n' then ' ' else s[0]] + Unbroken(s[1..])
  }

  function OneLine(s: string, n: nat): (r: string)
    ensures '\n' !in r && |r| <= n + 1
  {
    var u := Unbroken(s);
    if |u| > n then u[..n] + "…" else u
  }

  function Names(calls: seq<ToolCall>): (r: seq<string>)
    ensures |r| == |calls| && forall i :: 0 <= i < |r| ==> r[i] == calls[i].name
  {
    if calls == [] then [] else [calls[0].name] + Names(calls[1..])
  }

  /** The summary line of a message, if it has one. */
  function LineOf(m: Message): seq<string> {
    match m.role
    case User => ["user asked: " + OneLine(m.content, 120)]
    case Assistant =>
      if |m.toolCalls| > 0 then ["agent called: " + Join(Names(m.toolCalls), ", ")]
      else if m.content != "" then ["agent concluded: " + OneLine(m.content, 160)]
      else []
    case _ => []
  }

  function Lines(msgs: seq<Message>): seq<string> {
    if msgs == [] then [] else Lines(msgs[..|msgs| - 1]) + LineOf(msgs[|msgs| - 1])
  }

  /** Each line with its line break. */
  function Written(ls: seq<string>): string {
    if ls == [] then "" else Written(ls[..|ls| - 1]) + ls[|ls| - 1] + "\n"
  }

  function Lead(prev: string): string {
    if prev != "" then prev + "\n" else ""
  }

  function Folded(prev: string, evicted: seq<Message>): string {
    TrimSpace(Lead(prev) + Written(Lines(evicted)))
  }

  method FoldSummary(prev: string, evicted: seq<Message>) returns (s: string)
    ensures s == Folded(prev, evicted)
  {
    hide LineOf, Written;
    var b := "";
    if prev != "" {
      b := b + prev;
      b := b + "\n";
    }
    WrittenNothing();
    for i := 0 to |evicted|
      invariant b == Lead(prev) + Written(Lines(evicted[..i]))
    {
      assert evicted[..i + 1][..i] == evicted[..i];
      OneMoreLineOf(Lines(evicted[..i]), evicted[i]);
      b := WriteLine(b, evicted[i]);
    }
    assert evicted[..|evicted|] == evicted;
    return TrimSpace(b);
  }

  method WriteLine(b: string, m: Message) returns (b': string)
    ensures b' == b + LineText(m)
  {
    hide OneLine, Join, Names;
    b' := b;
    match m.role {
      case User =>
        b' := b' + ("user asked: " + OneLine(m.content, 120) + "\n");
      case Assistant =>
        if |m.toolCalls| > 0 {
          var names := [];
          for k := 0 to |m.toolCalls|
            invariant names == Names(m.toolCalls)[..k]
          {
            names := names + [m.toolCalls[k].name];
          }
          assert names == Names(m.toolCalls);
          b' := b' + ("agent called: " + Join(names, ", ") + "\n");
        } else if m.content != "" {
          b' := b' + ("agent concluded: " + OneLine(m.content, 160) + "\n");
        }
      case _ =>
    }
  }

  function LineText(m: Message): string {
    if LineOf(m) == [] then "" else LineOf(m)[0] + "\n"
  }

  lemma WrittenNothing()
    ensures Written([]) == ""
  {}

  lemma OneMoreLineOf(ls: seq<string>, m: Message)
    ensures Written(ls + LineOf(m)) == Written(ls) + LineText(m)
  {
    OneLineOf(m);
    hide LineOf;
    if LineOf(m) == [] {
      assert ls + [] == ls;
    } else {
      assert (ls + [LineOf(m)[0]])[..|ls|] == ls;
      assert ls + LineOf(m) == ls + [LineOf(m)[0]];
    }
  }

  // ----- the window -----

  /** The summary after evicting the messages one at a time. */
  function Rolling(evicted: seq<Message>): string {
    if evicted == [] then ""
    else
      var n := |evicted| - 1;
      Folded(Rolling(evicted[..n]), [evicted[n]])
  }

  lemma RollingOneMore(evicted: seq<Message>, out: seq<Message>)
    requires |out| == 1
    ensures Rolling(evicted + out) == Folded(Rolling(evicted), out)
  {
    assert out == [out[0]];
    assert (evicted + out)[..|evicted|] == evicted;
  }

  class Manager {
    const store: MessageStore
    const sessionId: string
    const maxWindow: int
    var window: seq<Message>
    var summary: string
    ghost var evicted: seq<Message>
    ghost var log: seq<Message>     // every message appended

    /** The window is the last min(n, maxWindow) messages, and the summary stands for all older ones. */
    ghost predicate Valid()
      reads this
    {
      && maxWindow > 0
      && evicted + window == log
      && |window| == (if |log| < maxWindow then |log| else maxWindow)
      && summary == Rolling(evicted)
    }

    constructor (store: MessageStore, sessionId: string, maxWindow: int)
      ensures this.maxWindow > 0 ==> Valid()
      ensures window == [] && summary == "" && log == [] && this.store == store && this.sessionId == sessionId
      ensures this.maxWindow == if maxWindow == 0 then 40 else maxWindow
    {
      this.store, this.sessionId := store, sessionId;
      this.maxWindow := if maxWindow == 0 then DEFAULT_WINDOW else maxWindow;
      window, summary, evicted, log := [], "", [], [];
    }

    /** The window takes the message whether or not storing it succeeds. */
    method Append(msg: Message, nonce: string, passed: nat, fails: bool) returns (ok: bool)
      requires Valid() && store.Valid()
      modifies `window, `summary, `evicted, `log, store
      ensures Valid() && store.Valid() && log == old(log) + [msg] && ok == !fails
      ensures store.rows == if ok then old(store.rows) + [ToRow(store.cipher, nonce, sessionId, msg, store.clock)] else old(store.rows)
    {
      hide Folded, Rolling, MessageStore.Valid;
      window := window + [msg];
      log := log + [msg];
      assert evicted + window == log;
      if |window| > maxWindow {
        var out := window[..|window| - maxWindow];
        assert out == [out[0]];
        RollingOneMore(evicted, out);
        summary := FoldSummary(summary, out);
        window := window[|window| - maxWindow..];
        evicted := evicted + out;
      }
      ok := store.AppendMessage(sessionId, msg, nonce, passed, fails);
    }
  }

  // ----- the summary -----

  function Trimmed(ls: seq<string>): seq<string> {
    if ls == [] then [] else Trimmed(ls[..|ls| - 1]) + [TrimRight(ls[|ls| - 1])]
  }

  predicate EndsInSpace(s: string) {
    s != "" && IsSpace(s[|s| - 1])
  }

  /** A line starts with a visible character. */
  predicate Visible(s: string) {
    s != "" && !IsSpace(s[0])
  }

  lemma {:induction false} LinesAreVisible(msgs: seq<Message>)
    ensures forall i :: 0 <= i < |Lines(msgs)| ==> Visible(Lines(msgs)[i])
  {
    if msgs != [] {
      LinesAreVisible(msgs[..|msgs| - 1]);
    }
  }

  lemma {:induction false} JoinOneMore(parts: seq<string>, x: string, sep: string)
    ensures Join(parts + [x], sep) == if parts == [] then x else Join(parts, sep) + sep + x
  {
    if |parts| > 1 {
      assert (parts + [x])[1..] == parts[1..] + [x];
      JoinOneMore(parts[1..], x, sep);
      assert Join(parts + [x], sep) == parts[0] + sep + (Join(parts[1..], sep) + sep + x);
      assert Join(parts, sep) == parts[0] + sep + Join(parts[1..], sep);
    } else if |parts| == 1 {
      assert parts + [x] == [parts[0], x];
      assert (parts + [x])[1..] == [x];
    } else {
      assert parts + [x] == [x];
    }
  }

  lemma {:induction false} TrimRightConcat(a: string, b: string)
    requires Visible(b)
    ensures TrimRight(a + b) == a + TrimRight(b) && Visible(TrimRight(b))
  {
    if IsSpace(b[|b| - 1]) {
      assert (a + b)[..|a + b| - 1] == a + b[..|b| - 1];
      TrimRightConcat(a, b[..|b| - 1]);
    }
  }

  lemma TrimBreak(s: string)
    ensures TrimRight(s + "\n") == TrimRight(s)
  {
    assert (s + "\n")[..|s|] == s;
  }

  /** What a fold leaves of a visible text that ends in a visible line. */
  lemma FoldedText(prev: string, ls: seq<string>)
    requires (prev != "" ==> Visible(prev)) && ls != [] && forall i :: 0 <= i < |ls| ==> Visible(ls[i])
    ensures var n := |ls| - 1;
      TrimSpace(Lead(prev) + Written(ls)) == Lead(prev) + Written(ls[..n]) + TrimRight(ls[n])
  {
    var n := |ls| - 1;
    var w, x := Written(ls[..n]), ls[n];
    LeadIsVisible(prev, ls[..n]);
    assert Written(ls) == w + x + "\n";
    hide *;
    Regroup(Lead(prev), w, x);
    TrimLastLine(Lead(prev) + w, x);
  }

  lemma Regroup(a: string, w: string, x: string)
    ensures a + (w + x + "\n") == (a + w) + x + "\n"
  {}

  lemma LeadIsVisible(prev: string, ls: seq<string>)
    requires (prev != "" ==> Visible(prev)) && forall i :: 0 <= i < |ls| ==> Visible(ls[i])
    ensures var a := Lead(prev) + Written(ls); a != "" ==> Visible(a)
  {
    hide Written;
    WrittenNothing();
    if ls != [] {
      VisibleStart(ls);
    }
  }

  lemma TrimLastLine(a: string, x: string)
    requires Visible(x) && (a != "" ==> Visible(a))
    ensures TrimSpace(a + x + "\n") == a + TrimRight(x)
    ensures Visible(a + TrimRight(x)) && TrimSpace(a + TrimRight(x)) == a + TrimRight(x)
  {
    TrimVisible(a + x + "\n");
    TrimBreak(a + x);
    TrimRightConcat(a, x);
    TrimRightTwice(x);
    TrimRightConcat("", x);
    assert "" + TrimRight(x) == TrimRight(x);
    var t := TrimRight(x);
    hide TrimSpace, TrimRight;
    TrimRightConcat(a, t);
    TrimVisible(a + t);
    assert Visible(a + x + "\n");
  }

  lemma TrimVisible(s: string)
    ensures Visible(s) ==> TrimSpace(s) == TrimRight(s)
  {}

  lemma {:induction false} VisibleStart(ls: seq<string>)
    requires ls != [] && forall i :: 0 <= i < |ls| ==> Visible(ls[i])
    ensures Visible(Written(ls))
  {
    if |ls| > 1 {
      VisibleStart(ls[..|ls| - 1]);
    }
  }

  lemma {:induction false} WrittenIsJoined(ls: seq<string>)
    requires ls != []
    ensures Written(ls) == Join(ls, "\n") + "\n"
  {
    var n := |ls| - 1;
    assert ls == ls[..n] + [ls[n]];
    JoinOneMore(ls[..n], ls[n], "\n");
    if n > 0 {
      WrittenIsJoined(ls[..n]);
    }
  }

  lemma {:induction false} TrimRightTwice(s: string)
    ensures TrimRight(TrimRight(s)) == TrimRight(s)
  {
    if s != "" && IsSpace(s[|s| - 1]) {
      TrimRightTwice(s[..|s| - 1]);
    }
  }

  lemma OneLineOf(m: Message)
    ensures Lines([m]) == LineOf(m)
    ensures LineOf(m) == [] || (LineOf(m) == [LineOf(m)[0]] && Visible(LineOf(m)[0]))
  {
    hide OneLine;
    assert [m][..0] == [];
  }

  /** Evicting one at a time trims every line on the right. */
  lemma {:induction false} RollingTrimsLines(msgs: seq<Message>)
    ensures Rolling(msgs) == Join(Trimmed(Lines(msgs)), "\n")
    ensures Lines(msgs) != [] ==> Visible(Rolling(msgs))
    ensures TrimSpace(Rolling(msgs)) == Rolling(msgs)
  {
    if msgs != [] {
      var n := |msgs| - 1;
      var ls, prev := Lines(msgs[..n]), Rolling(msgs[..n]);
      RollingTrimsLines(msgs[..n]);
      OneLineOf(msgs[n]);
      FoldOne(prev, msgs[n]);
      hide LineOf, Written, Lead;
      if LineOf(msgs[n]) == [] {
        assert ls + [] == ls;
      } else {
        var x := LineOf(msgs[n])[0];
        assert (ls + [x])[..|ls|] == ls;
        JoinOneMore(Trimmed(ls), TrimRight(x), "\n");
        assert Trimmed(ls + [x]) == Trimmed(ls) + [TrimRight(x)];
      }
    }
  }

  /** One more message folded into a trimmed summary. */
  lemma FoldOne(prev: string, m: Message)
    requires TrimSpace(prev) == prev && (prev != "" ==> Visible(prev))
    ensures var s := Folded(prev, [m]);
      && TrimSpace(s) == s
      && (LineOf(m) == [] ==> s == prev)
      && (LineOf(m) != [] ==> Visible(s) && s == (if prev == "" then "" else prev + "\n") + TrimRight(LineOf(m)[0]))
  {
    OneLineOf(m);
    hide LineOf;
    if LineOf(m) == [] {
      TrimBreak(prev);
      assert Lead(prev) + "" == Lead(prev);
    } else {
      var x := LineOf(m)[0];
      hide Written, TrimRight, TrimSpace;
      FoldedText(prev, [x]);
      assert [x][..0] == [];
      WrittenNothing();
      assert Lead(prev) + "" == Lead(prev);
      TrimLastLine(Lead(prev), x);
    }
  }

  /** Folding all at once trims the last line only. */
  lemma BatchTrimsLastLine(msgs: seq<Message>)
    requires Lines(msgs) != []
    ensures var ls := Lines(msgs);
      Folded("", msgs) == Written(ls[..|ls| - 1]) + TrimRight(ls[|ls| - 1])
  {
    LinesAreVisible(msgs);
    FoldedText("", Lines(msgs));
  }

  /** No line ends in white space. */
  predicate Tidy(ls: seq<string>) {
    ls == [] || (Tidy(ls[..|ls| - 1]) && !EndsInSpace(ls[|ls| - 1]))
  }

  lemma {:induction false} TrimmedLength(ls: seq<string>)
    ensures |Written(Trimmed(ls))| <= |Written(ls)|
    ensures Written(Trimmed(ls)) == Written(ls) <==> Tidy(ls)
    ensures |Written(Trimmed(ls))| == |Written(ls)| <==> Tidy(ls)
  {
    if ls != [] {
      var n := |ls| - 1;
      TrimmedLength(ls[..n]);
      TrimRightLength(ls[n]);
      TrimRightPrefix(ls[n]);
      var t, x := Trimmed(ls[..n]), TrimRight(ls[n]);
      assert Trimmed(ls) == t + [x];
      WrittenOneMore(t, x);
      WrittenOneMore(ls[..n], ls[n]);
      assert ls == ls[..n] + [ls[n]];
      assert Tidy(ls) <==> Tidy(ls[..n]) && !EndsInSpace(ls[n]);
      hide *;
    }
  }

  lemma WrittenOneMore(ls: seq<string>, x: string)
    ensures Written(ls + [x]) == Written(ls) + x + "\n"
  {
    assert (ls + [x])[..|ls|] == ls;
  }

  lemma {:induction false} TrimRightLength(s: string)
    ensures |TrimRight(s)| <= |s| && (|TrimRight(s)| == |s| <==> !EndsInSpace(s))
  {
    if s != "" && IsSpace(s[|s| - 1]) {
      TrimRightLength(s[..|s| - 1]);
    }
  }

  function AllButLast(ls: seq<string>): seq<string> {
    if ls == [] then [] else ls[..|ls| - 1]
  }

  /**
   Evicting one at a time builds the summary that folding all evicted messages at once would build,
   exactly when no line but the last ends in white space.
   */
  lemma RollingIsBatch(msgs: seq<Message>)
    ensures Rolling(msgs) == Folded("", msgs) <==> Tidy(AllButLast(Lines(msgs)))
  {
    var ls := Lines(msgs);
    if ls == [] {
      RollingTrimsLines(msgs);
      NothingFolded(msgs);
    } else {
      var init := ls[..|ls| - 1];
      assert AllButLast(ls) == init;
      BatchTrimsLastLine(msgs);
      RollingTrimsInit(msgs);
      TrimmedLength(init);
      hide *;
      SameTail(Written(Trimmed(init)), Written(init), TrimRight(ls[|ls| - 1]));
    }
  }

  lemma SameTail(a: string, b: string, t: string)
    ensures a + t == b + t <==> a == b
  {
    if a + t == b + t {
      assert |a| == |b|;
      assert (a + t)[..|a|] == a && (b + t)[..|a|] == b;
    }
  }

  lemma NothingFolded(msgs: seq<Message>)
    requires Lines(msgs) == []
    ensures Folded("", msgs) == "" && Join(Trimmed([]), "\n") == ""
  {}

  lemma RollingTrimsInit(msgs: seq<Message>)
    requires Lines(msgs) != []
    ensures var ls := Lines(msgs);
      Rolling(msgs) == Written(Trimmed(ls[..|ls| - 1])) + TrimRight(ls[|ls| - 1])
  {
    var ls := Lines(msgs);
    var n := |ls| - 1;
    RollingTrimsLines(msgs);
    var t, x := Trimmed(ls[..n]), TrimRight(ls[n]);
    assert Trimmed(ls) == t + [x];
    hide Rolling, Lines, TrimRight, Trimmed;
    JoinOneMore(t, x, "\n");
    WrittenNothing();
    hide Join, Written;
    if t != [] {
      WrittenIsJoined(t);
    }
  }

  // ----- the thread -----

  predicate PlainNames(m: Message) {
    forall i :: 0 <= i < |m.toolCalls| ==> '\n' !in m.toolCalls[i].name
  }

  predicate AllPlain(msgs: seq<Message>) {
    forall i :: 0 <= i < |msgs| ==> PlainNames(msgs[i])
  }

  lemma {:induction false} JoinWithoutBreaks(parts: seq<string>)
    requires forall i :: 0 <= i < |parts| ==> '\n' !in parts[i]
    ensures '\n' !in Join(parts, ", ")
  {
    if |parts| > 1 {
      JoinWithoutBreaks(parts[1..]);
    }
  }

  lemma {:induction false} TrimRightPrefix(s: string)
    ensures TrimRight(s) <= s
  {
    if s != "" && IsSpace(s[|s| - 1]) {
      TrimRightPrefix(s[..|s| - 1]);
    }
  }

  lemma LineIsUnbroken(m: Message)
    requires PlainNames(m)
    ensures LineOf(m) != [] ==> '\n' !in LineOf(m)[0]
  {
    JoinWithoutBreaks(Names(m.toolCalls));
    hide Join, OneLine, Names;
  }

  predicate AllUnbroken(ls: seq<string>) {
    ls == [] || (AllUnbroken(ls[..|ls| - 1]) && '\n' !in ls[|ls| - 1])
  }

  lemma {:induction false} UnbrokenMembers(ls: seq<string>)
    requires AllUnbroken(ls)
    ensures forall l :: l in ls ==> '\n' !in l
  {
    if ls != [] {
      UnbrokenMembers(ls[..|ls| - 1]);
      assert ls == ls[..|ls| - 1] + [ls[|ls| - 1]];
    }
  }

  lemma {:induction false} TrimmedLinesAreUnbroken(msgs: seq<Message>)
    requires AllPlain(msgs)
    ensures AllUnbroken(Trimmed(Lines(msgs)))
  {
    if msgs != [] {
      var n := |msgs| - 1;
      TrimmedLinesAreUnbroken(msgs[..n]);
      OneLineOf(msgs[n]);
      LineIsUnbroken(msgs[n]);
      var ls := Lines(msgs[..n]);
      if LineOf(msgs[n]) == [] {
        assert Lines(msgs) == ls;
      } else {
        var x := LineOf(msgs[n])[0];
        TrimRightPrefix(x);
        assert Lines(msgs) == ls + [x];
        hide LineOf, TrimRight, Lines;
        assert (ls + [x])[..|ls|] == ls;
        var t := Trimmed(ls);
        assert Trimmed(ls + [x]) == t + [TrimRight(x)];
        assert (t + [TrimRight(x)])[..|t|] == t;
      }
    }
  }

  /** The summary loses no turn: its lines are those of the evicted questions, calls and conclusions, in order. */
  lemma SummaryKeepsTheThread(msgs: seq<Message>)
    requires AllPlain(msgs)
    ensures Lines(msgs) != [] ==> Split(Rolling(msgs), '\n') == Trimmed(Lines(msgs))
  {
    RollingTrimsLines(msgs);
    TrimmedLinesAreUnbroken(msgs);
    UnbrokenMembers(Trimmed(Lines(msgs)));
    hide Lines, Rolling;
    if Lines(msgs) != [] {
      SplitJoin(Trimmed(Lines(msgs)), '\n');
    }
  }

  // ----- what a line says -----

  lemma {:induction false} UnbrokenTells(s: string, i: nat)
    requires i < |s|
    ensures Unbroken(s)[i] == if s[i] == '\n' then ' ' else s[i]
  {
    if i > 0 {
      UnbrokenTells(s[1..], i - 1);
    }
  }

  /** The text with spaces for line breaks, character by character, cut with a mark behind the first n. */
  lemma OneLineTells(s: string, n: nat)
    ensures var r := OneLine(s, n);
      && |r| == (if |s| <= n then |s| else n + 1)
      && (forall i :: 0 <= i < |s| && i < n ==> r[i] == if s[i] == '\n' then ' ' else s[i])
      && (|s| > n ==> r[n] == '…')
  {
    forall i | 0 <= i < |s| ensures Unbroken(s)[i] == if s[i] == '\n' then ' ' else s[i] {
      UnbrokenTells(s, i);
    }
  }

  /** Which messages have a line, and what it says. */
  lemma LineTells(m: Message, names: seq<string>)
    requires |names| == |m.toolCalls| && forall i :: 0 <= i < |names| ==> names[i] == m.toolCalls[i].name
    ensures m.role == User ==> LineOf(m) == ["user asked: " + OneLine(m.content, 120)]
    ensures m.role == Assistant && m.toolCalls != [] ==> LineOf(m) == ["agent called: " + Join(names, ", ")]
    ensures m.role == Assistant && m.toolCalls == [] && m.content != "" ==> LineOf(m) == ["agent concluded: " + OneLine(m.content, 160)]
    ensures m.role == Assistant && m.toolCalls == [] && m.content == "" ==> LineOf(m) == []
    ensures m.role == Tool || m.role == System ==> LineOf(m) == []
  {
    assert Names(m.toolCalls) == names;
  }

  /** The lines of messages one after the other are their lines one after the other. */
  lemma {:induction false} LinesTell(a: seq<Message>, b: seq<Message>)
    ensures Lines(a + b) == Lines(a) + Lines(b)
  {
    hide LineOf;
    if b == [] {
      assert a + b == a;
    } else {
      var n := |b| - 1;
      assert (a + b)[..|a| + n] == a + b[..n];
      LinesTell(a, b[..n]);
    }
  }
}
