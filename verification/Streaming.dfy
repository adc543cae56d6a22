/**
 The streamed half of the gateway client and its consumer: `sseStream.Recv` and `queuePending`
 reassemble tool calls from argument fragments, and `streamTurn` drains the stream into one message.
 */
module Streaming {
  import opened Wrappers
  import opened Seqs
  import opened Provider

  datatype Fragment = Fragment(index: int, id: string, name: string, args: string)

  datatype Tokens = Tokens(prompt: int, completion: int)

  datatype Choice = Choice(content: string, fragments: seq<Fragment>, finish: Option<string>)

  /** A line of the response body once it is decoded. */
  datatype Line =
    | Noise                                                  // blank, not a data line, or not JSON
    | DoneMark                                               // data: [DONE]
    | Chunk(model: string, tokens: Option<Tokens>, choices: seq<Choice>)

  datatype Delta = Delta(text: string, toolCall: Option<ToolCall>, done: bool, usage: Option<Usage>)

  // ----- what one line means -----

  predicate Speaks(l: Line) {
    l.Chunk? && l.choices != [] && l.choices[0].content != ""
  }

  function TextOf(l: Line): string {
    if Speaks(l) then l.choices[0].content else ""
  }

  function Carried(l: Line): seq<Fragment> {
    if l.Chunk? && l.choices != [] then l.choices[0].fragments else []
  }

  /** A chunk with text returns early, so its fragments are not looked at. */
  function Accepted(l: Line): seq<Fragment> {
    if Speaks(l) then [] else Carried(l)
  }

  predicate Finishes(l: Line) {
    l.Chunk? && l.choices != [] && l.choices[0].content == "" && l.choices[0].finish == Some("tool_calls")
  }

  /** Streamed usage counts tokens; its cost is not known yet. */
  function UsageOf(l: Line): Option<Usage> {
    if l.Chunk? && l.tokens.Some? then Some(Usage(l.tokens.value.prompt, l.tokens.value.completion, 0.0, l.model)) else None
  }

  /** A chunk, field by field; noise, end marks and chunks without choices say and finish nothing. */
  lemma LineTells(model: string, tokens: Option<Tokens>, first: Choice, more: seq<Choice>)
    ensures var l := Chunk(model, tokens, [first] + more);
      && TextOf(l) == first.content
      && (first.content != "" ==> Accepted(l) == [] && !Finishes(l))
      && (first.content == "" ==> Accepted(l) == first.fragments && (Finishes(l) <==> first.finish == Some("tool_calls")))
    ensures forall l :: l in [Noise, DoneMark, Chunk(model, tokens, [])] ==> TextOf(l) == "" && Accepted(l) == [] && !Finishes(l)
    ensures UsageOf(Noise) == None && UsageOf(DoneMark) == None
    ensures forall choices :: UsageOf(Chunk(model, tokens, choices))
                              == if tokens.Some? then Some(Usage(tokens.value.prompt, tokens.value.completion, 0.0, model)) else None
  {}

  /** The last chunk that reports tokens counts: prompt tokens are the input, completion tokens the output. */
  lemma {:induction false} UsageTells(before: seq<Line>, model: string, tokens: Tokens, choices: seq<Choice>, after: seq<Line>)
    requires forall i :: 0 <= i < |after| ==> after[i].Chunk? ==> after[i].tokens == None
    ensures UsageIn(before + [Chunk(model, Some(tokens), choices)] + after)
         == Some(Usage(tokens.prompt, tokens.completion, 0.0, model))
  {
    var start := before + [Chunk(model, Some(tokens), choices)];
    if after == [] {
      assert start + after == start;
    } else {
      var n := |after| - 1;
      assert (start + after)[..|start| + n] == start + after[..n];
      UsageTells(before, model, tokens, choices, after[..n]);
    }
  }

  lemma OneLineTells(l: Line)
    ensures TextIn([l]) == TextOf(l)
  {
    assert [l][..0] == [];
  }

  /** Without such a chunk there is no usage. */
  lemma {:induction false} NoUsageTells(ls: seq<Line>)
    requires forall i :: 0 <= i < |ls| ==> ls[i].Chunk? ==> ls[i].tokens == None
    ensures UsageIn(ls) == None
  {
    if ls != [] {
      NoUsageTells(ls[..|ls| - 1]);
    }
  }

  /** The text of lines one after the other is their texts one after the other. */
  lemma {:induction false} TextTells(a: seq<Line>, b: seq<Line>)
    ensures TextIn(a + b) == TextIn(a) + TextIn(b)
  {
    hide TextOf;
    if b == [] {
      assert a + b == a;
    } else {
      var n := |b| - 1;
      assert (a + b)[..|a| + n] == a + b[..n];
      TextTells(a, b[..n]);
    }
  }

  // ----- what fragments mean, without the order in which indices interleave -----

  function Project(fs: seq<Fragment>, i: int): seq<Fragment> {
    if fs == [] then []
    else
      var f := fs[|fs| - 1];
      if f.index == i then Project(fs[..|fs| - 1], i) + [f] else Project(fs[..|fs| - 1], i)
  }

  function LastId(fs: seq<Fragment>): string {
    if fs == [] then ""
    else if fs[|fs| - 1].id != "" then fs[|fs| - 1].id
    else LastId(fs[..|fs| - 1])
  }

  function LastName(fs: seq<Fragment>): string {
    if fs == [] then ""
    else if fs[|fs| - 1].name != "" then fs[|fs| - 1].name
    else LastName(fs[..|fs| - 1])
  }

  function AllArgs(fs: seq<Fragment>): string {
    if fs == [] then "" else AllArgs(fs[..|fs| - 1]) + fs[|fs| - 1].args
  }

  function Assembled(fs: seq<Fragment>): ToolCall {
    ToolCall(LastId(fs), LastName(fs), AllArgs(fs))
  }

  function Indices(fs: seq<Fragment>): set<int> {
    if fs == [] then {} else Indices(fs[..|fs| - 1]) + {fs[|fs| - 1].index}
  }

  /** The pending entry for an index, or the empty call for one not seen yet. */
  function EntryAt(m: map<int, ToolCall>, i: int): ToolCall {
    if i in m then m[i] else ToolCall("", "", "")
  }

  function Merge(cur: ToolCall, f: Fragment): ToolCall {
    ToolCall(if f.id != "" then f.id else cur.id, if f.name != "" then f.name else cur.name, cur.args + f.args)
  }

  /** The accumulating calls after the fragments fs. */
  function Gather(fs: seq<Fragment>): map<int, ToolCall> {
    if fs == [] then map[]
    else
      var m, f := Gather(fs[..|fs| - 1]), fs[|fs| - 1];
      m[f.index := Merge(EntryAt(m, f.index), f)]
  }

  /** The calls of the map m in index order. */
  function InIndexOrder(m: map<int, ToolCall>): seq<ToolCall>
    decreases |m.Keys|
  {
    if m.Keys == {} then []
    else
      var i := Least(m.Keys);
      [m[i]] + InIndexOrder(m - {i})
  }

  // ----- what a stream means: four readings of the lines consumed so far -----

  function TextIn(ls: seq<Line>): string {
    if ls == [] then "" else TextIn(ls[..|ls| - 1]) + TextOf(ls[|ls| - 1])
  }

  function UsageIn(ls: seq<Line>): Option<Usage> {
    if ls == [] then None
    else if UsageOf(ls[|ls| - 1]).Some? then UsageOf(ls[|ls| - 1])
    else UsageIn(ls[..|ls| - 1])
  }

  /** The fragments accepted since the last finish. */
  function OpenIn(ls: seq<Line>): seq<Fragment> {
    if ls == [] || Finishes(ls[|ls| - 1]) then []
    else OpenIn(ls[..|ls| - 1]) + Accepted(ls[|ls| - 1])
  }

  /** The calls that the finishes among the lines complete. */
  function CallsIn(ls: seq<Line>): seq<ToolCall> {
    if ls == [] then []
    else
      var init, l := ls[..|ls| - 1], ls[|ls| - 1];
      CallsIn(init) + (if Finishes(l) then InIndexOrder(Gather(OpenIn(init) + Accepted(l))) else [])
  }

  function AcceptedIn(ls: seq<Line>): seq<Fragment> {
    if ls == [] then [] else AcceptedIn(ls[..|ls| - 1]) + Accepted(ls[|ls| - 1])
  }

  /** The lines that are read: all of them, or those before the first end mark. */
  function Live(body: seq<Line>): (r: seq<Line>)
    ensures r <= body && DoneMark !in r
    ensures |r| < |body| ==> body[|r|].DoneMark?
  {
    if body == [] || body[0].DoneMark? then [] else [body[0]] + Live(body[1..])
  }

  lemma {:induction false} LiveIs(body: seq<Line>, r: seq<Line>)
    requires r <= body && DoneMark !in r && (|r| < |body| ==> body[|r|].DoneMark?)
    ensures Live(body) == r
    ensures DoneMark in body <==> |r| < |body|
  {
    var v := Live(body);
    if |v| < |r| {
      assert false;
    } else if |r| < |v| {
      assert false;
    }
    assert |r| == |body| ==> r == body;
  }

  function ArgsOf(calls: seq<ToolCall>): string {
    if calls == [] then "" else ArgsOf(calls[..|calls| - 1]) + calls[|calls| - 1].args
  }

  // ----- the parser -----

  class SseStream {
    var lines: seq<Line>             // not read yet
    var pending: map<int, ToolCall>  // index -> accumulating call
    var flush: seq<ToolCall>         // completed calls awaiting emission
    var lastUsage: Option<Usage>
    ghost var seen: seq<Line>        // read so far
    ghost var emitted: seq<ToolCall> // calls handed out so far
    ghost var said: string           // text handed out so far

    ghost predicate Valid()
      reads this
    {
      && pending == Gather(OpenIn(seen))
      && emitted + flush == CallsIn(seen)
      && lastUsage == UsageIn(seen)
      && said == TextIn(seen)
    }

    constructor (body: seq<Line>)
      ensures Valid() && lines == body && seen == [] && emitted == [] && said == ""
    {
      lines, pending, flush, lastUsage := body, map[], [], None;
      seen, emitted, said := [], [], "";
      new;
      GatherNothing();
    }

    method QueuePending()
      modifies `pending, `flush
      ensures pending == map[]
      ensures flush == old(flush) + InIndexOrder(old(pending))
    {
      var idxs := Ascending(pending.Keys);
      ghost var target := flush + InIndexOrder(pending);
      for k := 0 to |idxs|
        invariant idxs[k..] == Ascending(pending.Keys)
        invariant flush + InIndexOrder(pending) == target
      {
        var i := idxs[k];
        assert i == Least(pending.Keys);
        assert (pending - {i}).Keys == pending.Keys - {i};
        assert idxs[k..][1..] == idxs[k + 1..];
        flush := flush + [pending[i]];
        pending := pending - {i};
      }
      assert pending.Keys == {};
    }

    /** One fragment of a chunk lands in the pending map. */
    method Absorb(tc: Fragment, ghost open: seq<Fragment>)
      requires pending == Gather(open)
      modifies `pending
      ensures pending == Gather(open + [tc])
    {
      var cur := EntryAt(pending, tc.index);
      if tc.id != "" {
        cur := cur.(id := tc.id);
      }
      if tc.name != "" {
        cur := cur.(name := tc.name);
      }
      cur := cur.(args := cur.args + tc.args);
      GatherOneMore(open, tc);
      pending := pending[tc.index := cur];
    }

    /** All fragments of a chunk land in the pending map. */
    method AbsorbAll(tcs: seq<Fragment>, ghost open: seq<Fragment>)
      requires pending == Gather(open)
      modifies `pending
      ensures pending == Gather(open + tcs)
    {
      assert open + tcs[..0] == open;
      for k := 0 to |tcs|
        invariant pending == Gather(open + tcs[..k])
      {
        Absorb(tcs[k], open + tcs[..k]);
        assert open + tcs[..k] + [tcs[k]] == open + tcs[..k + 1];
      }
      assert tcs[..|tcs|] == tcs;
    }

    /** The first completed call leaves the flush queue. */
    method Emit() returns (d: Delta)
      requires Valid() && flush != []
      modifies `flush, `emitted
      ensures Valid() && d == Delta("", Some(old(flush)[0]), false, None)
      ensures flush == old(flush)[1..] && emitted == old(emitted) + [old(flush)[0]]
    {
      hide Gather, OpenIn, CallsIn, UsageIn, TextIn;
      d := Delta("", Some(flush[0]), false, None);
      emitted := emitted + [flush[0]];
      flush := flush[1..];
      assert old(emitted) + old(flush) == emitted + flush;
    }

    /** What one decoded line does to the parser; text that it carries is handed out at once. */
    method Take(line: Line) returns (text: string)
      requires Valid()
      modifies `pending, `flush, `lastUsage, `seen, `said
      ensures Valid() && seen == old(seen) + [line] && said == old(said) + text
      ensures text == TextOf(line) && (!Finishes(line) ==> flush == old(flush))
    {
      hide Gather, InIndexOrder, TextIn, UsageIn, OpenIn, CallsIn;
      OneMoreLine(seen, line);
      ghost var before := seen;
      seen, text := seen + [line], "";
      if line.Noise? || line.DoneMark? {
        return;
      }
      if line.tokens.Some? {
        lastUsage := Some(Usage(line.tokens.value.prompt, line.tokens.value.completion, 0.0, line.model));
      }
      if line.choices == [] {
        return;
      }
      var ch := line.choices[0];
      if ch.content != "" {
        said := said + ch.content;
        return ch.content;
      }
      AbsorbAll(ch.fragments, OpenIn(before));
      if ch.finish == Some("tool_calls") {
        QueuePending();
        GatherNothing();
        assert emitted + flush == CallsIn(before) + InIndexOrder(Gather(OpenIn(before) + Carried(line)));
      }
    }

    /**
     One delta: the next completed call, the next text, or the end. A failed read counts as the end.
     Either lines are consumed, or the flush queue shrinks, or the stream is done.
     */
    method Recv() returns (d: Delta, failed: bool)
      requires Valid()
      modifies this
      ensures Valid() && seen + lines == old(seen + lines) && old(seen) <= seen
      ensures emitted == old(emitted) + (if d.toolCall.Some? then [d.toolCall.value] else [])
      ensures said == old(said) + d.text && (d.text == "" || d.toolCall == None)
      ensures !d.done ==> !failed && d.usage == None && DoneMark !in seen[|old(seen)|..]
      ensures !d.done ==> |lines| < old(|lines|) || (lines == old(lines) && |flush| < old(|flush|))
      ensures d.done ==> flush == [] && d.text == "" && d.toolCall == None && d.usage == UsageIn(seen)
      ensures d.done && failed ==> lines == [] && DoneMark !in seen[|old(seen)|..]
      ensures d.done && !failed ==> |seen| > |old(seen)| && seen[|seen| - 1] == DoneMark
                                    && DoneMark !in seen[|old(seen)|..|seen| - 1]
    {
      hide Gather, InIndexOrder, TextIn, UsageIn, OpenIn, CallsIn;
      if |flush| > 0 {
        d := Emit();
        return d, false;
      }
      while true
        invariant Valid() && flush == [] && emitted == old(emitted) && said == old(said)
        invariant seen + lines == old(seen + lines) && old(seen) <= seen
        invariant |lines| <= old(|lines|) && DoneMark !in seen[|old(seen)|..]
        decreases |lines|
      {
        if lines == [] {
          return Delta("", None, true, lastUsage), true;
        }
        var line := lines[0];
        assert seen + lines == (seen + [line]) + lines[1..];
        lines := lines[1..];
        var text := Take(line);
        if line.DoneMark? {
          return Delta("", None, true, lastUsage), false;
        }
        if text != "" {
          return Delta(text, None, false, None), false;
        }
        if |flush| > 0 {
          d := Emit();
          return d, false;
        }
      }
    }

    /**
     Every argument byte accepted so far is in exactly one place: a call already handed out, the flush
     queue, or the pending map.
     */
    lemma Conserved()
      requires Valid()
      ensures multiset(AllArgs(AcceptedIn(seen)))
           == multiset(ArgsOf(emitted)) + multiset(ArgsOf(flush)) + multiset(ArgsOf(InIndexOrder(pending)))
    {
      ArgsConserved(seen);
      ArgsOfConcat(emitted, flush);
      HeldInOrder(OpenIn(seen));
    }
  }

  /**
   The consumer: what the live lines hold becomes one assistant message. However the stream ends, the
   turn ends normally; the reported usage survives only when the end was marked.
   */
  method StreamTurn(stream: SseStream, final: string) returns (msg: Message, usage: Usage, final': string)
    requires stream.Valid() && stream.seen == []
    modifies stream
    ensures var live := Live(old(stream.lines));
      && msg == Message(Assistant, TextIn(live), CallsIn(live), "", "")
      && final' == final + TextIn(live)
      && usage == (if DoneMark in old(stream.lines) && UsageIn(live).Some? then UsageIn(live).value else NO_USAGE)
  {
    hide Gather, OpenIn, CallsIn, UsageIn, TextIn;
    assert CallsIn([]) == [] && TextIn([]) == "" by { EmptyReadings(); }
    msg := TextMessage(Assistant, "");
    usage := NO_USAGE;
    final' := final;
    ghost var body := stream.lines;
    while true
      invariant stream.Valid() && stream.seen + stream.lines == body && DoneMark !in stream.seen
      invariant msg == Message(Assistant, stream.said, stream.emitted, "", "")
      invariant final' == final + stream.said && usage == NO_USAGE
      decreases |stream.lines|, |stream.flush|
    {
      ghost var was := stream.seen;
      var d, failed := stream.Recv();
      assert stream.seen == was + stream.seen[|was|..];
      if failed {
        LiveIs(body, stream.seen);
        break;
      }
      if d.text != "" {
        msg := msg.(content := msg.content + d.text);
        final' := final' + d.text;
      } else if d.toolCall.Some? {
        msg := msg.(toolCalls := msg.toolCalls + [d.toolCall.value]);
      }
      if d.usage.Some? {
        usage := d.usage.value;
      }
      if d.done {
        ghost var live := stream.seen[..|stream.seen| - 1];
        assert live == was + stream.seen[|was|..|stream.seen| - 1];
        assert stream.seen == live + [DoneMark];
        LiveIs(body, live);
        MarkSaysNothing(live);
        break;
      }
    }
  }

  // ----- bookkeeping lemmas -----

  lemma AssembledOneMore(fs: seq<Fragment>, f: Fragment)
    ensures Assembled(fs + [f]) == ToolCall(
                                     if f.id != "" then f.id else LastId(fs),
                                     if f.name != "" then f.name else LastName(fs),
                                     AllArgs(fs) + f.args)
  {
    assert (fs + [f])[..|fs|] == fs;
  }

  /** How each kind of line changes the four readings. */
  lemma OneMoreLine(ls: seq<Line>, l: Line)
    ensures UsageIn(ls + [l]) == if UsageOf(l).Some? then UsageOf(l) else UsageIn(ls)
    ensures TextIn(ls + [l]) == if Speaks(l) then TextIn(ls) + l.choices[0].content else TextIn(ls)
    ensures Speaks(l) || Carried(l) == [] ==> !Finishes(l) ==> OpenIn(ls + [l]) == OpenIn(ls)
    ensures !Finishes(l) ==> CallsIn(ls + [l]) == CallsIn(ls)
    ensures !Speaks(l) && !Finishes(l) ==> OpenIn(ls + [l]) == OpenIn(ls) + Carried(l)
    ensures Finishes(l) ==> OpenIn(ls + [l]) == []
                            && CallsIn(ls + [l]) == CallsIn(ls) + InIndexOrder(Gather(OpenIn(ls) + Carried(l)))
  {
    assert (ls + [l])[..|ls|] == ls;
  }

  lemma EmptyReadings()
    ensures CallsIn([]) == [] && TextIn([]) == ""
  {}

  /** The end mark itself says nothing. */
  lemma MarkSaysNothing(ls: seq<Line>)
    ensures TextIn(ls + [DoneMark]) == TextIn(ls)
    ensures CallsIn(ls + [DoneMark]) == CallsIn(ls)
    ensures UsageIn(ls + [DoneMark]) == UsageIn(ls)
  {
    assert (ls + [DoneMark])[..|ls|] == ls;
  }

  lemma GatherNothing()
    ensures Gather([]) == map[]
  {}

  lemma GatherOneMore(fs: seq<Fragment>, f: Fragment)
    ensures Gather(fs + [f]) == Gather(fs)[f.index := Merge(EntryAt(Gather(fs), f.index), f)]
  {
    assert (fs + [f])[..|fs|] == fs;
  }

  /** The entry for an index depends on the fragments of that index alone. */
  lemma {:induction false} GatherAt(fs: seq<Fragment>, i: int)
    ensures i in Gather(fs) <==> Project(fs, i) != []
    ensures EntryAt(Gather(fs), i) == Assembled(Project(fs, i))
  {
    if fs != [] {
      var init, f := fs[..|fs| - 1], fs[|fs| - 1];
      GatherAt(init, i);
      if f.index == i {
        AssembledOneMore(Project(init, i), f);
      }
    }
  }

  lemma AllArgsConcat(a: seq<Fragment>, b: seq<Fragment>)
    ensures AllArgs(a + b) == AllArgs(a) + AllArgs(b)
  {
    if b == [] {
      assert a + b == a;
    } else {
      assert (a + b)[..|a + b| - 1] == a + b[..|b| - 1];
      AllArgsConcat(a, b[..|b| - 1]);
    }
  }

  lemma ArgsOfConcat(a: seq<ToolCall>, b: seq<ToolCall>)
    ensures ArgsOf(a + b) == ArgsOf(a) + ArgsOf(b)
  {
    if b == [] {
      assert a + b == a;
    } else {
      assert (a + b)[..|a + b| - 1] == a + b[..|b| - 1];
      ArgsOfConcat(a, b[..|b| - 1]);
    }
  }

  // ----- reassembly -----

  /** The fragments fs cut the call c into pieces: arguments in order, id and name in some of them. */
  ghost predicate Splits(fs: seq<Fragment>, c: ToolCall) {
    && fs != []
    && AllArgs(fs) == c.args
    && (forall f :: f in fs ==> (f.id == "" || f.id == c.id) && (f.name == "" || f.name == c.name))
    && (c.id == "" || exists f :: f in fs && f.id == c.id)
    && (c.name == "" || exists f :: f in fs && f.name == c.name)
  }

  lemma {:induction false} LastIdIs(fs: seq<Fragment>, id: string)
    requires forall f :: f in fs ==> f.id == "" || f.id == id
    requires id == "" || exists f :: f in fs && f.id == id
    ensures LastId(fs) == id
  {
    if fs != [] {
      var init, f := fs[..|fs| - 1], fs[|fs| - 1];
      assert fs == init + [f] && f in fs;
      if f.id == "" { LastIdIs(init, id); }
    }
  }

  lemma {:induction false} LastNameIs(fs: seq<Fragment>, name: string)
    requires forall f :: f in fs ==> f.name == "" || f.name == name
    requires name == "" || exists f :: f in fs && f.name == name
    ensures LastName(fs) == name
  {
    if fs != [] {
      var init, f := fs[..|fs| - 1], fs[|fs| - 1];
      assert fs == init + [f] && f in fs;
      if f.name == "" { LastNameIs(init, name); }
    }
  }

  function KeySet(idxs: seq<int>): set<int> {
    if idxs == [] then {} else {idxs[0]} + KeySet(idxs[1..])
  }

  lemma {:induction false} InKeySet(idxs: seq<int>, x: int)
    ensures x in KeySet(idxs) <==> x in idxs
  {
    if idxs != [] {
      InKeySet(idxs[1..], x);
      assert idxs == [idxs[0]] + idxs[1..];
    }
  }

  lemma AboveFirst(idxs: seq<int>, x: int)
    requires Increasing(idxs) && x in idxs
    ensures idxs[0] <= x
  {
    var k :| 0 <= k < |idxs| && idxs[k] == x;
  }

  lemma FirstIsLeast(idxs: seq<int>)
    requires Increasing(idxs) && idxs != []
    ensures Least(KeySet(idxs)) == idxs[0]
    ensures KeySet(idxs) - {idxs[0]} == KeySet(idxs[1..])
  {
    var least := Least(KeySet(idxs));
    InKeySet(idxs, least);
    AboveFirst(idxs, least);
    InKeySet(idxs[1..], idxs[0]);
    assert forall k :: 0 <= k < |idxs[1..]| ==> idxs[1..][k] > idxs[0];
  }

  lemma {:induction false} InIndexOrderAt(m: map<int, ToolCall>, idxs: seq<int>, k: nat)
    requires Increasing(idxs) && m.Keys == KeySet(idxs) && k < |idxs|
    ensures |InIndexOrder(m)| == |idxs| && idxs[k] in m && InIndexOrder(m)[k] == m[idxs[k]]
    decreases |idxs|
  {
    var i, rest := idxs[0], idxs[1..];
    var m' := m - {i};
    FirstIsLeast(idxs);
    assert m'.Keys == KeySet(rest);
    if rest == [] {
      assert m'.Keys == {};
    } else {
      assert Increasing(rest);
      InIndexOrderAt(m', rest, if k == 0 then 0 else k - 1);
    }
  }

  lemma {:induction false} BeforeFinish(ls: seq<Line>)
    requires forall l :: l in ls ==> !Finishes(l)
    ensures OpenIn(ls) == AcceptedIn(ls) && CallsIn(ls) == []
  {
    if ls != [] {
      BeforeFinish(ls[..|ls| - 1]);
    }
  }

  lemma {:induction false} AfterFinish(ls: seq<Line>, tail: seq<Line>)
    requires forall l :: l in tail ==> !Finishes(l)
    ensures CallsIn(ls + tail) == CallsIn(ls)
  {
    if tail == [] {
      assert ls + tail == ls;
    } else {
      assert (ls + tail)[..|ls + tail| - 1] == ls + tail[..|tail| - 1];
      AfterFinish(ls, tail[..|tail| - 1]);
    }
  }

  predicate OneFinishOnly(body: seq<Line>, fin: Line, tail: seq<Line>) {
    Finishes(fin) && forall l :: l in body + tail ==> !Finishes(l)
  }

  /** A stream with one finish yields the calls that its accepted fragments gather to. */
  lemma OneFinish(body: seq<Line>, fin: Line, tail: seq<Line>)
    requires OneFinishOnly(body, fin, tail)
    ensures CallsIn(body + [fin] + tail) == InIndexOrder(Gather(AcceptedIn(body + [fin])))
  {
    assert (body + [fin])[..|body|] == body;
    BeforeFinish(body);
    AfterFinish(body + [fin], tail);
  }

  /**
   Reassembly undoes fragmentation: if the fragments before the finish are, index by index, the pieces
   of the given calls, then however the indices interleave and wherever the chunk boundaries fall, the
   stream yields exactly those calls in index order.
   */
  lemma Reassembly(calls: seq<ToolCall>, idxs: seq<int>, body: seq<Line>, fin: Line, tail: seq<Line>)
    requires Increasing(idxs) && |idxs| == |calls|
    requires OneFinishOnly(body, fin, tail)
    requires var fs := AcceptedIn(body + [fin]);
      && (forall i :: i !in idxs ==> Project(fs, i) == [])
      && (forall k :: 0 <= k < |idxs| ==> Splits(Project(fs, idxs[k]), calls[k]))
    ensures CallsIn(body + [fin] + tail) == calls
  {
    OneFinish(body, fin, tail);
    var fs := AcceptedIn(body + [fin]);
    hide Gather, InIndexOrder, Project, CallsIn, AcceptedIn;
    var m := Gather(fs);
    forall i ensures i in m <==> i in KeySet(idxs) {
      InKeySet(idxs, i);
      GatherAt(fs, i);
    }
    assert m.Keys == KeySet(idxs);
    hide KeySet, Increasing;
    var r := InIndexOrder(m);
    forall k | 0 <= k < |idxs| ensures |r| == |idxs| && r[k] == calls[k] {
      InIndexOrderAt(m, idxs, k);
      GatherAt(fs, idxs[k]);
      PiecesAssemble(Project(fs, idxs[k]), calls[k]);
    }
    if idxs == [] {
      NothingInOrder(m, idxs);
    }
  }

  lemma NothingInOrder(m: map<int, ToolCall>, idxs: seq<int>)
    requires idxs == [] && m.Keys == KeySet(idxs)
    ensures InIndexOrder(m) == []
  {}

  lemma PiecesAssemble(fs: seq<Fragment>, c: ToolCall)
    requires Splits(fs, c)
    ensures Assembled(fs) == c
  {
    LastIdIs(fs, c.id);
    LastNameIs(fs, c.name);
  }

  /** Index by index the same fragments in the same order. */
  ghost predicate SameByIndex(fs: seq<Fragment>, fs': seq<Fragment>) {
    forall i :: Project(fs, i) == Project(fs', i)
  }

  /** Only the order within each index matters. */
  lemma InterleavingIsIrrelevant(body: seq<Line>, fin: Line, tail: seq<Line>, body': seq<Line>, fin': Line, tail': seq<Line>)
    requires OneFinishOnly(body, fin, tail) && OneFinishOnly(body', fin', tail')
    requires SameByIndex(AcceptedIn(body + [fin]), AcceptedIn(body' + [fin']))
    ensures CallsIn(body + [fin] + tail) == CallsIn(body' + [fin'] + tail')
  {
    OneFinish(body, fin, tail);
    OneFinish(body', fin', tail');
    var fs, fs' := AcceptedIn(body + [fin]), AcceptedIn(body' + [fin']);
    hide Gather, InIndexOrder, Project, CallsIn, AcceptedIn;
    forall i ensures (i in Gather(fs) <==> i in Gather(fs')) && EntryAt(Gather(fs), i) == EntryAt(Gather(fs'), i) {
      GatherAt(fs, i);
      GatherAt(fs', i);
    }
    assert Gather(fs) == Gather(fs');
  }

  // ----- conservation -----

  function CarriedIn(ls: seq<Line>): seq<Fragment> {
    if ls == [] then [] else CarriedIn(ls[..|ls| - 1]) + Carried(ls[|ls| - 1])
  }

  /** The fragments that share a chunk with text. */
  function MaskedIn(ls: seq<Line>): seq<Fragment> {
    if ls == [] then []
    else MaskedIn(ls[..|ls| - 1]) + (if Speaks(ls[|ls| - 1]) then Carried(ls[|ls| - 1]) else [])
  }

  lemma {:induction false} CarriedConserved(ls: seq<Line>)
    ensures multiset(AllArgs(CarriedIn(ls))) == multiset(AllArgs(AcceptedIn(ls))) + multiset(AllArgs(MaskedIn(ls)))
  {
    if ls != [] {
      var init, l := ls[..|ls| - 1], ls[|ls| - 1];
      CarriedConserved(init);
      AllArgsConcat(CarriedIn(init), Carried(l));
      AllArgsConcat(AcceptedIn(init), Accepted(l));
      AllArgsConcat(MaskedIn(init), if Speaks(l) then Carried(l) else []);
    }
  }

  /** The returned calls hold the argument bytes that the chunks carried, each as often. */
  ghost predicate AllDelivered(ls: seq<Line>) {
    multiset(ArgsOf(CallsIn(ls))) == multiset(AllArgs(CarriedIn(ls)))
  }

  predicate NothingLost(ls: seq<Line>) {
    AllArgs(MaskedIn(ls)) == "" && AllArgs(OpenIn(ls)) == ""
  }

  /**
   Every argument byte that was sent reaches the caller exactly when no chunk carries argument bytes
   beside text and none arrives after the last finish.
   */
  lemma EverythingDelivered(ls: seq<Line>)
    ensures AllDelivered(ls) <==> NothingLost(ls)
  {
    CarriedConserved(ls);
    ArgsConserved(ls);
    var masked, open := AllArgs(MaskedIn(ls)), AllArgs(OpenIn(ls));
    assert |multiset(AllArgs(CarriedIn(ls)))| == |multiset(ArgsOf(CallsIn(ls)))| + |multiset(open)| + |multiset(masked)|;
    assert |multiset(masked)| == |masked| && |multiset(open)| == |open|;
  }

  lemma {:induction false} ArgsConserved(ls: seq<Line>)
    ensures multiset(AllArgs(AcceptedIn(ls))) == multiset(ArgsOf(CallsIn(ls))) + multiset(AllArgs(OpenIn(ls)))
  {
    if ls != [] {
      var init, l := ls[..|ls| - 1], ls[|ls| - 1];
      ArgsConserved(init);
      AllArgsConcat(AcceptedIn(init), Accepted(l));
      AllArgsConcat(OpenIn(init), Accepted(l));
      if Finishes(l) {
        HeldInOrder(OpenIn(init) + Accepted(l));
        ArgsOfConcat(CallsIn(init), InIndexOrder(Gather(OpenIn(init) + Accepted(l))));
      } else {
        assert CallsIn(ls) == CallsIn(init);
      }
    }
  }

  /** Assembly neither loses nor invents an argument byte. */
  lemma HeldInOrder(fs: seq<Fragment>)
    ensures multiset(ArgsOf(InIndexOrder(Gather(fs)))) == multiset(AllArgs(fs))
  {
    forall i | i in Gather(fs) ensures Gather(fs)[i] == Assembled(Project(fs, i)) {
      GatherAt(fs, i);
    }
    GatherKeys(fs);
    SelectedAll(fs, Indices(fs));
    SelectedArgs(fs, Gather(fs));
  }

  lemma {:induction false} GatherKeys(fs: seq<Fragment>)
    ensures Gather(fs).Keys == Indices(fs)
  {
    if fs != [] {
      GatherKeys(fs[..|fs| - 1]);
    }
  }

  /** The fragments whose index is among those given. */
  function Selected(fs: seq<Fragment>, idxs: set<int>): seq<Fragment> {
    if fs == [] then []
    else
      var f := fs[|fs| - 1];
      if f.index in idxs then Selected(fs[..|fs| - 1], idxs) + [f] else Selected(fs[..|fs| - 1], idxs)
  }

  lemma {:induction false} SelectedAll(fs: seq<Fragment>, idxs: set<int>)
    requires Indices(fs) <= idxs
    ensures Selected(fs, idxs) == fs
  {
    if fs != [] {
      SelectedAll(fs[..|fs| - 1], idxs);
    }
  }

  lemma {:induction false} SelectedNone(fs: seq<Fragment>)
    ensures Selected(fs, {}) == []
  {
    if fs != [] {
      SelectedNone(fs[..|fs| - 1]);
    }
  }

  lemma {:induction false} SelectedArgs(fs: seq<Fragment>, m: map<int, ToolCall>)
    requires forall i :: i in m ==> m[i] == Assembled(Project(fs, i))
    ensures multiset(ArgsOf(InIndexOrder(m))) == multiset(AllArgs(Selected(fs, m.Keys)))
    decreases |m.Keys|
  {
    if m.Keys == {} {
      SelectedNone(fs);
    } else {
      var i := Least(m.Keys);
      var rest := m - {i};
      SelectedArgs(fs, rest);
      assert m.Keys == rest.Keys + {i};
      ArgsSplit(fs, i, rest.Keys, m.Keys);
      ArgsOfConcat([m[i]], InIndexOrder(rest));
      assert ArgsOf([m[i]]) == m[i].args;
    }
  }

  lemma {:induction false} ArgsSplit(fs: seq<Fragment>, i: int, others: set<int>, all: set<int>)
    requires i !in others && all == others + {i}
    ensures multiset(AllArgs(Selected(fs, all)))
         == multiset(AllArgs(Selected(fs, others))) + multiset(AllArgs(Project(fs, i)))
  {
    if fs != [] {
      var init, f := fs[..|fs| - 1], fs[|fs| - 1];
      ArgsSplit(init, i, others, all);
      var a, b, c := Selected(init, all), Selected(init, others), Project(init, i);
      assert Selected(fs, all) == if f.index in all then a + [f] else a;
      assert Selected(fs, others) == if f.index in others then b + [f] else b;
      assert Project(fs, i) == if f.index == i then c + [f] else c;
      hide AllArgs, Selected, Project;
      if f.index == i {
        ArgsOneMore(a, f);
        ArgsOneMore(c, f);
      } else if f.index in others {
        ArgsOneMore(a, f);
        ArgsOneMore(b, f);
      }
    }
  }

  lemma ArgsOneMore(fs: seq<Fragment>, f: Fragment)
    ensures multiset(AllArgs(fs + [f])) == multiset(AllArgs(fs)) + multiset(f.args)
  {
    assert (fs + [f])[..|fs|] == fs;
  }
}
