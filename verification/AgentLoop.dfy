/**
 The agent's bounded reason-act-observe loop over the other components: routing, the streamed model
 turn, dispatch of the requested tools, and persistence of the conversation.
 */
module AgentLoop {
  import opened Wrappers
  import opened Provider
  import opened MessageStore
  import Streaming
  import Dispatch
  import Router
  import Seqs
  import Text

  const SYSTEM_PREAMBLE := "You are voujr, a terminal-native Kubernetes operations copilot."
  const DEFAULT_MAX_STEPS := 12
  const TOOL_VIEW_LIMIT := 6000

  // ----- histories -----

  /** Where a message of the history comes from; only durable ones are recorded. */
  datatype Kind = Preamble | ContextCard | RecalledNote | Durable

  predicate Answers(m: Message, tc: ToolCall) {
    m.role == Tool && m.toolCallId == tc.id && m.name == tc.name
  }

  predicate AnswersAll(ms: seq<Message>, calls: seq<ToolCall>) {
    |ms| == |calls| && forall k :: 0 <= k < |calls| ==> Answers(ms[k], calls[k])
  }

  function CallsOf(m: Message): seq<ToolCall> {
    if m.role == Assistant then m.toolCalls else []
  }

  /** The first message is no tool message, and the messages right behind it answer its calls. */
  predicate StartsClosed(h: seq<Message>) {
    h != [] && h[0].role != Tool
    && |CallsOf(h[0])| < |h| && AnswersAll(h[1..|CallsOf(h[0])| + 1], CallsOf(h[0]))
  }

  /**
   Every assistant message with n tool calls is immediately followed by exactly n tool messages that
   answer them in order, and there are no other tool messages.
   */
  predicate WellFormed(h: seq<Message>)
    decreases |h|
  {
    h == [] || (StartsClosed(h) && WellFormed(h[|CallsOf(h[0])| + 1..]))
  }

  lemma StartsClosedMore(a: seq<Message>, b: seq<Message>)
    requires StartsClosed(a)
    ensures StartsClosed(a + b) && (a + b)[|CallsOf(a[0])| + 1..] == a[|CallsOf(a[0])| + 1..] + b
  {
    hide AnswersAll, CallsOf;
    assert (a + b)[1..|CallsOf(a[0])| + 1] == a[1..|CallsOf(a[0])| + 1];
  }

  /** Behind a well-formed history exactly the well-formed continuations keep it so. */
  lemma {:induction false} WellFormedConcat(a: seq<Message>, b: seq<Message>)
    requires WellFormed(a)
    ensures WellFormed(a + b) <==> WellFormed(b)
    decreases |a|
  {
    if a == [] {
      assert a + b == b;
    } else {
      StartsClosedMore(a, b);
      hide StartsClosed, CallsOf;
      assert (a + b)[0] == a[0];
      WellFormedConcat(a[|CallsOf(a[0])| + 1..], b);
    }
  }

  /** The recorded part of a history. */
  function DurablePart(h: seq<Message>, kinds: seq<Kind>): seq<Message>
    requires |h| == |kinds|
  {
    if h == [] then []
    else
      var n := |h| - 1;
      DurablePart(h[..n], kinds[..n]) + (if kinds[n] == Durable then [h[n]] else [])
  }

  lemma {:induction false} DurableConcat(h: seq<Message>, kinds: seq<Kind>, more: seq<Message>, kinds': seq<Kind>)
    requires |h| == |kinds| && |more| == |kinds'|
    ensures DurablePart(h + more, kinds + kinds') == DurablePart(h, kinds) + DurablePart(more, kinds')
  {
    if more == [] {
      assert h + more == h && kinds + kinds' == kinds;
    } else {
      var n := |more| - 1;
      assert (h + more)[..|h| + n] == h + more[..n];
      assert (kinds + kinds')[..|h| + n] == kinds + kinds'[..n];
      DurableConcat(h, kinds, more[..n], kinds'[..n]);
    }
  }

  /** A cheap estimate of the prompt size, four characters to a token. */
  function Chars(h: seq<Message>): nat {
    if h == [] then 0 else Chars(h[..|h| - 1]) + |h[|h| - 1].content|
  }

  method EstTokens(msgs: seq<Message>) returns (n: nat)
    ensures n == Chars(msgs) / 4 == |Seqs.Flatten(Seqs.Map(ContentOf, msgs))| / 4
  {
    n := 0;
    for i := 0 to |msgs|
      invariant n == Chars(msgs[..i])
    {
      assert msgs[..i + 1][..i] == msgs[..i];
      n := n + |msgs[i].content|;
    }
    assert msgs[..|msgs|] == msgs;
    CharsTell(msgs);
    n := n / 4;
  }

  lemma {:induction false} CharsGrow(a: seq<Message>, b: seq<Message>)
    ensures Chars(a) <= Chars(a + b)
  {
    if b == [] {
      assert a + b == a;
    } else {
      assert (a + b)[..|a + b| - 1] == a + b[..|b| - 1];
      CharsGrow(a, b[..|b| - 1]);
    }
  }

  /** What the model sees of a tool result. */
  function Summarize(r: Dispatch.ToolResult, limit: nat): string {
    var v := if r.modelView == "" then r.summary else r.modelView;
    if |v| > limit then v[..limit] + "\n…(truncated)" else v
  }

  // ----- the world during a turn -----

  /** The outside answers of one turn, by step and by call within the step. */
  datatype TurnWorld = TurnWorld(
    cluster: Option<string>,                        // the active cluster, if any
    card: string,
    recalled: Option<seq<string>>,                  // facts, or None when recall fails or is off
    loweredPrompt: string,
    cancelled: nat -> bool,
    stream: nat -> Option<seq<Streaming.Line>>,     // None when the request fails
    price: (string, int, int) -> real,              // model, input tokens, output tokens
    tool: (nat, nat) -> Dispatch.World,
    errorText: Dispatch.DispatchError -> string,
    save: (nat, nat) -> Save)

  /** How one persistence attempt goes. */
  datatype Save = Save(nonce: string, passed: nat, fails: bool)

  datatype End = Answered | Cancelled | StreamFailed | StepBudget

  /** One request to a model: what routing saw and what it decided. */
  datatype Asked = Asked(seen: Router.Classified, decision: Router.Decision)

  /**
   Every request was routed on what was seen; the prompt estimate, and unless a negative cost was booked
   the spending, never fell from one request to the next, and do not exceed the present ones.
   */
  predicate RoutesOk(tiers: Router.Tiers, asked: seq<Asked>, h: seq<Message>, spent: real, budget: int, rising: bool) {
    && (forall i :: 0 <= i < |asked| ==> asked[i].decision == Router.Routed(tiers, asked[i].seen))
    && (forall i, j :: 0 <= i < j < |asked| ==>
          asked[i].seen.estTokens <= asked[j].seen.estTokens && (rising ==> asked[i].seen.spentCents <= asked[j].seen.spentCents))
    && forall i :: 0 <= i < |asked| ==>
         && asked[i].seen.estTokens <= Chars(h) / 4 && asked[i].seen.budgetCents == budget
         && (rising ==> asked[i].seen.spentCents <= spent)
  }

  predicate HistoryOk(h: seq<Message>, kinds: seq<Kind>) {
    |kinds| == |h| && h != [] && kinds[0] == Preamble && h[0] == TextMessage(System, SYSTEM_PREAMBLE)
  }

  function Join(facts: seq<string>): string {
    if facts == [] then "" else "\n- " + facts[0] + Join(facts[1..])
  }

  // ----- what a turn says -----

  /** What a tool call meets. */
  datatype Env = Env(cfg: Dispatch.Config, tools: map<string, Dispatch.Tool>, sp: Dispatch.SessionPolicy)

  function OnCluster(sp: Dispatch.SessionPolicy, cluster: Option<string>): Dispatch.SessionPolicy {
    if cluster.Some? then sp.(cluster := cluster.value) else sp
  }

  /** The grounding of a turn, which is not recorded. */
  function Grounding(w: TurnWorld): seq<Message> {
    [TextMessage(User, "[cluster context]\n" + w.card)]
    + (if w.recalled.Some? && w.recalled.value != [] then
         [TextMessage(System, "[recalled operational memory]" + Join(w.recalled.value))]
       else [])
  }

  /** The lines that the model streams in a step. */
  function Streamed(w: TurnWorld, step: nat): seq<Streaming.Line> {
    if w.stream(step).Some? then Streaming.Live(w.stream(step).value) else []
  }

  function ReplyOf(w: TurnWorld, step: nat): Message {
    Message(Assistant, Streaming.TextIn(Streamed(w, step)), Streaming.CallsIn(Streamed(w, step)), "", "")
  }

  /** What the model is told about one call. */
  function Observation(env: Env, w: TurnWorld, step: nat, k: nat, tc: ToolCall): Message {
    var reply := Dispatch.EpisodeReply(env.cfg, env.tools, env.sp, tc.name, tc.args, w.tool(step, k));
    Message(Tool,
            if reply.error.Some? then "tool " + tc.name + " failed: " + w.errorText(reply.error.value)
            else Summarize(reply.result, TOOL_VIEW_LIMIT),
            [], tc.id, tc.name)
  }

  function Observations(env: Env, w: TurnWorld, step: nat, calls: seq<ToolCall>): seq<Message> {
    if calls == [] then []
    else
      var k := |calls| - 1;
      Observations(env, w, step, calls[..k]) + [Observation(env, w, step, k, calls[k])]
  }

  function StepMessages(env: Env, w: TurnWorld, step: nat): seq<Message> {
    [ReplyOf(w, step)] + Observations(env, w, step, ReplyOf(w, step).toolCalls)
  }

  function RunMessages(env: Env, w: TurnWorld, steps: nat): seq<Message> {
    if steps == 0 then [] else RunMessages(env, w, steps - 1) + StepMessages(env, w, steps - 1)
  }

  // ----- what the store keeps of it -----

  /** A failed save leaves nothing; another one leaves the message as it is read back. */
  function Kept(m: Message, save: Save): seq<Message> {
    if save.fails then [] else [AsStored(m)]
  }

  function StoredObservations(env: Env, w: TurnWorld, step: nat, calls: seq<ToolCall>): seq<Message> {
    if calls == [] then []
    else
      var k := |calls| - 1;
      StoredObservations(env, w, step, calls[..k]) + Kept(Observation(env, w, step, k, calls[k]), w.save(step + 1, k + 1))
  }

  function StoredStep(env: Env, w: TurnWorld, step: nat): seq<Message> {
    Kept(ReplyOf(w, step), w.save(step + 1, 0)) + StoredObservations(env, w, step, ReplyOf(w, step).toolCalls)
  }

  function StoredRun(env: Env, w: TurnWorld, steps: nat): seq<Message> {
    if steps == 0 then [] else StoredRun(env, w, steps - 1) + StoredStep(env, w, steps - 1)
  }

  // ----- text, calls, cost and requests of it -----

  function Spoken(w: TurnWorld, steps: nat): string {
    if steps == 0 then "" else Spoken(w, steps - 1) + ReplyOf(w, steps - 1).content
  }

  /** The dispatches of a turn, in order. */
  function StepCalls(env: Env, w: TurnWorld, step: nat, calls: seq<ToolCall>): seq<Dispatch.Call> {
    if calls == [] then []
    else
      var k := |calls| - 1;
      StepCalls(env, w, step, calls[..k]) + [Dispatch.Call(env.sp, calls[k].name, calls[k].args, w.tool(step, k))]
  }

  function RunCalls(env: Env, w: TurnWorld, steps: nat): seq<Dispatch.Call> {
    if steps == 0 then []
    else RunCalls(env, w, steps - 1) + StepCalls(env, w, steps - 1, ReplyOf(w, steps - 1).toolCalls)
  }

  /** Streamed usage carries no cost; it is derived from the price list. It is lost when the end is unmarked. */
  function CostOf(w: TurnWorld, step: nat): real {
    if w.stream(step).Some? && Streaming.DoneMark in w.stream(step).value && Streaming.UsageIn(Streamed(w, step)).Some? then
      var u := Streaming.UsageIn(Streamed(w, step)).value;
      if u.costCents == 0.0 && (u.inputTokens > 0 || u.outputTokens > 0) then w.price(u.model, u.inputTokens, u.outputTokens)
      else u.costCents
    else 0.0
  }

  function Costs(w: TurnWorld, steps: nat): real {
    if steps == 0 then 0.0 else Costs(w, steps - 1) + CostOf(w, steps - 1)
  }

  predicate NoRefund(w: TurnWorld, steps: nat) {
    forall i :: 0 <= i < steps ==> CostOf(w, i) >= 0.0
  }

  /** What is asked in a step: routing sees the history and the spending that the earlier steps left. */
  function StepAsked(tiers: Router.Tiers, budget: int, env: Env, w: TurnWorld, base: seq<Message>, spent: real, step: nat): Asked {
    var seen := Router.Class(w.loweredPrompt, Chars(base + RunMessages(env, w, step)) / 4, step > 0, budget, spent + Costs(w, step));
    Asked(seen, Router.Routed(tiers, seen))
  }

  function RunAsked(tiers: Router.Tiers, budget: int, env: Env, w: TurnWorld, base: seq<Message>, spent: real, requests: nat): seq<Asked> {
    if requests == 0 then []
    else
      RunAsked(tiers, budget, env, w, base, spent, requests - 1) + [StepAsked(tiers, budget, env, w, base, spent, requests - 1)]
  }

  /** A step that neither is cancelled, fails nor answers: the loop goes on behind it. */
  predicate Continues(w: TurnWorld, step: nat) {
    !w.cancelled(step) && w.stream(step).Some? && ReplyOf(w, step).toolCalls != []
  }

  /** How a turn of so many completed steps ended. */
  predicate Ends(w: TurnWorld, maxSteps: int, steps: nat, end: End) {
    && (forall i :: 0 <= i < steps - (if end == Answered then 1 else 0) ==> Continues(w, i))
    && match end
       case Answered => 0 < steps <= maxSteps && !w.cancelled(steps - 1) && w.stream(steps - 1).Some? && ReplyOf(w, steps - 1).toolCalls == []
       case Cancelled => steps < maxSteps && w.cancelled(steps)
       case StreamFailed => steps < maxSteps && !w.cancelled(steps) && w.stream(steps) == None
       case StepBudget => steps == if maxSteps < 0 then 0 else maxSteps
  }

  // ----- the books of a turn -----

  /** What a turn changes, with the text so far. */
  datatype Books = Books(history: seq<Message>, recorded: seq<Message>, stored: seq<Message>, trace: seq<Dispatch.Event>,
                         asked: seq<Asked>, spent: real, rising: bool, text: string)

  /** A request is routed on what the books say. */
  function AskBooks(b: Books, tiers: Router.Tiers, budget: int, w: TurnWorld, step: nat): Books {
    var seen := Router.Class(w.loweredPrompt, Chars(b.history) / 4, step > 0, budget, b.spent);
    b.(asked := b.asked + [Asked(seen, Router.Routed(tiers, seen))])
  }

  /** The answer is said and booked, and its calls are acted on. */
  function AnswerBooks(b: Books, env: Env, w: TurnWorld, step: nat): Books {
    Books(b.history + StepMessages(env, w, step), b.recorded + StepMessages(env, w, step), b.stored + StoredStep(env, w, step),
          b.trace + Dispatch.RunTrace(env.cfg, env.tools, StepCalls(env, w, step, ReplyOf(w, step).toolCalls)),
          b.asked, b.spent + CostOf(w, step), b.rising && CostOf(w, step) >= 0.0, b.text + ReplyOf(w, step).content)
  }

  /** The books after so many steps and requests. */
  function BooksAfter(b: Books, tiers: Router.Tiers, budget: int, env: Env, w: TurnWorld, steps: nat, requests: nat): Books {
    Books(b.history + RunMessages(env, w, steps), b.recorded + RunMessages(env, w, steps), b.stored + StoredRun(env, w, steps),
          b.trace + Dispatch.RunTrace(env.cfg, env.tools, RunCalls(env, w, steps)),
          b.asked + RunAsked(tiers, budget, env, w, b.history, b.spent, requests),
          b.spent + Costs(w, steps), b.rising && NoRefund(w, steps), b.text + Spoken(w, steps))
  }

  lemma BooksAfterTell(b: Books, tiers: Router.Tiers, budget: int, env: Env, w: TurnWorld, steps: nat, requests: nat)
    ensures var after := BooksAfter(b, tiers, budget, env, w, steps, requests);
      && after.history == b.history + RunMessages(env, w, steps) && after.recorded == b.recorded + RunMessages(env, w, steps)
      && after.stored == b.stored + StoredRun(env, w, steps)
      && after.trace == b.trace + Dispatch.RunTrace(env.cfg, env.tools, RunCalls(env, w, steps))
      && after.asked == b.asked + RunAsked(tiers, budget, env, w, b.history, b.spent, requests)
      && after.spent == b.spent + Costs(w, steps) && after.rising == (b.rising && NoRefund(w, steps))
      && (b.text == "" ==> after.text == Spoken(w, steps))
  {
    hide RunMessages, StoredRun, RunAsked, RunCalls, Dispatch.RunTrace, Costs, NoRefund, Spoken;
  }

  // ----- what the model is told, in plain terms -----

  /** A tool result as the model sees it: the redacted view, or the redacted summary without one, cut at 6000 characters. */
  predicate ViewTells(cfg: Dispatch.Config, r: Dispatch.ToolResult, content: string) {
    var view := if cfg.scrub.Some? then cfg.scrub.value(r.modelView) else r.modelView;
    var summary := if cfg.scrub.Some? then cfg.scrub.value(r.summary) else r.summary;
    var text := if view == "" then summary else view;
    content == if |text| <= 6000 then text else text[..6000] + "\n…(truncated)"
  }

  /**
   The message answers the call: with the tool's result if the dispatch executed the tool and it succeeded,
   and otherwise with the name of the tool and the dispatch's error.
   */
  ghost predicate ToolTells(env: Env, w: TurnWorld, step: nat, k: nat, tc: ToolCall, m: Message) {
    var world := w.tool(step, k);
    var events := Dispatch.Episode(env.cfg, env.tools, env.sp, tc.name, tc.args, world);
    var error := Dispatch.EpisodeReply(env.cfg, env.tools, env.sp, tc.name, tc.args, world).error;
    && m.role == Tool && m.toolCallId == tc.id && m.name == tc.name && m.toolCalls == []
    && if exists e :: e in events && e.Executed? && e.ok then ViewTells(env.cfg, world.live.result, m.content)
       else error.Some? && m.content == "tool " + tc.name + " failed: " + w.errorText(error.value)
  }

  /** At p stand the streamed answer of the step and then, call by call, what the model is told. */
  ghost predicate StepTells(env: Env, w: TurnWorld, h: seq<Message>, p: nat, step: nat) {
    w.stream(step).Some?
    && var live := Streaming.Live(w.stream(step).value);
       var calls := Streaming.CallsIn(live);
       && p + |calls| < |h|
       && h[p] == Message(Assistant, Streaming.TextIn(live), calls, "", "")
       && forall k :: 0 <= k < |calls| ==> ToolTells(env, w, step, k, calls[k], h[p + 1 + k])
  }

  /** Where the messages of a step start, counted from the first step. */
  function PlaceOf(w: TurnWorld, step: nat): nat {
    if step == 0 then 0 else PlaceOf(w, step - 1) + 1 + |ReplyOf(w, step - 1).toolCalls|
  }

  /** Every step of the turn stands in the history at its place, and nothing follows. */
  ghost predicate RunTells(env: Env, w: TurnWorld, h: seq<Message>, start: nat, steps: nat) {
    |h| == start + PlaceOf(w, steps) && forall i :: 0 <= i < steps ==> StepTells(env, w, h, start + PlaceOf(w, i), i)
  }

  lemma ObservationTells(env: Env, w: TurnWorld, step: nat, k: nat, tc: ToolCall)
    ensures ToolTells(env, w, step, k, tc, Observation(env, w, step, k, tc))
  {
    var world := w.tool(step, k);
    var events := Dispatch.Episode(env.cfg, env.tools, env.sp, tc.name, tc.args, world);
    Dispatch.ReplyTellsTheOutcome(env.cfg, env.tools, env.sp, tc.name, tc.args, world);
    var executions := Seqs.Filter(Dispatch.IsExecution(), events);
    hide Dispatch.Episode, Dispatch.EpisodeReply;
    if Dispatch.EpisodeReply(env.cfg, env.tools, env.sp, tc.name, tc.args, world).error == None {
      Dispatch.SuccessTells(env.cfg, env.tools, env.sp, tc.name, tc.args, world);
      assert executions[0] in executions;
    } else {
      forall e | e in events && e.Executed? ensures !e.ok {
        assert e in executions;
      }
    }
  }

  lemma {:induction false} ObservationsTell(env: Env, w: TurnWorld, step: nat, calls: seq<ToolCall>)
    ensures |Observations(env, w, step, calls)| == |calls|
    ensures forall k :: 0 <= k < |calls| ==> ToolTells(env, w, step, k, calls[k], Observations(env, w, step, calls)[k])
  {
    hide ToolTells, Observation;
    if calls != [] {
      ObservationsTell(env, w, step, calls[..|calls| - 1]);
      ObservationTells(env, w, step, |calls| - 1, calls[|calls| - 1]);
    }
  }

  lemma StepMessagesTell(env: Env, w: TurnWorld, step: nat)
    requires w.stream(step).Some?
    ensures |StepMessages(env, w, step)| == 1 + |ReplyOf(w, step).toolCalls|
    ensures StepTells(env, w, StepMessages(env, w, step), 0, step)
  {
    ObservationsTell(env, w, step, ReplyOf(w, step).toolCalls);
    hide ToolTells, Observations, Streaming.Live, Streaming.TextIn, Streaming.CallsIn;
  }

  /** What stands at a place still stands there when messages are put before or behind. */
  lemma StepTellsWithin(env: Env, w: TurnWorld, a: seq<Message>, h: seq<Message>, b: seq<Message>, p: nat, step: nat)
    requires StepTells(env, w, h, p, step)
    ensures StepTells(env, w, a + h + b, |a| + p, step)
  {
    hide ToolTells, Streaming.Live, Streaming.TextIn, Streaming.CallsIn;
    forall i | 0 <= i < |h| ensures (a + h + b)[|a| + i] == h[i] {}
  }

  lemma {:induction false} RunMessagesTell(env: Env, w: TurnWorld, base: seq<Message>, steps: nat)
    requires forall i :: 0 <= i < steps ==> w.stream(i).Some?
    ensures RunTells(env, w, base + RunMessages(env, w, steps), |base|, steps)
  {
    hide StepTells, StepMessages, ReplyOf;
    if steps == 0 {
      assert base + RunMessages(env, w, 0) == base;
    } else {
      var n := steps - 1;
      var before, last := base + RunMessages(env, w, n), StepMessages(env, w, n);
      RunMessagesTell(env, w, base, n);
      StepMessagesTell(env, w, n);
      assert base + RunMessages(env, w, steps) == before + last;
      StepTellsWithin(env, w, before, last, [], 0, n);
      assert before + last + [] == before + last;
      forall i | 0 <= i < n ensures StepTells(env, w, before + last, |base| + PlaceOf(w, i), i) {
        StepTellsWithin(env, w, [], before, last, |base| + PlaceOf(w, i), i);
        assert [] + before + last == before + last;
      }
      hide RunMessages;
    }
  }

  /** The grounding of a turn: the card, the recalled facts if there are any, and the user's message, behind what was said before. */
  predicate Grounded(before: seq<Message>, h: seq<Message>, w: TurnWorld, userMsg: string) {
    var n := |before|;
    var noted := w.recalled.Some? && w.recalled.value != [];
    && |h| == n + (if noted then 3 else 2) && h[..n] == before
    && h[n] == TextMessage(User, "[cluster context]\n" + w.card)
    && h[|h| - 1] == TextMessage(User, userMsg)
    && (noted ==> h[n + 1] == TextMessage(System, "[recalled operational memory]\n- " + Text.Join(w.recalled.value, "\n- ")))
  }

  lemma GroundingTells(before: seq<Message>, w: TurnWorld, userMsg: string)
    ensures Grounded(before, before + Grounding(w) + [TextMessage(User, userMsg)], w, userMsg)
  {
    if w.recalled.Some? && w.recalled.value != [] {
      NoteTells(w.recalled.value);
      assert "[recalled operational memory]" + ("\n- " + Text.Join(w.recalled.value, "\n- "))
          == "[recalled operational memory]\n- " + Text.Join(w.recalled.value, "\n- ");
    }
    hide Join, Text.Join;
  }

  /** What a step costs: the price of the reported tokens, if the end was marked and tokens were reported. */
  lemma CostTells(w: TurnWorld, step: nat)
    requires w.stream(step).Some?
    ensures var usage := Streaming.UsageIn(Streaming.Live(w.stream(step).value));
      CostOf(w, step) == if Streaming.DoneMark in w.stream(step).value && usage.Some?
                            && (usage.value.inputTokens > 0 || usage.value.outputTokens > 0)
                         then w.price(usage.value.model, usage.value.inputTokens, usage.value.outputTokens)
                         else 0.0
  {
    UsageIsFree(Streamed(w, step));
  }

  /** The final text is what the steps streamed, one after the other. */
  lemma SpokenTells(w: TurnWorld, step: nat)
    requires w.stream(step).Some?
    ensures Spoken(w, 0) == "" && Spoken(w, step + 1) == Spoken(w, step) + Streaming.TextIn(Streaming.Live(w.stream(step).value))
    ensures Costs(w, 0) == 0.0 && Costs(w, step + 1) == Costs(w, step) + CostOf(w, step)
  {}

  function ContentOf(m: Message): string {
    m.content
  }

  lemma {:induction false} CharsTell(h: seq<Message>)
    ensures Chars(h) == |Seqs.Flatten(Seqs.Map(ContentOf, h))|
  {
    if h != [] {
      var n := |h| - 1;
      CharsTell(h[..n]);
      assert h == h[..n] + [h[n]];
      Seqs.MapConcat(ContentOf, h[..n], [h[n]]);
      Seqs.FlattenConcat(Seqs.Map(ContentOf, h[..n]), Seqs.Map(ContentOf, [h[n]]));
      Seqs.MapCons(ContentOf, h[n], []);
      assert [h[n]] + [] == [h[n]];
      assert Seqs.Flatten([h[n].content]) == h[n].content + Seqs.Flatten([]);
    }
  }

  lemma {:induction false} NoteTells(facts: seq<string>)
    requires facts != []
    ensures Join(facts) == "\n- " + Text.Join(facts, "\n- ")
  {
    if |facts| > 1 {
      NoteTells(facts[1..]);
      assert "\n- " + facts[0] + ("\n- " + Text.Join(facts[1..], "\n- ")) == "\n- " + (facts[0] + "\n- " + Text.Join(facts[1..], "\n- "));
    }
  }

  class Agent {
    const registry: Dispatch.Registry
    const store: MessageStore
    const tiers: Router.Tiers
    const maxSteps: int
    const budget: int
    var sp: Dispatch.SessionPolicy
    var history: seq<Message>
    var spent: real
    ghost var kinds: seq<Kind>
    ghost var asked: seq<Asked>     // every request to a model so far
    ghost var stored: seq<Message>  // what was stored of the conversation, as it is read back
    ghost var tracked: bool         // the store's session held nothing else to begin with
    ghost var rising: bool          // no negative cost was booked

    ghost predicate Valid()
      reads this, registry, store
    {
      && registry.Valid() && store.Valid()
      && HistoryOk(history, kinds)
      && RoutesOk(tiers, asked, history, spent, budget, rising)
      && (tracked ==> Holds(store.cipher, store.rows, sp.sessionId, stored))
    }

    /** What persistence is to hold. */
    ghost function Recorded(): seq<Message>
      reads `history, `kinds
    {
      if |history| == |kinds| then DurablePart(history, kinds) else []
    }

    /** Every durable message was stored and survives storage. */
    ghost predicate Faithful()
      reads `history, `kinds, `stored, `tracked
    {
      tracked && stored == Recorded()
    }

    ghost function Surroundings(): Env
      reads this, registry
    {
      Env(registry.cfg, registry.tools, sp)
    }

    /** Between turns the history and its recorded part are well formed. */
    ghost predicate Settled()
      reads this, registry, store
    {
      Valid() && WellFormed(history) && WellFormed(Recorded())
    }

    constructor (registry: Dispatch.Registry, store: MessageStore, tiers: Router.Tiers, sp: Dispatch.SessionPolicy,
                 maxSteps: int, budget: int)
      requires registry.Valid() && store.Valid()
      ensures Settled() && history == [TextMessage(System, SYSTEM_PREAMBLE)] && spent == 0.0 && asked == []
      ensures Recorded() == [] && stored == [] && rising
      ensures this.registry == registry && this.store == store && this.sp == sp && this.budget == budget && this.tiers == tiers
      ensures this.maxSteps == if maxSteps == 0 then 12 else maxSteps
      ensures tracked <==> Holds(store.cipher, store.rows, sp.sessionId, [])
    {
      hide Holds, DurablePart, WellFormed, RoutesOk, Dispatch.Registry.Valid, MessageStore.Valid;
      this.registry, this.store, this.tiers, this.sp, this.budget := registry, store, tiers, sp, budget;
      this.maxSteps := if maxSteps == 0 then DEFAULT_MAX_STEPS else maxSteps;
      history, kinds, spent, asked := [TextMessage(System, SYSTEM_PREAMBLE)], [Preamble], 0.0, [];
      stored, rising := [], true;
      tracked := Holds(store.cipher, store.rows, sp.sessionId, []);
      new;
      FreshParts();
      NoRequests(tiers, history, 0.0, budget, true);
    }

    /** Resume: the preamble, then the loaded conversation. */
    method Restore(msgs: seq<Message>)
      requires Valid()
      modifies `history, `kinds, `asked, `stored, `tracked
      ensures Valid() && history == [TextMessage(System, SYSTEM_PREAMBLE)] + msgs
      ensures Recorded() == msgs && stored == msgs && asked == []
      ensures WellFormed(msgs) ==> Settled()
      ensures tracked <==> Holds(store.cipher, store.rows, sp.sessionId, msgs)
    {
      hide DurablePart, WellFormed, Holds, RoutesOk, Dispatch.Registry.Valid, MessageStore.Valid;
      NoRequests(tiers, [TextMessage(System, SYSTEM_PREAMBLE)] + msgs, spent, budget, rising);
      history := history[..1] + msgs;
      assert history == [TextMessage(System, SYSTEM_PREAMBLE)] + msgs;
      kinds := RestoredParts(msgs);
      asked := [];
      stored := msgs;
      tracked := Holds(store.cipher, store.rows, sp.sessionId, msgs);
    }

    /** What was stored is what loading the session returns; of a faithful agent, all that it recorded. */
    lemma RecordedIsLoaded()
      requires Valid() && tracked
      ensures ReadAll(store.cipher, Selected(store.rows, sp.sessionId)) == Ok(stored)
      ensures Faithful() ==> ReadAll(store.cipher, Selected(store.rows, sp.sessionId)) == Ok(Recorded())
    {
      HeldIsLoaded(store.cipher, store.rows, sp.sessionId, stored);
    }

    /**
     Over a whole session the long tier is final; and unless a negative cost was booked, no reasoning follows
     once spending is past the threshold.
     */
    lemma ChoicesStay(i: nat, j: nat)
      requires Valid() && i < j < |asked|
      ensures asked[i].decision.tier == Router.Long ==> asked[j].decision.tier == Router.Long
      ensures rising && Router.OverBudget(budget, asked[i].seen.spentCents) ==> asked[j].decision.tier != Router.Reasoning
    {
      hide Holds, Dispatch.Registry.Valid, MessageStore.Valid;
    }

    /** A message that is shown to the model but not recorded. */
    method Show(m: Message, ghost kind: Kind)
      requires Valid() && kind != Durable
      modifies `history, `kinds
      ensures Valid() && history == old(history) + [m] && Recorded() == old(Recorded())
    {
      hide DurablePart, Holds, RoutesOk, Dispatch.Registry.Valid, MessageStore.Valid;
      OneMoreMessage(history, kinds, m, kind);
      RoutesStayOk(tiers, asked, history, [m], spent, spent, budget, rising, rising);
      history := history + [m];
      kinds := kinds + [kind];
    }

    /** Append one message to the history and record it, best effort. */
    method Say(m: Message, save: Save)
      requires Valid()
      modifies `history, `kinds, `stored, store
      ensures Valid() && history == old(history) + [m] && Recorded() == old(Recorded()) + [m]
      ensures stored == old(stored) + Kept(m, save)
    {
      hide DurablePart, Holds, RoutesOk, Survives, AsStored, Dispatch.Registry.Valid;
      OneMoreMessage(history, kinds, m, Durable);
      RoutesStayOk(tiers, asked, history, [m], spent, spent, budget, rising, rising);
      ghost var before := store.rows;
      history := history + [m];
      kinds := kinds + [Durable];
      var ok := store.AppendMessage(sp.sessionId, m, save.nonce, save.passed, save.fails);
      if ok && tracked {
        AppendHolds(store.cipher, before, sp.sessionId, stored, m, save.nonce, store.clock);
      }
      assert stored + [] == stored;
      stored := stored + Kept(m, save);
    }

    /** The grounding of the turn, then the user's message. */
    method Assemble(userMsg: string, w: TurnWorld)
      requires Valid()
      modifies `sp, `history, `kinds, `stored, store
      ensures Valid() && sp == OnCluster(old(sp), w.cluster)
      ensures history == old(history) + Grounding(w) + [TextMessage(User, userMsg)]
      ensures sp == if w.cluster.Some? then old(sp).(cluster := w.cluster.value) else old(sp)
      ensures Grounded(old(history), history, w, userMsg)
      ensures Recorded() == old(Recorded()) + [TextMessage(User, userMsg)]
      ensures stored == old(stored) + Kept(TextMessage(User, userMsg), w.save(0, 0))
    {
      hide DurablePart, Holds, RoutesOk, Dispatch.Registry.Valid, MessageStore.Valid, Join, Kept;
      if w.cluster.Some? {
        sp := sp.(cluster := w.cluster.value);
      }
      Show(TextMessage(User, "[cluster context]\n" + w.card), ContextCard);
      if w.recalled.Some? && |w.recalled.value| > 0 {
        Show(TextMessage(System, "[recalled operational memory]" + Join(w.recalled.value)), RecalledNote);
      }
      assert history == old(history) + Grounding(w);
      GroundingTells(old(history), w, userMsg);
      Say(TextMessage(User, userMsg), w.save(0, 0));
    }

    /** Classify and route the next request. */
    method Ask(w: TurnWorld, step: nat) returns (d: Router.Decision)
      requires Valid()
      modifies `asked
      ensures Valid()
      ensures var seen := Router.Class(w.loweredPrompt, Chars(history) / 4, step > 0, budget, spent);
        asked == old(asked) + [Asked(seen, d)] && d == Router.Routed(tiers, seen)
    {
      hide DurablePart, Holds, Chars, Dispatch.Registry.Valid, MessageStore.Valid, Router.Class, Router.Routed;
      var n := EstTokens(history);
      var c := Router.Classify(w.loweredPrompt, n, step > 0, budget, spent);
      d := Router.Route(tiers, c);
      assert c.estTokens == n && c.spentCents == spent && c.budgetCents == budget by { Router.ClassKeeps(w.loweredPrompt, n, step > 0, budget, spent); }
      asked := asked + [Asked(c, d)];
    }

    /** Dispatch one requested tool and observe its result. */
    method ActOn(tc: ToolCall, w: TurnWorld, step: nat, k: nat)
      requires Valid()
      modifies `history, `kinds, `stored, store, registry`trace
      ensures Valid()
      ensures var seen := Observation(Surroundings(), w, step, k, tc);
        && history == old(history) + [seen] && Recorded() == old(Recorded()) + [seen]
        && stored == old(stored) + Kept(seen, w.save(step + 1, k + 1))
      ensures registry.trace == old(registry.trace)
                                + Dispatch.Episode(registry.cfg, registry.tools, sp, tc.name, tc.args, w.tool(step, k))
    {
      hide DurablePart, Holds, RoutesOk, Kept, Dispatch.Registry.Valid, MessageStore.Valid, Summarize;
      hide Dispatch.EpisodeReply, Dispatch.Episode;
      var reply := registry.Dispatch(sp, tc.name, tc.args, w.tool(step, k));
      var view := if reply.error.Some? then "tool " + tc.name + " failed: " + w.errorText(reply.error.value)
                  else Summarize(reply.result, TOOL_VIEW_LIMIT);
      Say(Message(Tool, view, [], tc.id, tc.name), w.save(step + 1, k + 1));
    }

    /** Act on every requested tool, in order. */
    method Act(calls: seq<ToolCall>, w: TurnWorld, step: nat)
      requires Valid()
      modifies `history, `kinds, `stored, store, registry`trace
      ensures Valid()
      ensures var seen := Observations(Surroundings(), w, step, calls);
        && history == old(history) + seen && Recorded() == old(Recorded()) + seen
        && stored == old(stored) + StoredObservations(Surroundings(), w, step, calls)
      ensures |history| == |old(history)| + |calls|
      ensures forall k :: 0 <= k < |calls| ==> ToolTells(Surroundings(), w, step, k, calls[k], history[|old(history)| + k])
      ensures registry.trace == old(registry.trace)
                                + Dispatch.RunTrace(registry.cfg, registry.tools, StepCalls(Surroundings(), w, step, calls))
    {
      hide Valid, Recorded, Observations, StoredObservations, Observation, Kept, StepCalls, Dispatch.RunTrace, Dispatch.Episode;
      hide ToolTells;
      ghost var env := Surroundings();
      NothingSeen(env, w, step);
      for k := 0 to |calls|
        invariant Valid()
        invariant history == old(history) + Observations(env, w, step, calls[..k])
        invariant Recorded() == old(Recorded()) + Observations(env, w, step, calls[..k])
        invariant stored == old(stored) + StoredObservations(env, w, step, calls[..k])
        invariant registry.trace == old(registry.trace)
                                    + Dispatch.RunTrace(env.cfg, env.tools, StepCalls(env, w, step, calls[..k]))
      {
        OneMoreCall(env, w, step, calls[..k], calls[k]);
        assert calls[..k + 1] == calls[..k] + [calls[k]];
        ActOn(calls[k], w, step, k);
      }
      assert calls[..|calls|] == calls;
      ObservationsTell(env, w, step, calls);
    }

    /** One request that is answered: the cost is booked and the reply is said. */
    method Reason(w: TurnWorld, step: nat, said: string) returns (reply: Message, said': string)
      requires Valid() && w.stream(step).Some?
      modifies `history, `kinds, `stored, `spent, `rising, store
      ensures Valid() && reply == ReplyOf(w, step) && said' == said + reply.content
      ensures history == old(history) + [reply] && Recorded() == old(Recorded()) + [reply]
      ensures stored == old(stored) + Kept(reply, w.save(step + 1, 0))
      ensures spent == old(spent) + CostOf(w, step) && rising == (old(rising) && CostOf(w, step) >= 0.0)
    {
      hide DurablePart, Holds, RoutesOk, Kept, Dispatch.Registry.Valid, MessageStore.Valid;
      hide Streaming.TextIn, Streaming.CallsIn, Streaming.UsageIn, Streaming.Live;
      var body := w.stream(step).value;
      var stream := new Streaming.SseStream(body);
      var usage;
      reply, usage, said' := Streaming.StreamTurn(stream, said);
      if usage.costCents == 0.0 && (usage.inputTokens > 0 || usage.outputTokens > 0) {
        usage := usage.(costCents := w.price(usage.model, usage.inputTokens, usage.outputTokens));
      }
      assert usage.costCents == CostOf(w, step);
      RoutesStayOk(tiers, asked, history, [], spent, spent + usage.costCents, budget, rising, rising && usage.costCents >= 0.0);
      assert history + [] == history;
      rising := rising && usage.costCents >= 0.0;
      spent := spent + usage.costCents;
      Say(reply, w.save(step + 1, 0));
    }

    /** One request that is answered, and the calls in the answer. */
    method ReasonAndAct(w: TurnWorld, step: nat, said: string) returns (reply: Message, said': string)
      requires Valid() && w.stream(step).Some?
      modifies `history, `kinds, `stored, `spent, `rising, store, registry`trace
      ensures Valid() && reply == ReplyOf(w, step) && said' == said + reply.content
      ensures history == old(history) + StepMessages(Surroundings(), w, step)
      ensures Recorded() == old(Recorded()) + StepMessages(Surroundings(), w, step)
      ensures registry.trace == old(registry.trace)
                                + Dispatch.RunTrace(registry.cfg, registry.tools, StepCalls(Surroundings(), w, step, reply.toolCalls))
      ensures spent == old(spent) + CostOf(w, step) && rising == (old(rising) && CostOf(w, step) >= 0.0)
      ensures stored == old(stored) + StoredStep(Surroundings(), w, step)
    {
      hide Valid, Recorded, ReplyOf, CostOf, Observations, StoredObservations, Kept, StepCalls, Dispatch.RunTrace;
      reply, said' := Reason(w, step, said);
      Act(reply.toolCalls, w, step);
    }

    ghost function BooksWith(text: string): Books
      reads this, registry
    {
      Books(history, Recorded(), stored, registry.trace, asked, spent, rising, text)
    }

    /** One request; when it is answered, also what follows from the answer. */
    method TakeStep(w: TurnWorld, step: nat, said: string) returns (reply: Option<Message>, said': string)
      requires Valid()
      modifies `history, `kinds, `stored, `asked, `spent, `rising, store, registry`trace
      ensures Valid() && reply == (if w.stream(step).Some? then Some(ReplyOf(w, step)) else None)
      ensures var asking := AskBooks(old(BooksWith(said)), tiers, budget, w, step);
        BooksWith(said') == if reply == None then asking else AnswerBooks(asking, Surroundings(), w, step)
    {
      hide Valid, Recorded, ReplyOf, CostOf, StepMessages, StoredStep, StepCalls, Dispatch.RunTrace, Chars, Router.Class, Router.Routed;
      var d := Ask(w, step);
      if w.stream(step) == None {
        return None, said;
      }
      var assistant;
      assistant, said' := ReasonAndAct(w, step, said);
      return Some(assistant), said';
    }

    /** Up to maxSteps steps on an assembled history. */
    method RunSteps(w: TurnWorld) returns (end: End, finalText: string, ghost steps: nat)
      requires Valid()
      modifies `history, `kinds, `stored, `asked, `spent, `rising, store, registry`trace
      ensures Valid() && Ends(w, maxSteps, steps, end)
      ensures history == old(history) + RunMessages(Surroundings(), w, steps)
      ensures RunTells(Surroundings(), w, history, |old(history)|, steps)
      ensures Recorded() == old(Recorded()) + RunMessages(Surroundings(), w, steps)
      ensures stored == old(stored) + StoredRun(Surroundings(), w, steps)
      ensures registry.trace == old(registry.trace)
                                + Dispatch.RunTrace(registry.cfg, registry.tools, RunCalls(Surroundings(), w, steps))
      ensures asked == old(asked) + RunAsked(tiers, budget, Surroundings(), w, old(history), old(spent),
                                             steps + (if end == StreamFailed then 1 else 0))
      ensures finalText == Spoken(w, steps) && spent == old(spent) + Costs(w, steps)
      ensures rising == (old(rising) && NoRefund(w, steps))
    {
      hide Valid, BooksWith, BooksAfter, AskBooks, AnswerBooks, ReplyOf, Ends, AllContinue, Recorded, RunTells;
      hide RunMessages, StoredRun, RunAsked, RunCalls, Dispatch.RunTrace, Spoken, Costs, NoRefund;
      ghost var env, before := Surroundings(), BooksWith("");
      end, finalText, steps := StepBudget, "", 0;
      NothingRun(before, tiers, budget, env, w);
      ReadBooks("");
      NoneContinues(w);
      for step := 0 to if maxSteps < 0 then 0 else maxSteps
        invariant Valid() && steps == step && end == StepBudget && AllContinue(w, step)
        invariant BooksWith(finalText) == BooksAfter(before, tiers, budget, env, w, step, step)
      {
        if w.cancelled(step) {
          EndsAt(w, maxSteps, step, Cancelled);
          end := Cancelled;
          break;
        }
        OneMoreStep(before, tiers, budget, env, w, step);
        var assistant;
        assistant, finalText := TakeStep(w, step, finalText);
        if assistant == None {
          EndsAt(w, maxSteps, step, StreamFailed);
          end := StreamFailed;
          break;
        }
        steps := step + 1;
        if |assistant.value.toolCalls| == 0 {
          EndsAt(w, maxSteps, steps, Answered);
          end := Answered;
          break;
        }
        OneMoreContinues(w, step);
      }
      if end == StepBudget {
        EndsAt(w, maxSteps, steps, StepBudget);
      }
      EveryStepStreamed(w, maxSteps, steps, end);
      RunMessagesTell(env, w, old(history), steps);
      ReadBooks(finalText);
      BooksAfterTell(before, tiers, budget, env, w, steps, steps + (if end == StreamFailed then 1 else 0));
    }

    lemma ReadBooks(text: string)
      ensures var b := BooksWith(text);
        && b.history == history && b.recorded == Recorded() && b.stored == stored && b.trace == registry.trace
        && b.asked == asked && b.spent == spent && b.rising == rising && b.text == text
    {}

    /** The bounded reason-act-observe loop for one user turn. */
    method RunLoop(userMsg: string, w: TurnWorld) returns (end: End, finalText: string, ghost steps: nat)
      requires Valid()
      modifies `sp, `history, `kinds, `stored, `asked, `spent, `rising, store, registry`trace
      ensures Valid() && Ends(w, maxSteps, steps, end)
      ensures old(Settled()) ==> Settled()
      ensures sp == OnCluster(old(sp), w.cluster)
      ensures history == old(history) + Grounding(w) + [TextMessage(User, userMsg)] + RunMessages(Surroundings(), w, steps)
      ensures var start := |old(history) + Grounding(w)| + 1;
        && start <= |history| && Grounded(old(history), history[..start], w, userMsg)
        && RunTells(Surroundings(), w, history, start, steps)
      ensures Recorded() == old(Recorded()) + [TextMessage(User, userMsg)] + RunMessages(Surroundings(), w, steps)
      ensures stored == old(stored) + Kept(TextMessage(User, userMsg), w.save(0, 0)) + StoredRun(Surroundings(), w, steps)
      ensures old(Faithful()) && AllSaved(w) && AllSurvive(RunMessages(Surroundings(), w, steps)) ==> Faithful()
      ensures registry.trace == old(registry.trace)
                                + Dispatch.RunTrace(registry.cfg, registry.tools, RunCalls(Surroundings(), w, steps))
      ensures asked == old(asked) + RunAsked(tiers, budget, Surroundings(), w,
                                             old(history) + Grounding(w) + [TextMessage(User, userMsg)], old(spent),
                                             steps + (if end == StreamFailed then 1 else 0))
      ensures finalText == Spoken(w, steps) && spent == old(spent) + Costs(w, steps)
      ensures rising == (old(rising) && NoRefund(w, steps))
    {
      hide Valid, Recorded, WellFormed, Grounding, RunMessages, RunCalls, Spoken, Costs, Ends, Dispatch.RunTrace, RunAsked;
      hide AllSurvive, AllSaved, OnCluster, StoredRun, Kept, NoRefund, Grounded, RunTells;
      Assemble(userMsg, w);
      ghost var assembled := history;
      end, finalText, steps := RunSteps(w);
      TurnIsClosed(Surroundings(), w, steps, old(history), old(Recorded()), userMsg);
      TurnIsKept(Surroundings(), w, steps, userMsg);
      assert history[..|assembled|] == assembled;
    }
  }

  predicate AllContinue(w: TurnWorld, steps: nat) {
    forall i :: 0 <= i < steps ==> Continues(w, i)
  }

  lemma NoneContinues(w: TurnWorld)
    ensures AllContinue(w, 0)
  {}

  lemma OneMoreContinues(w: TurnWorld, step: nat)
    requires AllContinue(w, step) && !w.cancelled(step) && w.stream(step).Some? && ReplyOf(w, step).toolCalls != []
    ensures AllContinue(w, step + 1)
  {}

  lemma EndsAt(w: TurnWorld, maxSteps: int, steps: nat, end: End)
    requires end == Answered ==> steps > 0 && AllContinue(w, steps - 1)
    requires end != Answered ==> AllContinue(w, steps)
    requires match end
             case Answered => steps <= maxSteps && !w.cancelled(steps - 1) && w.stream(steps - 1).Some? && ReplyOf(w, steps - 1).toolCalls == []
             case Cancelled => steps < maxSteps && w.cancelled(steps)
             case StreamFailed => steps < maxSteps && !w.cancelled(steps) && w.stream(steps) == None
             case StepBudget => steps == if maxSteps < 0 then 0 else maxSteps
    ensures Ends(w, maxSteps, steps, end)
  {}

  lemma EveryStepStreamed(w: TurnWorld, maxSteps: int, steps: nat, end: End)
    requires Ends(w, maxSteps, steps, end)
    ensures forall i :: 0 <= i < steps ==> w.stream(i).Some?
  {
    forall i | 0 <= i < steps ensures w.stream(i).Some? {
      assert i < steps - (if end == Answered then 1 else 0) ==> Continues(w, i);
    }
  }

  predicate AllSurvive(ms: seq<Message>) {
    forall m :: m in ms ==> Survives(m)
  }

  lemma NothingSeen(env: Env, w: TurnWorld, step: nat)
    ensures Observations(env, w, step, []) == [] && StoredObservations(env, w, step, []) == []
    ensures Dispatch.RunTrace(env.cfg, env.tools, StepCalls(env, w, step, [])) == []
  {}

  lemma OneMoreCall(env: Env, w: TurnWorld, step: nat, calls: seq<ToolCall>, tc: ToolCall)
    ensures Observations(env, w, step, calls + [tc]) == Observations(env, w, step, calls) + [Observation(env, w, step, |calls|, tc)]
    ensures StoredObservations(env, w, step, calls + [tc])
         == StoredObservations(env, w, step, calls) + Kept(Observation(env, w, step, |calls|, tc), w.save(step + 1, |calls| + 1))
    ensures Dispatch.RunTrace(env.cfg, env.tools, StepCalls(env, w, step, calls + [tc]))
         == Dispatch.RunTrace(env.cfg, env.tools, StepCalls(env, w, step, calls))
            + Dispatch.Episode(env.cfg, env.tools, env.sp, tc.name, tc.args, w.tool(step, |calls|))
  {
    var longer := calls + [tc];
    assert longer[..|calls|] == calls;
    var before := StepCalls(env, w, step, calls);
    var c := Dispatch.Call(env.sp, tc.name, tc.args, w.tool(step, |calls|));
    assert StepCalls(env, w, step, longer) == before + [c];
    hide *;
    Dispatch.TraceOneMore(env.cfg, env.tools, before, c);
  }

  lemma NothingRun(b: Books, tiers: Router.Tiers, budget: int, env: Env, w: TurnWorld)
    ensures BooksAfter(b, tiers, budget, env, w, 0, 0) == b
  {}

  lemma OneMoreAsked(tiers: Router.Tiers, budget: int, env: Env, w: TurnWorld, base: seq<Message>, spent: real, n: nat)
    ensures RunAsked(tiers, budget, env, w, base, spent, n + 1)
         == RunAsked(tiers, budget, env, w, base, spent, n) + [StepAsked(tiers, budget, env, w, base, spent, n)]
    ensures RunAsked(tiers, budget, env, w, base, spent, 0) == []
  {}

  /** One request and one answer more. */
  lemma OneMoreStep(b: Books, tiers: Router.Tiers, budget: int, env: Env, w: TurnWorld, step: nat)
    ensures var asking := AskBooks(BooksAfter(b, tiers, budget, env, w, step, step), tiers, budget, w, step);
      && asking == BooksAfter(b, tiers, budget, env, w, step, step + 1)
      && AnswerBooks(asking, env, w, step) == BooksAfter(b, tiers, budget, env, w, step + 1, step + 1)
  {
    OneMoreAsked(tiers, budget, env, w, b.history, b.spent, step);
    OneMoreSaid(env, w, step);
    hide RunMessages, StoredRun, RunAsked, RunCalls, Dispatch.RunTrace, Costs, NoRefund, Spoken, StepMessages, StoredStep, StepCalls;
    hide CostOf, ReplyOf, Router.Class, Router.Routed, Chars;
  }

  lemma OneMoreSaid(env: Env, w: TurnWorld, step: nat)
    ensures var reply := ReplyOf(w, step);
      && RunMessages(env, w, step + 1) == RunMessages(env, w, step) + StepMessages(env, w, step)
      && Dispatch.RunTrace(env.cfg, env.tools, RunCalls(env, w, step + 1))
         == Dispatch.RunTrace(env.cfg, env.tools, RunCalls(env, w, step))
            + Dispatch.RunTrace(env.cfg, env.tools, StepCalls(env, w, step, reply.toolCalls))
      && StoredRun(env, w, step + 1) == StoredRun(env, w, step) + StoredStep(env, w, step)
      && (NoRefund(w, step + 1) <==> NoRefund(w, step) && CostOf(w, step) >= 0.0)
      && Spoken(w, step + 1) == Spoken(w, step) + reply.content
      && Costs(w, step + 1) == Costs(w, step) + CostOf(w, step)
  {
    hide StepMessages, StoredStep, CostOf;
    Dispatch.TraceConcat(env.cfg, env.tools, RunCalls(env, w, step), StepCalls(env, w, step, ReplyOf(w, step).toolCalls));
  }

  /** A step costs nothing negative when the reported token counts and the prices of such counts are not negative. */
  lemma CostIsNotNegative(w: TurnWorld, step: nat)
    requires forall m, i, o :: i >= 0 && o >= 0 ==> w.price(m, i, o) >= 0.0
    requires var u := Streaming.UsageIn(Streamed(w, step)); u.Some? ==> u.value.inputTokens >= 0 && u.value.outputTokens >= 0
    ensures CostOf(w, step) >= 0.0
  {
    if w.stream(step).Some? {
      UsageIsFree(Streamed(w, step));
    }
  }

  /** Streamed usage never carries a cost. */
  lemma {:induction false} UsageIsFree(ls: seq<Streaming.Line>)
    ensures Streaming.UsageIn(ls).Some? ==> Streaming.UsageIn(ls).value.costCents == 0.0
  {
    if ls != [] {
      UsageIsFree(ls[..|ls| - 1]);
    }
  }

  lemma {:induction false} ObservationsAnswer(env: Env, w: TurnWorld, step: nat, calls: seq<ToolCall>)
    ensures AnswersAll(Observations(env, w, step, calls), calls)
  {
    hide Answers, Observation;
    if calls != [] {
      var k := |calls| - 1;
      var before, tc := calls[..k], calls[k];
      var seen := Observations(env, w, step, before);
      assert Observations(env, w, step, calls) == seen + [Observation(env, w, step, k, tc)];
      ObservationsAnswer(env, w, step, before);
      ObservationAnswers(env, w, step, k, tc);
      hide Observations, AnswersAll;
      AnswersOneMore(seen, before, Observation(env, w, step, k, tc), tc);
      assert calls == before + [tc];
    }
  }

  lemma ObservationAnswers(env: Env, w: TurnWorld, step: nat, k: nat, tc: ToolCall)
    ensures Answers(Observation(env, w, step, k, tc), tc)
  {
    hide Dispatch.EpisodeReply, Summarize;
  }

  lemma AnswersOneMore(ms: seq<Message>, calls: seq<ToolCall>, m: Message, tc: ToolCall)
    requires AnswersAll(ms, calls) && Answers(m, tc)
    ensures AnswersAll(ms + [m], calls + [tc])
  {
    hide Answers;
  }

  predicate Identified(tc: ToolCall) {
    tc.id != "" || tc.name == ""
  }

  /** A turn survives storage exactly when every named call in it carries an id. */
  lemma {:induction false} ObservationsSurvive(env: Env, w: TurnWorld, step: nat, calls: seq<ToolCall>)
    ensures AllSurvive(Observations(env, w, step, calls)) <==> forall k :: 0 <= k < |calls| ==> Identified(calls[k])
  {
    hide Observation;
    if calls != [] {
      var k := |calls| - 1;
      ObservationsSurvive(env, w, step, calls[..k]);
      var seen, last := Observations(env, w, step, calls[..k]), Observation(env, w, step, k, calls[k]);
      assert Survives(last) <==> Identified(calls[k]) by { ObservationSurvives(env, w, step, k, calls[k]); }
      assert Observations(env, w, step, calls) == seen + [last];
      hide Observations, Survives;
      assert AllSurvive(seen + [last]) <==> AllSurvive(seen) && Survives(last) by { SurviveOneMore(seen, last); }
    }
  }

  lemma ObservationSurvives(env: Env, w: TurnWorld, step: nat, k: nat, tc: ToolCall)
    ensures Survives(Observation(env, w, step, k, tc)) <==> Identified(tc)
  {
    hide Dispatch.EpisodeReply, Summarize;
  }

  lemma SurviveOneMore(ms: seq<Message>, m: Message)
    ensures AllSurvive(ms + [m]) <==> AllSurvive(ms) && Survives(m)
  {
    hide Survives;
    assert forall x :: x in ms + [m] <==> x in ms || x == m;
  }

  lemma StepIsClosed(env: Env, w: TurnWorld, step: nat)
    ensures WellFormed(StepMessages(env, w, step))
  {
    var reply := ReplyOf(w, step);
    var seen := Observations(env, w, step, reply.toolCalls);
    ObservationsAnswer(env, w, step, reply.toolCalls);
    hide Observations, Streaming.TextIn, Streaming.CallsIn, Streaming.Live;
    assert StepMessages(env, w, step)[1..|seen| + 1] == seen;
    assert StepMessages(env, w, step)[|seen| + 1..] == [];
  }

  /** However many steps a run completes, every call in it is answered, in order. */
  lemma {:induction false} RunIsClosed(env: Env, w: TurnWorld, steps: nat)
    ensures WellFormed(RunMessages(env, w, steps))
  {
    hide StepMessages, WellFormed;
    if steps == 0 {
      NothingIsClosed();
    } else {
      RunIsClosed(env, w, steps - 1);
      StepIsClosed(env, w, steps - 1);
      WellFormedConcat(RunMessages(env, w, steps - 1), StepMessages(env, w, steps - 1));
    }
  }

  lemma NothingIsClosed()
    ensures WellFormed([])
  {}

  lemma TextIsClosed(m: Message)
    requires m.role == User || m.role == System
    ensures WellFormed([m])
  {}

  lemma GroundingIsClosed(w: TurnWorld)
    ensures WellFormed(Grounding(w))
  {
    hide WellFormed, Join;
    var g := Grounding(w);
    TextIsClosed(g[0]);
    if |g| == 2 {
      TextIsClosed(g[1]);
      WellFormedConcat([g[0]], [g[1]]);
      assert [g[0]] + [g[1]] == g;
    } else {
      assert g == [g[0]];
    }
  }

  /** A turn that starts from well-formed histories leaves them well formed. */
  lemma TurnIsClosed(env: Env, w: TurnWorld, steps: nat, h: seq<Message>, kept: seq<Message>, userMsg: string)
    ensures var user := [TextMessage(User, userMsg)];
      && (WellFormed(h) ==> WellFormed(h + Grounding(w) + user + RunMessages(env, w, steps)))
      && (WellFormed(kept) ==> WellFormed(kept + user + RunMessages(env, w, steps)))
  {
    var user := [TextMessage(User, userMsg)];
    hide WellFormed, Grounding, RunMessages;
    GroundingIsClosed(w);
    TextIsClosed(user[0]);
    RunIsClosed(env, w, steps);
    if WellFormed(h) {
      WellFormedConcat(h, Grounding(w));
      WellFormedConcat(h + Grounding(w), user);
      WellFormedConcat(h + Grounding(w) + user, RunMessages(env, w, steps));
    }
    if WellFormed(kept) {
      WellFormedConcat(kept, user);
      WellFormedConcat(kept + user, RunMessages(env, w, steps));
    }
  }

  ghost predicate AllSaved(w: TurnWorld) {
    forall i, k :: !w.save(i, k).fails
  }

  /** When every save succeeds and every message survives, the store keeps the turn as it was said. */
  lemma TurnIsKept(env: Env, w: TurnWorld, steps: nat, userMsg: string)
    ensures AllSaved(w) ==> Kept(TextMessage(User, userMsg), w.save(0, 0)) == [TextMessage(User, userMsg)]
    ensures AllSaved(w) && AllSurvive(RunMessages(env, w, steps)) ==> StoredRun(env, w, steps) == RunMessages(env, w, steps)
  {
    if AllSaved(w) && AllSurvive(RunMessages(env, w, steps)) {
      RunIsKept(env, w, steps);
    }
  }

  lemma {:induction false} RunIsKept(env: Env, w: TurnWorld, steps: nat)
    requires AllSaved(w) && AllSurvive(RunMessages(env, w, steps))
    ensures StoredRun(env, w, steps) == RunMessages(env, w, steps)
  {
    hide StepMessages, StoredStep, Survives, AllSaved;
    if steps > 0 {
      SurviveConcat(RunMessages(env, w, steps - 1), StepMessages(env, w, steps - 1));
      RunIsKept(env, w, steps - 1);
      StepIsKept(env, w, steps - 1);
    }
  }

  lemma StepIsKept(env: Env, w: TurnWorld, step: nat)
    requires AllSaved(w) && AllSurvive(StepMessages(env, w, step))
    ensures StoredStep(env, w, step) == StepMessages(env, w, step)
  {
    var reply := ReplyOf(w, step);
    hide Observations, Survives, Streaming.TextIn, Streaming.CallsIn, Streamed;
    SurviveConcat([reply], Observations(env, w, step, reply.toolCalls));
    ObservationsAreKept(env, w, step, reply.toolCalls);
    assert reply in [reply] && AsStored(reply) == reply;
  }

  lemma {:induction false} ObservationsAreKept(env: Env, w: TurnWorld, step: nat, calls: seq<ToolCall>)
    requires AllSaved(w) && AllSurvive(Observations(env, w, step, calls))
    ensures StoredObservations(env, w, step, calls) == Observations(env, w, step, calls)
  {
    hide Observation, Survives;
    if calls != [] {
      var k := |calls| - 1;
      var last := Observation(env, w, step, k, calls[k]);
      SurviveConcat(Observations(env, w, step, calls[..k]), [last]);
      ObservationsAreKept(env, w, step, calls[..k]);
      assert last in [last];
    }
  }

  lemma SurviveConcat(a: seq<Message>, b: seq<Message>)
    ensures AllSurvive(a + b) <==> AllSurvive(a) && AllSurvive(b)
  {
    hide Survives;
    assert forall x :: x in a + b <==> x in a || x in b;
  }

  // ----- what is stored when saves fail -----

  /** The answer to the k-th call of the step is saved. */
  predicate AnswerSaved(w: TurnWorld, step: nat, k: nat) {
    !w.save(step + 1, k + 1).fails
  }

  /** The answers to all these calls are saved, and none loses its name. */
  predicate AnswersSaved(w: TurnWorld, step: nat, calls: seq<ToolCall>) {
    forall k :: 0 <= k < |calls| ==> AnswerSaved(w, step, k) && Identified(calls[k])
  }

  /** Every save of the step succeeds, and no name is lost. */
  predicate SavedWhole(w: TurnWorld, step: nat) {
    !w.save(step + 1, 0).fails && AnswersSaved(w, step, ReplyOf(w, step).toolCalls)
  }

  predicate SavedNothing(w: TurnWorld, step: nat) {
    w.save(step + 1, 0).fails && forall k :: 0 <= k < |ReplyOf(w, step).toolCalls| ==> !AnswerSaved(w, step, k)
  }

  predicate SavedClosed(w: TurnWorld, step: nat) {
    SavedWhole(w, step) || SavedNothing(w, step)
  }

  lemma StoredOneMore(env: Env, w: TurnWorld, step: nat, calls: seq<ToolCall>)
    requires calls != []
    ensures var k := |calls| - 1;
      var m := AsStored(Observation(env, w, step, k, calls[k]));
      && m.role == Tool && (Answers(m, calls[k]) <==> Identified(calls[k]))
      && StoredObservations(env, w, step, calls)
         == StoredObservations(env, w, step, calls[..k]) + (if AnswerSaved(w, step, k) then [m] else [])
  {
    ReadAnswers(env, w, step, |calls| - 1, calls[|calls| - 1]);
    hide Dispatch.EpisodeReply, Summarize;
  }

  lemma {:induction false} StoredObservationsShape(env: Env, w: TurnWorld, step: nat, calls: seq<ToolCall>)
    ensures var s := StoredObservations(env, w, step, calls);
      && |s| <= |calls|
      && (forall k :: 0 <= k < |s| ==> s[k].role == Tool)
      && (s == [] <==> forall k :: 0 <= k < |calls| ==> !AnswerSaved(w, step, k))
  {
    hide Observation, AsStored, AnswerSaved;
    if calls != [] {
      StoredOneMore(env, w, step, calls);
      StoredObservationsShape(env, w, step, calls[..|calls| - 1]);
      hide StoredObservations;
    }
  }

  lemma {:induction false} StoredAnswers(env: Env, w: TurnWorld, step: nat, calls: seq<ToolCall>)
    ensures AnswersAll(StoredObservations(env, w, step, calls), calls) <==> AnswersSaved(w, step, calls)
  {
    hide Observation, AsStored, AnswerSaved, Identified, Answers;
    if calls != [] {
      var k := |calls| - 1;
      var init, tc := calls[..k], calls[k];
      var m := AsStored(Observation(env, w, step, k, tc));
      StoredOneMore(env, w, step, calls);
      StoredAnswers(env, w, step, init);
      StoredObservationsShape(env, w, step, init);
      hide StoredObservations, AnswersAll, AnswersSaved;
      AnswersAllMore(StoredObservations(env, w, step, init), init, m, tc);
      AnswersSavedMore(w, step, calls);
      assert calls == init + [tc];
    }
  }

  lemma AnswersSavedMore(w: TurnWorld, step: nat, calls: seq<ToolCall>)
    requires calls != []
    ensures var k := |calls| - 1;
      AnswersSaved(w, step, calls) <==> AnswersSaved(w, step, calls[..k]) && AnswerSaved(w, step, k) && Identified(calls[k])
  {
    hide AnswerSaved, Identified;
  }

  lemma ReadAnswers(env: Env, w: TurnWorld, step: nat, k: nat, tc: ToolCall)
    ensures Answers(AsStored(Observation(env, w, step, k, tc)), tc) <==> Identified(tc)
  {
    hide Dispatch.EpisodeReply, Summarize;
  }

  lemma AnswersAllMore(ms: seq<Message>, calls: seq<ToolCall>, m: Message, tc: ToolCall)
    requires |ms| <= |calls|
    ensures AnswersAll(ms + [m], calls + [tc]) <==> AnswersAll(ms, calls) && Answers(m, tc)
    ensures !AnswersAll(ms + [], calls + [tc])
  {
    hide Answers;
    var ms', calls' := ms + [m], calls + [tc];
    if AnswersAll(ms', calls') {
      forall i | 0 <= i < |calls| ensures Answers(ms[i], calls[i]) {
        assert Answers(ms'[i], calls'[i]);
      }
      assert Answers(ms'[|ms|], calls'[|ms|]);
    }
  }

  /** What is stored of one step is well formed exactly when it is all of it or nothing of it. */
  lemma StoredStepIsClosed(env: Env, w: TurnWorld, step: nat)
    ensures WellFormed(StoredStep(env, w, step)) <==> SavedClosed(w, step)
  {
    var reply := ReplyOf(w, step);
    var s := StoredObservations(env, w, step, reply.toolCalls);
    ReplyIsKept(w, step);
    hide ReplyOf, StoredObservations, AnswerSaved, Identified, AsStored, WellFormed, AnswersAll;
    StoredObservationsShape(env, w, step, reply.toolCalls);
    StoredAnswers(env, w, step, reply.toolCalls);
    if w.save(step + 1, 0).fails {
      assert StoredStep(env, w, step) == s;
      OrphansAreIllFormed(s);
    } else {
      assert StoredStep(env, w, step) == [reply] + s;
      CallsNeedAnswers(reply, s);
    }
  }

  lemma ReplyIsKept(w: TurnWorld, step: nat)
    ensures ReplyOf(w, step).role == Assistant && AsStored(ReplyOf(w, step)) == ReplyOf(w, step)
  {
    hide Streaming.TextIn, Streaming.CallsIn, Streamed;
  }

  lemma OrphansAreIllFormed(s: seq<Message>)
    requires forall k :: 0 <= k < |s| ==> s[k].role == Tool
    ensures WellFormed(s) <==> s == []
  {}

  lemma CallsNeedAnswers(reply: Message, s: seq<Message>)
    requires reply.role == Assistant && |s| <= |reply.toolCalls|
    ensures WellFormed([reply] + s) <==> AnswersAll(s, reply.toolCalls)
  {
    var n, h := |reply.toolCalls|, [reply] + s;
    hide WellFormed, AnswersAll;
    LengthsMatch(s, reply.toolCalls);
    WellFormedUnfolds(h);
    NothingIsClosed();
    if |s| == n {
      assert h[1..n + 1] == s && h[n + 1..] == [];
    }
  }

  lemma WellFormedUnfolds(h: seq<Message>)
    requires h != []
    ensures WellFormed(h) ==> StartsClosed(h)
    ensures StartsClosed(h) ==> (WellFormed(h) <==> WellFormed(h[|CallsOf(h[0])| + 1..]))
  {
    hide AnswersAll;
  }

  lemma LengthsMatch(ms: seq<Message>, calls: seq<ToolCall>)
    ensures AnswersAll(ms, calls) ==> |ms| == |calls|
  {}

  /**
   Whatever saves fail: the stored conversation is well formed after every step of a turn exactly when
   each step was stored as a whole or not at all.
   */
  lemma StoredTurnIsClosed(env: Env, w: TurnWorld, steps: nat, before: seq<Message>, userMsg: string)
    requires WellFormed(before)
    ensures var base := before + Kept(TextMessage(User, userMsg), w.save(0, 0));
      (forall n :: 0 <= n <= steps ==> WellFormed(base + StoredRun(env, w, n)))
      <==> forall i :: 0 <= i < steps ==> SavedClosed(w, i)
  {
    var user := TextMessage(User, userMsg);
    var base := before + Kept(user, w.save(0, 0));
    hide WellFormed, StoredRun, SavedClosed;
    TextIsClosed(user);
    NothingIsClosed();
    WellFormedConcat(before, Kept(user, w.save(0, 0)));
    StoredRunIsClosed(env, w, steps, base);
  }

  lemma {:induction false} StoredRunIsClosed(env: Env, w: TurnWorld, steps: nat, base: seq<Message>)
    requires WellFormed(base)
    ensures (forall n :: 0 <= n <= steps ==> WellFormed(base + StoredRun(env, w, n)))
       <==> forall i :: 0 <= i < steps ==> SavedClosed(w, i)
  {
    hide WellFormed, SavedClosed, StoredStep;
    if steps == 0 {
      assert base + StoredRun(env, w, 0) == base;
    } else {
      StoredRunIsClosed(env, w, steps - 1, base);
      var run, last := StoredRun(env, w, steps - 1), StoredStep(env, w, steps - 1);
      assert base + StoredRun(env, w, steps) == (base + run) + last;
      hide StoredRun;
      StoredStepIsClosed(env, w, steps - 1);
      assert WellFormed(base + StoredRun(env, w, steps - 1)) <==> WellFormed(base + run);
      if WellFormed(base + run) {
        WellFormedConcat(base + run, last);
      }
    }
  }

  lemma OneMoreMessage(h: seq<Message>, kinds: seq<Kind>, m: Message, kind: Kind)
    requires |h| == |kinds|
    ensures DurablePart(h + [m], kinds + [kind]) == DurablePart(h, kinds) + (if kind == Durable then [m] else [])
    ensures kind != Durable ==> DurablePart(h + [m], kinds + [kind]) == DurablePart(h, kinds)
  {
    assert (h + [m])[..|h|] == h && (kinds + [kind])[..|h|] == kinds;
  }

  lemma NoRequests(tiers: Router.Tiers, h: seq<Message>, spent: real, budget: int, rising: bool)
    ensures RoutesOk(tiers, [], h, spent, budget, rising)
  {}

  lemma RoutesStayOk(tiers: Router.Tiers, asked: seq<Asked>, h: seq<Message>, more: seq<Message>, spent: real, spent': real,
                     budget: int, rising: bool, rising': bool)
    requires RoutesOk(tiers, asked, h, spent, budget, rising)
    requires rising' ==> rising && spent <= spent'
    ensures RoutesOk(tiers, asked, h + more, spent', budget, rising')
  {
    CharsGrow(h, more);
  }

  lemma FreshParts()
    ensures var first := [TextMessage(System, SYSTEM_PREAMBLE)];
      HistoryOk(first, [Preamble]) && DurablePart(first, [Preamble]) == [] && WellFormed(first) && WellFormed([])
  {
    assert [TextMessage(System, SYSTEM_PREAMBLE)][1..] == [];
  }

  /** The kinds of a restored history. */
  lemma RestoredParts(msgs: seq<Message>) returns (kinds: seq<Kind>)
    ensures var h := [TextMessage(System, SYSTEM_PREAMBLE)] + msgs;
      HistoryOk(h, kinds) && DurablePart(h, kinds) == msgs && (WellFormed(msgs) ==> WellFormed(h))
  {
    kinds := AllDurable([TextMessage(System, SYSTEM_PREAMBLE)], [Preamble], msgs);
    var first := [TextMessage(System, SYSTEM_PREAMBLE)];
    assert DurablePart(first, [Preamble]) == [] && WellFormed(first);
    hide WellFormed, DurablePart;
    if WellFormed(msgs) {
      WellFormedConcat(first, msgs);
    }
  }

  lemma {:induction false} AllDurable(h: seq<Message>, kinds: seq<Kind>, ms: seq<Message>) returns (kinds': seq<Kind>)
    requires |h| == |kinds|
    ensures |kinds'| == |h + ms| && kinds <= kinds' && DurablePart(h + ms, kinds') == DurablePart(h, kinds) + ms
    decreases |ms|
  {
    if ms == [] {
      assert h + ms == h;
      return kinds;
    }
    OneMoreMessage(h, kinds, ms[0], Durable);
    kinds' := AllDurable(h + [ms[0]], kinds + [Durable], ms[1..]);
    assert h + [ms[0]] + ms[1..] == h + ms;
    assert DurablePart(h, kinds) + [ms[0]] + ms[1..] == DurablePart(h, kinds) + ms;
  }

  /** Start an agent over a stored session: a load error ends the start, an empty session starts fresh. */
  method Resume(registry: Dispatch.Registry, store: MessageStore, tiers: Router.Tiers, sp: Dispatch.SessionPolicy,
                maxSteps: int, budget: int) returns (r: Result<Agent, string>)
    requires registry.Valid() && store.Valid()
    ensures r.Err? <==> ReadAll(store.cipher, Selected(store.rows, sp.sessionId)).Err?
    ensures r.Ok? ==> var a := r.value;
      && fresh(a) && a.Valid() && a.registry == registry && a.store == store && a.sp == sp
      && Ok(a.Recorded()) == ReadAll(store.cipher, Selected(store.rows, sp.sessionId))
      && a.history == [TextMessage(System, SYSTEM_PREAMBLE)] + a.Recorded()
      && (WellFormed(a.Recorded()) ==> a.Settled())
    ensures forall ms :: Holds(store.cipher, store.rows, sp.sessionId, ms) ==> r.Ok? && r.value.Recorded() == ms && r.value.Faithful()
  {
    hide Holds, WellFormed, Agent.Valid, Agent.Recorded, Dispatch.Registry.Valid, MessageStore.Valid, Selected, ReadAll;
    forall ms | Holds(store.cipher, store.rows, sp.sessionId, ms)
      ensures ReadAll(store.cipher, Selected(store.rows, sp.sessionId)) == Ok(ms)
    {
      HeldIsLoaded(store.cipher, store.rows, sp.sessionId, ms);
    }
    var resumed := store.LoadMessages(sp.sessionId);
    if resumed.Err? {
      return Err(resumed.error);
    }
    var a := new Agent(registry, store, tiers, sp, maxSteps, budget);
    if |resumed.value| > 0 {
      a.Restore(resumed.value);
    }
    return Ok(a);
  }
}
