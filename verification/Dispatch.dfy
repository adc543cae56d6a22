/**
 The dispatch chain that every tool call passes: allow-list, validation, read-only gate, policy,
 dry-run, approval, execution, audit. A trace records what the chain did to the world.
 */
module Dispatch {
  import opened Wrappers
  import opened Seqs
  import opened StableSort
  import Text
  import opened AuditStore

  datatype Risk = Read | Mutate | Destructive

  datatype Tool = Tool(name: string, risk: Risk)

  predicate Mutating(t: Tool) {
    t.risk != Read
  }

  function RiskName(r: Risk): string {
    match r
    case Read => "read"
    case Mutate => "mutate"
    case Destructive => "destructive"
  }

  datatype ToolResult = ToolResult(summary: string, modelView: string, diff: string)

  const NO_RESULT := ToolResult("", "", "")

  datatype DispatchError = UnknownTool | NotEnabled | InvalidArgs | ReadOnly | PolicyFailed | Denied(reason: string)
                         | DryRunFailed | ApproverFailed | NotApproved | ToolFailed(message: string)

  datatype SessionPolicy = SessionPolicy(sessionId: string, mode: string, enabled: seq<string>, cluster: string,
                                         dryRunFirst: bool)

  predicate Enabled(sp: SessionPolicy, name: string) {
    sp.enabled == [] || name in sp.enabled
  }

  // ----- policy -----

  datatype PolicyDecision = PolicyDecision(allow: bool, requireApproval: bool, reason: string, blastRadius: string)

  const NO_DECISION := PolicyDecision(false, false, "", "")

  type PolicyCheck = (Tool, string) -> Result<PolicyDecision, string>

  /** namespaceOf decodes the namespace argument; it is empty when absent or malformed. */
  datatype Policy = Policy(denyNamespaces: set<string>, clusterWideRequiresApproval: bool, namespaceOf: string -> string)
  {
    function Check(t: Tool, args: string): Result<PolicyDecision, string> {
      if !Mutating(t) then Ok(PolicyDecision(true, false, "", "namespace"))
      else
        var ns := namespaceOf(args);
        if ns != "" && ns in denyNamespaces then
          Ok(PolicyDecision(false, false, "mutations are blocked in protected namespace " + ns, ""))
        else
          var blast := if ns == "" then "cluster" else "namespace";
          if blast == "cluster" && clusterWideRequiresApproval then
            Ok(PolicyDecision(true, true, "cluster-scoped mutation", blast))
          else if t.risk == Destructive then
            Ok(PolicyDecision(true, true, "destructive action", blast))
          else
            Ok(PolicyDecision(true, false, "", blast))
    }
  }

  // ----- approval -----

  datatype ApprovalRequest = ApprovalRequest(tool: string, cluster: string, args: string, diff: string, risk: Risk,
                                             blastRadius: string)

  /** What an approver says: yes or no by someone, or an error. */
  datatype Verdict = Says(ok: bool, who: string) | Fails(error: DispatchError)

  datatype Approver = Person | DenyAll | AutoApprover(classes: seq<string>, fallback: Option<Approver>)

  predicate Matches(classes: seq<string>, tool: string) {
    exists i :: 0 <= i < |classes| && Text.Contains(tool, classes[i])
  }

  predicate AutoApproves(classes: seq<string>, req: ApprovalRequest) {
    req.risk != Destructive && req.blastRadius == "namespace" && Matches(classes, req.tool)
  }

  function Approve(a: Approver, req: ApprovalRequest, answer: Verdict): Verdict {
    match a
    case Person => answer
    case DenyAll => Fails(NotApproved)
    case AutoApprover(classes, fallback) =>
      if AutoApproves(classes, req) then Says(true, "auto-approver")
      else if fallback.Some? then Approve(fallback.value, req, answer)
      else Fails(NotApproved)
  }

  /** Whether the request reaches a person. */
  predicate Consults(a: Approver, req: ApprovalRequest) {
    match a
    case Person => true
    case DenyAll => false
    case AutoApprover(classes, fallback) =>
      !AutoApproves(classes, req) && fallback.Some? && Consults(fallback.value, req)
  }

  // ----- the chain -----

  datatype Event =
    | Checked(tool: Tool, args: string, decision: PolicyDecision)
    | DryRan(tool: Tool, args: string, diff: string)
    | Answered(req: ApprovalRequest, answer: Verdict)                    // by a person
    | Decided(req: ApprovalRequest, verdict: Verdict)
    | Executed(sp: SessionPolicy, tool: Tool, args: string, ok: bool)     // for real
    | Audited(entry: AuditEntry)

  datatype Config = Config(policy: Option<PolicyCheck>, approver: Option<Approver>, audited: bool,
                           scrub: Option<string -> string>)

  datatype Outcome = Outcome(result: ToolResult, error: Option<string>)

  /** What the world answers during one dispatch, whenever it is asked. */
  datatype World = World(argsValid: bool, dryRun: Outcome, answer: Verdict, live: Outcome)

  datatype Reply = Reply(result: ToolResult, error: Option<DispatchError>)

  function Refused(e: DispatchError): Reply {
    Reply(NO_RESULT, Some(e))
  }

  function Entry(sp: SessionPolicy, t: Tool, args: string, diff: string, approver: string, status: string, summary: string): AuditEntry {
    AuditEntry(sp.sessionId, t.name, sp.cluster, RiskName(t.risk), args, diff, approver, false, status, summary)
  }

  function Scrubbed(cfg: Config, r: ToolResult): ToolResult {
    if cfg.scrub == None then r
    else r.(modelView := cfg.scrub.value(r.modelView), summary := cfg.scrub.value(r.summary))
  }

  class Registry {
    var tools: map<string, Tool>
    const cfg: Config
    var trace: seq<Event>

    constructor (cfg: Config)
      ensures this.cfg == cfg && tools == map[] && trace == []
    {
      this.cfg, tools, trace := cfg, map[], [];
    }

    ghost predicate Valid()
      reads this
    {
      && (forall n :: n in tools ==> tools[n].name == n)
      && Gated(cfg.policy, trace)
      && Audits(trace) == (if cfg.audited then Attempts(trace) else [])
    }

    method Register(t: Tool)
      requires Valid() && t.name !in tools
      modifies `tools
      ensures Valid() && tools == old(tools)[t.name := t]
    {
      tools := tools[t.name := t];
    }

    method Record(sp: SessionPolicy, t: Tool, args: string, diff: string, approver: string, status: string, summary: string)
      modifies `trace
      ensures trace == old(trace) + Log(cfg, sp, t, args, diff, approver, status, summary)
    {
      if !cfg.audited { return; }
      trace := trace + [Audited(Entry(sp, t, args, diff, approver, status, summary))];
    }

    method Dispatch(sp: SessionPolicy, name: string, args: string, world: World) returns (reply: Reply)
      requires Valid()
      modifies `trace
      ensures Valid()
      ensures reply == EpisodeReply(cfg, tools, sp, name, args, world)
      ensures trace == old(trace) + Episode(cfg, tools, sp, name, args, world)
    {
      EpisodeIsGated(cfg, tools, sp, name, args, world, trace);
      EpisodeIsAccounted(cfg, tools, sp, name, args, world);
      AttemptsConcat(trace, Episode(cfg, tools, sp, name, args, world));
      hide Gated, Attempts, Audits, AfterAdmission, AfterAdmissionReply;
      if name !in tools { return Refused(UnknownTool); }
      var t := tools[name];
      if !Enabled(sp, name) { return Refused(NotEnabled); }
      if !world.argsValid { return Refused(InvalidArgs); }
      if Mutating(t) && sp.mode == "read-only" { return Refused(ReadOnly); }
      reply := CheckAndRun(sp, t, args, world);
    }

    /** The stages behind the read-only gate: policy and dry-run, then approval and execution. */
    method CheckAndRun(sp: SessionPolicy, t: Tool, args: string, world: World) returns (reply: Reply)
      modifies `trace
      ensures reply == AfterAdmissionReply(cfg, sp, t, args, world)
      ensures trace == old(trace) + AfterAdmission(cfg, sp, t, args, world)
    {
      hide FinalReply, Judgement, ApprovalEvents, EndEvents;
      var pd := NO_DECISION.(allow := true);
      if cfg.policy.Some? {
        var checked := cfg.policy.value(t, args);
        if checked.Err? { return Refused(PolicyFailed); }
        pd := checked.value;
        trace := trace + [Checked(t, args, pd)];
        if !pd.allow {
          Record(sp, t, args, "", "", "denied", pd.reason);
          return Refused(Denied(pd.reason));
        }
      }
      var diff := "";
      if Mutating(t) && sp.dryRunFirst {
        if world.dryRun.error.Some? { return Refused(DryRunFailed); }
        diff := world.dryRun.result.diff;
        trace := trace + [DryRan(t, args, diff)];
      }
      assert trace == old(trace) + (CheckEvents(cfg, t, args, pd) + DryRunEvents(sp, t, args, world));
      reply := ApproveAndExecute(sp, t, args, pd, diff, world);
    }

    /** The last stages of a dispatch: the approval when one is needed, then the real execution. */
    method ApproveAndExecute(sp: SessionPolicy, t: Tool, args: string, pd: PolicyDecision, diff: string, world: World)
      returns (reply: Reply)
      requires diff == Diff(sp, t, world)
      modifies `trace
      ensures trace == old(trace) + ApprovalEvents(cfg, sp, t, args, pd, world) + EndEvents(cfg, sp, t, args, pd, world)
      ensures reply == FinalReply(cfg, world, Judgement(cfg, sp, t, args, pd, world))
    {
      hide Approve, Consults, Scrubbed;
      var approver := "n/a";
      var needApproval := Mutating(t) && (sp.mode != "apply" || pd.requireApproval);
      if needApproval {
        if cfg.approver == None { return Refused(NotApproved); }
        var req := ApprovalRequest(t.name, sp.cluster, args, diff, t.risk, pd.blastRadius);
        if Consults(cfg.approver.value, req) {
          trace := trace + [Answered(req, world.answer)];
        }
        var verdict := Approve(cfg.approver.value, req, world.answer);
        trace := trace + [Decided(req, verdict)];
        assert trace == old(trace) + ApprovalEvents(cfg, sp, t, args, pd, world);
        if verdict.Fails? { return Refused(verdict.error); }
        if !verdict.ok {
          Record(sp, t, args, diff, verdict.who, "rejected", "user rejected");
          return Refused(NotApproved);
        }
        approver := verdict.who;
      }
      assert trace == old(trace) + ApprovalEvents(cfg, sp, t, args, pd, world);
      trace := trace + [Executed(sp, t, args, world.live.error == None)];
      var status := "ok";
      if world.live.error.Some? {
        status := "error";
      }
      var res := Scrubbed(cfg, world.live.result);
      Record(sp, t, args, diff, approver, status, res.summary);
      return Reply(res, if world.live.error == None then None else Some(ToolFailed(world.live.error.value)));
    }

    /** The tools advertised to the model, in name order. */
    method Declarations(sp: SessionPolicy) returns (out: seq<string>)
      requires Valid()
      ensures forall n :: n in out <==> n in tools && Offered(sp, tools[n])
      ensures forall i, j :: 0 <= i < j < |out| ==> Text.Less(out[i], out[j])
    {
      out := [];
      var todo := tools.Keys;
      while todo != {}
        invariant todo <= tools.Keys
        invariant forall n :: n in out <==> n in tools && n !in todo && Offered(sp, tools[n])
        invariant forall i, j :: 0 <= i < j < |out| ==> out[i] != out[j]
        decreases todo
      {
        var name :| name in todo;
        todo := todo - {name};
        if !Enabled(sp, name) { continue; }
        if sp.mode == "read-only" && Mutating(tools[name]) { continue; }
        out := out + [name];
      }
      ByNameSorts(out);
      out := ByName(out);
    }
  }

  // ----- what one dispatch does -----

  function Log(cfg: Config, sp: SessionPolicy, t: Tool, args: string, diff: string, approver: string, status: string, summary: string): seq<Event> {
    if cfg.audited then [Audited(Entry(sp, t, args, diff, approver, status, summary))] else []
  }

  /** The gates before the policy, in the order in which they refuse. */
  function Admission(tools: map<string, Tool>, sp: SessionPolicy, name: string, argsValid: bool): Option<DispatchError> {
    if name !in tools then Some(UnknownTool)
    else if !Enabled(sp, name) then Some(NotEnabled)
    else if !argsValid then Some(InvalidArgs)
    else if Mutating(tools[name]) && sp.mode == "read-only" then Some(ReadOnly)
    else None
  }

  function Decision(cfg: Config, t: Tool, args: string): Result<PolicyDecision, string> {
    if cfg.policy == None then Ok(NO_DECISION.(allow := true)) else cfg.policy.value(t, args)
  }

  predicate NeedsApproval(sp: SessionPolicy, t: Tool, pd: PolicyDecision) {
    Mutating(t) && (sp.mode != "apply" || pd.requireApproval)
  }

  predicate DryRuns(sp: SessionPolicy, t: Tool) {
    Mutating(t) && sp.dryRunFirst
  }

  function Diff(sp: SessionPolicy, t: Tool, w: World): string {
    if DryRuns(sp, t) then w.dryRun.result.diff else ""
  }

  function Request(sp: SessionPolicy, t: Tool, args: string, pd: PolicyDecision, w: World): ApprovalRequest {
    ApprovalRequest(t.name, sp.cluster, args, Diff(sp, t, w), t.risk, pd.blastRadius)
  }

  /** The verdict on an admitted and allowed call; no approval needed reads as a yes by "n/a". */
  function Judgement(cfg: Config, sp: SessionPolicy, t: Tool, args: string, pd: PolicyDecision, w: World): Verdict {
    if !NeedsApproval(sp, t, pd) then Says(true, "n/a")
    else if cfg.approver == None then Fails(NotApproved)
    else Approve(cfg.approver.value, Request(sp, t, args, pd, w), w.answer)
  }

  function FinalReply(cfg: Config, w: World, verdict: Verdict): Reply {
    match verdict
    case Fails(e) => Refused(e)
    case Says(false, _) => Refused(NotApproved)
    case Says(true, _) => Reply(Scrubbed(cfg, w.live.result),
                                if w.live.error == None then None else Some(ToolFailed(w.live.error.value)))
  }

  function AfterAdmissionReply(cfg: Config, sp: SessionPolicy, t: Tool, args: string, w: World): Reply {
    var d := Decision(cfg, t, args);
    if d.Err? then Refused(PolicyFailed)
    else if !d.value.allow then Refused(Denied(d.value.reason))
    else if DryRuns(sp, t) && w.dryRun.error.Some? then Refused(DryRunFailed)
    else FinalReply(cfg, w, Judgement(cfg, sp, t, args, d.value, w))
  }

  function EpisodeReply(cfg: Config, tools: map<string, Tool>, sp: SessionPolicy, name: string, args: string, w: World): Reply {
    var refusal := Admission(tools, sp, name, w.argsValid);
    if refusal.Some? then Refused(refusal.value) else AfterAdmissionReply(cfg, sp, tools[name], args, w)
  }

  function CheckEvents(cfg: Config, t: Tool, args: string, pd: PolicyDecision): seq<Event> {
    if cfg.policy == None then [] else [Checked(t, args, pd)]
  }

  function DryRunEvents(sp: SessionPolicy, t: Tool, args: string, w: World): seq<Event> {
    if DryRuns(sp, t) then [DryRan(t, args, w.dryRun.result.diff)] else []
  }

  function ApprovalEvents(cfg: Config, sp: SessionPolicy, t: Tool, args: string, pd: PolicyDecision, w: World): seq<Event> {
    if !NeedsApproval(sp, t, pd) || cfg.approver == None then []
    else
      var req := Request(sp, t, args, pd, w);
      (if Consults(cfg.approver.value, req) then [Answered(req, w.answer)] else [])
      + [Decided(req, Judgement(cfg, sp, t, args, pd, w))]
  }

  function EndEvents(cfg: Config, sp: SessionPolicy, t: Tool, args: string, pd: PolicyDecision, w: World): seq<Event> {
    match Judgement(cfg, sp, t, args, pd, w)
    case Fails(_) => []
    case Says(false, who) => Log(cfg, sp, t, args, Diff(sp, t, w), who, "rejected", "user rejected")
    case Says(true, who) =>
      [Executed(sp, t, args, w.live.error == None)]
      + Log(cfg, sp, t, args, Diff(sp, t, w), who, if w.live.error == None then "ok" else "error",
            Scrubbed(cfg, w.live.result).summary)
  }

  /** Everything before the execution of an allowed call. */
  function Lead(cfg: Config, sp: SessionPolicy, t: Tool, args: string, pd: PolicyDecision, w: World): seq<Event> {
    CheckEvents(cfg, t, args, pd) + DryRunEvents(sp, t, args, w) + ApprovalEvents(cfg, sp, t, args, pd, w)
  }

  function AfterAdmission(cfg: Config, sp: SessionPolicy, t: Tool, args: string, w: World): seq<Event> {
    var d := Decision(cfg, t, args);
    if d.Err? then []
    else if !d.value.allow then CheckEvents(cfg, t, args, d.value) + Log(cfg, sp, t, args, "", "", "denied", d.value.reason)
    else if DryRuns(sp, t) && w.dryRun.error.Some? then CheckEvents(cfg, t, args, d.value)
    else Lead(cfg, sp, t, args, d.value, w) + EndEvents(cfg, sp, t, args, d.value, w)
  }

  function Episode(cfg: Config, tools: map<string, Tool>, sp: SessionPolicy, name: string, args: string, w: World): seq<Event> {
    if Admission(tools, sp, name, w.argsValid).Some? then [] else AfterAdmission(cfg, sp, tools[name], args, w)
  }

  // ----- declarations -----

  predicate Offered(sp: SessionPolicy, t: Tool) {
    Enabled(sp, t.name) && !(sp.mode == "read-only" && Mutating(t))
  }

  function ByName(names: seq<string>): seq<string> {
    Sort((a: string, b: string) => Text.Less(a, b), names)
  }

  lemma NameOrder()
    ensures StrictWeakOrder((a: string, b: string) => Text.Less(a, b))
  {
    forall x, y ensures Text.Less(x, y) ==> !Text.Less(y, x) { Text.LessTotal(x, y); }
    forall x, y, z | Text.Less(x, y) && Text.Less(y, z) ensures Text.Less(x, z) { Text.LessTransitive(x, y, z); }
    forall x, y, z | !Text.Less(x, y) && !Text.Less(y, z) ensures !Text.Less(x, z) {
      Text.LessTotal(x, y);
      Text.LessTotal(y, z);
      if Text.Less(x, z) && y != x {
        Text.LessTransitive(y, x, z);
      }
    }
  }

  lemma ByNameSorts(names: seq<string>)
    requires forall i, j :: 0 <= i < j < |names| ==> names[i] != names[j]
    ensures forall n :: n in ByName(names) <==> n in names
    ensures forall i, j :: 0 <= i < j < |ByName(names)| ==> Text.Less(ByName(names)[i], ByName(names)[j])
  {
    var less := (a: string, b: string) => Text.Less(a, b);
    var r := ByName(names);
    NameOrder();
    SortPermutes(less, names);
    SortSorts(less, names);
    assert forall n :: n in r <==> n in multiset(r);
    assert forall n :: n in names <==> n in multiset(names);
    forall i, j | 0 <= i < j < |r| ensures Text.Less(r[i], r[j]) {
      assert !less(r[j], r[i]);
      Text.LessTotal(r[i], r[j]);
      if r[i] == r[j] {
        TwiceInMultiset(r, i, j);
        OnceInMultiset(names, r[i]);
      }
    }
  }

  lemma TwiceInMultiset(s: seq<string>, i: nat, j: nat)
    requires i < j < |s| && s[i] == s[j]
    ensures multiset(s)[s[i]] >= 2
  {
    assert s == s[..i] + [s[i]] + s[i + 1..j] + [s[j]] + s[j + 1..];
  }

  lemma {:induction false} OnceInMultiset(s: seq<string>, x: string)
    requires forall i, j :: 0 <= i < j < |s| ==> s[i] != s[j]
    ensures multiset(s)[x] <= 1
  {
    if s != [] {
      assert s == [s[0]] + s[1..];
      OnceInMultiset(s[1..], x);
      assert s[0] !in s[1..];
    }
  }

  /** A tool is advertised exactly when a call of it with valid arguments passes all gates before the policy. */
  lemma OfferedIffAdmitted(cfg: Config, tools: map<string, Tool>, sp: SessionPolicy, name: string, args: string, w: World)
    requires name in tools && tools[name].name == name
    ensures Offered(sp, tools[name]) <==> Admission(tools, sp, name, true) == None
    ensures !Offered(sp, tools[name]) ==> Episode(cfg, tools, sp, name, args, w) == []
  {}

  function IsExecution(): Event -> bool {
    (e: Event) => e.Executed?
  }

  /**
   One dispatch executes the tool for real at most once, with the given arguments, and its reply carries
   no error exactly when it did and the tool succeeded.
   */
  lemma ReplyTellsTheOutcome(cfg: Config, tools: map<string, Tool>, sp: SessionPolicy, name: string, args: string, w: World)
    ensures var executions := Filter(IsExecution(), Episode(cfg, tools, sp, name, args, w));
      && |executions| <= 1
      && (EpisodeReply(cfg, tools, sp, name, args, w).error == None <==>
            name in tools && executions == [Executed(sp, tools[name], args, true)])
      && (executions != [] ==> name in tools && executions == [Executed(sp, tools[name], args, w.live.error == None)])
  {
    hide AfterAdmission, AfterAdmissionReply;
    if Admission(tools, sp, name, w.argsValid) == None {
      OutcomeAfterAdmission(cfg, sp, tools[name], args, w);
    }
  }

  lemma OutcomeAfterAdmission(cfg: Config, sp: SessionPolicy, t: Tool, args: string, w: World)
    ensures var executions := Filter(IsExecution(), AfterAdmission(cfg, sp, t, args, w));
      && (AfterAdmissionReply(cfg, sp, t, args, w).error == None ==> executions == [Executed(sp, t, args, true)])
      && (executions == [] || executions == [Executed(sp, t, args, w.live.error == None)])
      && (executions == [Executed(sp, t, args, true)] ==> AfterAdmissionReply(cfg, sp, t, args, w).error == None)
  {
    var d := Decision(cfg, t, args);
    hide Lead, EndEvents, Judgement, FinalReply, Filter;
    if d.Ok? && d.value.allow && !(DryRuns(sp, t) && w.dryRun.error.Some?) {
      AllowedExecution(cfg, sp, t, args, d.value, w);
      ReplyOfVerdict(cfg, w, Judgement(cfg, sp, t, args, d.value, w));
    } else {
      assert forall e: Event :: e in AfterAdmission(cfg, sp, t, args, w) ==> !e.Executed?;
      NoneFiltered(AfterAdmission(cfg, sp, t, args, w));
    }
  }

  lemma ReplyOfVerdict(cfg: Config, w: World, verdict: Verdict)
    ensures FinalReply(cfg, w, verdict).error == None <==> verdict.Says? && verdict.ok && w.live.error == None
  {}

  lemma AllowedExecution(cfg: Config, sp: SessionPolicy, t: Tool, args: string, pd: PolicyDecision, w: World)
    ensures var verdict := Judgement(cfg, sp, t, args, pd, w);
      Filter(IsExecution(), Lead(cfg, sp, t, args, pd, w) + EndEvents(cfg, sp, t, args, pd, w))
      == if verdict.Says? && verdict.ok then [Executed(sp, t, args, w.live.error == None)] else []
  {
    var lead, end := Lead(cfg, sp, t, args, pd, w), EndEvents(cfg, sp, t, args, pd, w);
    assert forall e: Event :: e in lead ==> !e.Executed?;
    EndsWithExecution(cfg, sp, t, args, pd, w);
    hide Lead, EndEvents, Judgement, Filter;
    FilterConcat(IsExecution(), lead, end);
    NoneFiltered(lead);
    var verdict := Judgement(cfg, sp, t, args, pd, w);
    if verdict.Says? && verdict.ok {
      FilterCons(IsExecution(), end[0], end[1..]);
      NoneFiltered(end[1..]);
      assert end == [end[0]] + end[1..];
    } else {
      NoneFiltered(end);
    }
  }

  lemma {:induction false} NoneFiltered(es: seq<Event>)
    requires forall e :: e in es ==> !e.Executed?
    ensures Filter(IsExecution(), es) == []
  {
    if es != [] {
      NoneFiltered(es[1..]);
    }
  }

  // ----- the gate -----

  /** A yes to this tool and these arguments. */
  predicate YesTo(e: Event, sp: SessionPolicy, t: Tool, args: string) {
    && e.Decided? && e.verdict.Says? && e.verdict.ok
    && e.req.tool == t.name && e.req.args == args && e.req.cluster == sp.cluster && e.req.risk == t.risk
  }

  /**
   The very last event is a yes to this tool and these arguments; before it, but for a person's answer to
   the same request, stands the dry-run whose diff it was shown.
   */
  predicate FreshYes(before: seq<Event>, sp: SessionPolicy, t: Tool, args: string) {
    var n := |before|;
    && n > 0 && YesTo(before[n - 1], sp, t, args)
    && var req := before[n - 1].req;
       if sp.dryRunFirst then
         || (n > 1 && before[n - 2] == DryRan(t, args, req.diff))
         || (n > 2 && before[n - 2].Answered? && before[n - 2].req == req && before[n - 3] == DryRan(t, args, req.diff))
       else req.diff == ""
  }

  /** What must precede a real execution of a mutating tool. */
  predicate Cleared(policy: Option<PolicyCheck>, before: seq<Event>, sp: SessionPolicy, t: Tool, args: string) {
    && (sp.enabled == [] || t.name in sp.enabled)
    && sp.mode != "read-only"
    && (policy.Some? ==> policy.value(t, args).Ok? && policy.value(t, args).value.allow)
    && ((sp.mode == "apply" && (policy.Some? ==> !policy.value(t, args).value.requireApproval))
        || FreshYes(before, sp, t, args))
  }

  /** Every real execution of a mutating tool in the trace was cleared by what precedes it. */
  predicate Gated(policy: Option<PolicyCheck>, tr: seq<Event>) {
    forall i :: 0 <= i < |tr| && tr[i].Executed? && tr[i].tool.risk != Read ==>
      Cleared(policy, tr[..i], tr[i].sp, tr[i].tool, tr[i].args)
  }

  lemma GatedOneMore(policy: Option<PolicyCheck>, tr: seq<Event>, e: Event)
    requires Gated(policy, tr)
    requires e.Executed? && Mutating(e.tool) ==> Cleared(policy, tr, e.sp, e.tool, e.args)
    ensures Gated(policy, tr + [e])
  {
    var longer := tr + [e];
    hide Cleared;
    forall i | 0 <= i < |longer| && longer[i].Executed? && Mutating(longer[i].tool)
      ensures Cleared(policy, longer[..i], longer[i].sp, longer[i].tool, longer[i].args)
    {
      assert longer[..i] == tr[..i];
      if i == |tr| { assert tr[..i] == tr; }
    }
  }

  /** Events other than executions keep the gate. */
  lemma {:induction false} Quiet(policy: Option<PolicyCheck>, tr: seq<Event>, es: seq<Event>)
    requires Gated(policy, tr) && forall e :: e in es ==> !e.Executed?
    ensures Gated(policy, tr + es)
  {
    if es == [] {
      assert tr + es == tr;
    } else {
      var init, e := es[..|es| - 1], es[|es| - 1];
      assert tr + es == (tr + init) + [e];
      assert (tr + es)[..|tr + es| - 1] == tr + init;
      assert e in es;
      hide Gated;
      Quiet(policy, tr, init);
      GatedOneMore(policy, tr + init, e);
    }
  }

  lemma EpisodeIsGated(cfg: Config, tools: map<string, Tool>, sp: SessionPolicy, name: string, args: string, w: World, tr: seq<Event>)
    requires Gated(cfg.policy, tr) && (name in tools ==> tools[name].name == name)
    ensures Gated(cfg.policy, tr + Episode(cfg, tools, sp, name, args, w))
  {
    hide AfterAdmission, Gated;
    if Admission(tools, sp, name, w.argsValid) == None {
      AfterAdmissionIsGated(cfg, sp, tools[name], args, w, tr);
    } else {
      assert tr + [] == tr;
    }
  }

  lemma AfterAdmissionIsGated(cfg: Config, sp: SessionPolicy, t: Tool, args: string, w: World, tr: seq<Event>)
    requires Gated(cfg.policy, tr) && (Mutating(t) ==> Enabled(sp, t.name) && sp.mode != "read-only")
    ensures Gated(cfg.policy, tr + AfterAdmission(cfg, sp, t, args, w))
  {
    var d := Decision(cfg, t, args);
    var ep := AfterAdmission(cfg, sp, t, args, w);
    if d.Ok? && d.value.allow && !(DryRuns(sp, t) && w.dryRun.error.Some?) {
      var pd := d.value;
      var lead, end := Lead(cfg, sp, t, args, pd, w), EndEvents(cfg, sp, t, args, pd, w);
      var verdict := Judgement(cfg, sp, t, args, pd, w);
      assert forall e: Event :: e in lead ==> !e.Executed?;
      if Mutating(t) && verdict.Says? && verdict.ok {
        ClearedAfterLead(cfg, sp, t, args, pd, w, tr);
      }
      EndsWithExecution(cfg, sp, t, args, pd, w);
      hide *;
      assert tr + (lead + end) == tr + lead + end;
      Quiet(cfg.policy, tr, lead);
      if verdict.Says? && verdict.ok {
        assert tr + lead + end == tr + lead + [end[0]] + end[1..];
        GatedOneMore(cfg.policy, tr + lead, end[0]);
        Quiet(cfg.policy, tr + lead + [end[0]], end[1..]);
      } else {
        Quiet(cfg.policy, tr + lead, end);
      }
    } else {
      assert forall e: Event :: e in ep ==> !e.Executed?;
      hide *;
      Quiet(cfg.policy, tr, ep);
    }
  }

  lemma EndsWithExecution(cfg: Config, sp: SessionPolicy, t: Tool, args: string, pd: PolicyDecision, w: World)
    ensures var verdict, end := Judgement(cfg, sp, t, args, pd, w), EndEvents(cfg, sp, t, args, pd, w);
      if verdict.Says? && verdict.ok then
        end != [] && end[0] == Executed(sp, t, args, w.live.error == None) && forall e :: e in end[1..] ==> e.Audited?
      else forall e :: e in end ==> e.Audited?
  {}

  /** Before an allowed execution the trace clears it. */
  lemma ClearedAfterLead(cfg: Config, sp: SessionPolicy, t: Tool, args: string, pd: PolicyDecision, w: World, tr: seq<Event>)
    requires Mutating(t) && Enabled(sp, t.name) && sp.mode != "read-only"
    requires Decision(cfg, t, args) == Ok(pd) && pd.allow
    requires Judgement(cfg, sp, t, args, pd, w).Says? && Judgement(cfg, sp, t, args, pd, w).ok
    ensures Cleared(cfg.policy, tr + Lead(cfg, sp, t, args, pd, w), sp, t, args)
  {
    if NeedsApproval(sp, t, pd) {
      var lead := Lead(cfg, sp, t, args, pd, w);
      LeadEndsWithYes(cfg, sp, t, args, pd, w);
      hide *;
      FreshBehind(tr, lead, sp, t, args);
    }
  }

  lemma FreshBehind(tr: seq<Event>, lead: seq<Event>, sp: SessionPolicy, t: Tool, args: string)
    requires FreshYes(lead, sp, t, args)
    ensures FreshYes(tr + lead, sp, t, args)
  {
    var before, n, m := tr + lead, |tr + lead|, |lead|;
    assert before[n - 1] == lead[m - 1];
    assert m > 1 ==> before[n - 2] == lead[m - 2];
    assert m > 2 ==> before[n - 3] == lead[m - 3];
  }

  lemma LeadEndsWithYes(cfg: Config, sp: SessionPolicy, t: Tool, args: string, pd: PolicyDecision, w: World)
    requires NeedsApproval(sp, t, pd)
    requires Judgement(cfg, sp, t, args, pd, w).Says? && Judgement(cfg, sp, t, args, pd, w).ok
    ensures FreshYes(Lead(cfg, sp, t, args, pd, w), sp, t, args)
  {
    var req, verdict := Request(sp, t, args, pd, w), Judgement(cfg, sp, t, args, pd, w);
    var first, appr := CheckEvents(cfg, t, args, pd) + DryRunEvents(sp, t, args, w), ApprovalEvents(cfg, sp, t, args, pd, w);
    assert appr == [Decided(req, verdict)] || appr == [Answered(req, w.answer), Decided(req, verdict)];
    assert DryRuns(sp, t) ==> first != [] && first[|first| - 1] == DryRan(t, args, req.diff);
    assert Lead(cfg, sp, t, args, pd, w) == first + appr;
    hide Lead, CheckEvents, DryRunEvents, ApprovalEvents, Judgement, Approve, Consults;
  }

  // ----- one yes for each execution -----

  /** A real execution of a mutating tool that apply mode does not free from approval. */
  predicate NeedsYes(policy: Option<PolicyCheck>, e: Event) {
    && e.Executed? && e.tool.risk != Read
    && !(e.sp.mode == "apply"
         && (policy.Some? ==> policy.value(e.tool, e.args).Ok? && !policy.value(e.tool, e.args).value.requireApproval))
  }

  predicate IsYes(e: Event) {
    e.Decided? && e.verdict.Says? && e.verdict.ok
  }

  function Needed(policy: Option<PolicyCheck>, tr: seq<Event>): nat {
    if tr == [] then 0 else Needed(policy, tr[..|tr| - 1]) + (if NeedsYes(policy, tr[|tr| - 1]) then 1 else 0)
  }

  function Given(tr: seq<Event>): nat {
    if tr == [] then 0 else Given(tr[..|tr| - 1]) + (if IsYes(tr[|tr| - 1]) then 1 else 0)
  }

  /** In every gated trace, at every moment, each execution that needs approval has used up a yes of its own. */
  lemma {:induction false} EachExecutionHasItsYes(policy: Option<PolicyCheck>, tr: seq<Event>)
    requires Gated(policy, tr)
    ensures Needed(policy, tr) + (if tr != [] && IsYes(tr[|tr| - 1]) then 1 else 0) <= Given(tr)
  {
    if tr != [] {
      var n := |tr| - 1;
      GatedPrefix(policy, tr);
      EachExecutionHasItsYes(policy, tr[..n]);
      if NeedsYes(policy, tr[n]) {
        assert Cleared(policy, tr[..n], tr[n].sp, tr[n].tool, tr[n].args);
      }
    }
  }

  lemma GatedPrefix(policy: Option<PolicyCheck>, tr: seq<Event>)
    requires Gated(policy, tr) && tr != []
    ensures Gated(policy, tr[..|tr| - 1])
  {
    var init := tr[..|tr| - 1];
    hide Cleared;
    forall i | 0 <= i < |init| && init[i].Executed? && Mutating(init[i].tool)
      ensures Cleared(policy, init[..i], init[i].sp, init[i].tool, init[i].args)
    {
      assert init[..i] == tr[..i] && init[i] == tr[i];
    }
  }

  // ----- accounting -----

  datatype Attempt = Attempt(tool: string, args: string, status: string)

  /** The attempt that an event completes: a denial, a rejection, or an execution. */
  function AttemptOf(e: Event): seq<Attempt> {
    match e
    case Checked(t, args, pd) => if pd.allow then [] else [Attempt(t.name, args, "denied")]
    case Decided(req, Says(false, _)) => [Attempt(req.tool, req.args, "rejected")]
    case Executed(_, t, args, ok) => [Attempt(t.name, args, if ok then "ok" else "error")]
    case _ => []
  }

  function AuditOf(e: Event): seq<Attempt> {
    if e.Audited? then [Attempt(e.entry.tool, e.entry.args, e.entry.status)] else []
  }

  function Attempts(tr: seq<Event>): seq<Attempt> {
    if tr == [] then [] else AttemptOf(tr[0]) + Attempts(tr[1..])
  }

  function Audits(tr: seq<Event>): seq<Attempt> {
    if tr == [] then [] else AuditOf(tr[0]) + Audits(tr[1..])
  }

  lemma {:induction false} AttemptsConcat(a: seq<Event>, b: seq<Event>)
    ensures Attempts(a + b) == Attempts(a) + Attempts(b)
    ensures Audits(a + b) == Audits(a) + Audits(b)
  {
    hide AttemptOf, AuditOf;
    if a == [] {
      assert a + b == b;
    } else {
      assert (a + b)[1..] == a[1..] + b && (a + b)[0] == a[0];
      AttemptsConcat(a[1..], b);
      assert Attempts(a + b) == AttemptOf(a[0]) + (Attempts(a[1..]) + Attempts(b));
      assert Audits(a + b) == AuditOf(a[0]) + (Audits(a[1..]) + Audits(b));
    }
  }

  /** One dispatch audits exactly the attempt that it completes, with its status; nothing without a sink. */
  lemma EpisodeIsAccounted(cfg: Config, tools: map<string, Tool>, sp: SessionPolicy, name: string, args: string, w: World)
    requires name in tools ==> tools[name].name == name
    ensures var ep := Episode(cfg, tools, sp, name, args, w);
      Audits(ep) == (if cfg.audited then Attempts(ep) else [])
  {
    hide AfterAdmission, Attempts, Audits;
    assert Attempts([]) == [] && Audits([]) == [] by { AttemptsOfNothing(); }
    if Admission(tools, sp, name, w.argsValid) == None {
      AfterAdmissionIsAccounted(cfg, sp, tools[name], args, w);
    }
  }

  lemma AttemptsOfNothing()
    ensures Attempts([]) == [] && Audits([]) == []
  {}

  lemma AttemptsOfOne(e: Event)
    ensures Attempts([e]) == AttemptOf(e) && Audits([e]) == AuditOf(e)
  {}

  lemma AfterAdmissionIsAccounted(cfg: Config, sp: SessionPolicy, t: Tool, args: string, w: World)
    ensures var ep := AfterAdmission(cfg, sp, t, args, w);
      Audits(ep) == if cfg.audited then Attempts(ep) else []
  {
    var d := Decision(cfg, t, args);
    AttemptsOfNothing();
    hide Attempts, Audits, CheckEvents, Log, Lead, EndEvents;
    if d.Ok? {
      CheckIsAccounted(cfg, t, args, d.value);
      if !d.value.allow {
        DenialIsAccounted(cfg, sp, t, args, d.value);
      } else {
        AllowedIsAccounted(cfg, sp, t, args, d.value, w);
      }
    }
  }

  lemma DenialIsAccounted(cfg: Config, sp: SessionPolicy, t: Tool, args: string, pd: PolicyDecision)
    requires !pd.allow && cfg.policy.Some?
    ensures var ep := CheckEvents(cfg, t, args, pd) + Log(cfg, sp, t, args, "", "", "denied", pd.reason);
      Audits(ep) == if cfg.audited then Attempts(ep) else []
  {
    CheckIsAccounted(cfg, t, args, pd);
    AttemptsOfNothing();
    AttemptsOfOne(Audited(Entry(sp, t, args, "", "", "denied", pd.reason)));
    AttemptsConcat(CheckEvents(cfg, t, args, pd), Log(cfg, sp, t, args, "", "", "denied", pd.reason));
    hide Attempts, Audits, CheckEvents;
  }

  lemma AllowedIsAccounted(cfg: Config, sp: SessionPolicy, t: Tool, args: string, pd: PolicyDecision, w: World)
    requires pd.allow
    ensures var ep := Lead(cfg, sp, t, args, pd, w) + EndEvents(cfg, sp, t, args, pd, w);
      Audits(ep) == if cfg.audited then Attempts(ep) else []
  {
    var check, dry := CheckEvents(cfg, t, args, pd), DryRunEvents(sp, t, args, w);
    var appr, end := ApprovalEvents(cfg, sp, t, args, pd, w), EndEvents(cfg, sp, t, args, pd, w);
    CheckIsAccounted(cfg, t, args, pd);
    DryRunIsNoAttempt(sp, t, args, w);
    EndIsAccounted(cfg, sp, t, args, pd, w);
    assert Lead(cfg, sp, t, args, pd, w) == check + dry + appr;
    hide *;
    AttemptsConcat(check, dry);
    AttemptsConcat(check + dry, appr);
    assert Attempts(check + dry + appr) == Attempts(appr) && Audits(check + dry + appr) == [];
    AttemptsConcat(check + dry + appr, end);
  }

  lemma DryRunIsNoAttempt(sp: SessionPolicy, t: Tool, args: string, w: World)
    ensures Attempts(DryRunEvents(sp, t, args, w)) == [] && Audits(DryRunEvents(sp, t, args, w)) == []
  {
    AttemptsOfNothing();
    AttemptsOfOne(DryRan(t, args, w.dryRun.result.diff));
  }

  lemma CheckIsAccounted(cfg: Config, t: Tool, args: string, pd: PolicyDecision)
    requires cfg.policy == None ==> pd.allow
    ensures var check := CheckEvents(cfg, t, args, pd);
      && Audits(check) == []
      && Attempts(check) == if pd.allow then [] else [Attempt(t.name, args, "denied")]
  {
    AttemptsOfNothing();
    AttemptsOfOne(Checked(t, args, pd));
  }

  lemma EndIsAccounted(cfg: Config, sp: SessionPolicy, t: Tool, args: string, pd: PolicyDecision, w: World)
    ensures var appr, end := ApprovalEvents(cfg, sp, t, args, pd, w), EndEvents(cfg, sp, t, args, pd, w);
      Audits(appr) == [] && Audits(end) == if cfg.audited then Attempts(appr) + Attempts(end) else []
  {
    var appr, end := ApprovalEvents(cfg, sp, t, args, pd, w), EndEvents(cfg, sp, t, args, pd, w);
    var verdict := Judgement(cfg, sp, t, args, pd, w);
    ApprovalIsAccounted(cfg, sp, t, args, pd, w);
    AttemptsOfNothing();
    hide Judgement, ApprovalEvents, Attempts, Audits;
    if verdict.Says? && end != [] {
      AttemptsOfOne(end[0]);
      AttemptsOfOne(end[|end| - 1]);
      AttemptsConcat([end[0]], end[1..]);
      assert end == [end[0]] + end[1..];
    }
  }

  /** The approval stage completes an attempt exactly when someone says no. */
  lemma ApprovalIsAccounted(cfg: Config, sp: SessionPolicy, t: Tool, args: string, pd: PolicyDecision, w: World)
    ensures var appr, verdict := ApprovalEvents(cfg, sp, t, args, pd, w), Judgement(cfg, sp, t, args, pd, w);
      && Audits(appr) == []
      && Attempts(appr) == if verdict.Says? && !verdict.ok then [Attempt(t.name, args, "rejected")] else []
  {
    var appr, verdict := ApprovalEvents(cfg, sp, t, args, pd, w), Judgement(cfg, sp, t, args, pd, w);
    AttemptsOfNothing();
    if NeedsApproval(sp, t, pd) && cfg.approver.Some? {
      var req := Request(sp, t, args, pd, w);
      var answered, decided := Answered(req, w.answer), Decided(req, verdict);
      assert appr == [decided] || appr == [answered] + [decided];
      hide Judgement, ApprovalEvents, Attempts, Audits;
      AttemptsOfOne(answered);
      AttemptsOfOne(decided);
      AttemptsConcat([answered], [decided]);
    }
  }

  // ----- whole runs -----

  datatype Call = Call(sp: SessionPolicy, name: string, args: string, world: World)

  function RunTrace(cfg: Config, tools: map<string, Tool>, calls: seq<Call>): seq<Event> {
    if calls == [] then []
    else
      var c := calls[|calls| - 1];
      RunTrace(cfg, tools, calls[..|calls| - 1]) + Episode(cfg, tools, c.sp, c.name, c.args, c.world)
  }

  lemma TraceOneMore(cfg: Config, tools: map<string, Tool>, calls: seq<Call>, c: Call)
    ensures RunTrace(cfg, tools, calls + [c])
         == RunTrace(cfg, tools, calls) + Episode(cfg, tools, c.sp, c.name, c.args, c.world)
  {
    assert (calls + [c])[..|calls|] == calls;
  }

  lemma {:induction false} TraceConcat(cfg: Config, tools: map<string, Tool>, a: seq<Call>, b: seq<Call>)
    ensures RunTrace(cfg, tools, a + b) == RunTrace(cfg, tools, a) + RunTrace(cfg, tools, b)
  {
    hide Episode;
    if b == [] {
      assert a + b == a;
    } else {
      var n := |b| - 1;
      assert (a + b)[..|a| + n] == a + b[..n];
      TraceConcat(cfg, tools, a, b[..n]);
    }
  }

  /** Whatever the model asks for, in any order and under any answers of the world. */
  lemma {:induction false} EveryRunIsGatedAndAccounted(cfg: Config, tools: map<string, Tool>, calls: seq<Call>)
    requires forall n :: n in tools ==> tools[n].name == n
    ensures Gated(cfg.policy, RunTrace(cfg, tools, calls))
    ensures Needed(cfg.policy, RunTrace(cfg, tools, calls)) <= Given(RunTrace(cfg, tools, calls))
    ensures Audits(RunTrace(cfg, tools, calls)) == if cfg.audited then Attempts(RunTrace(cfg, tools, calls)) else []
  {
    if calls != [] {
      var c, init := calls[|calls| - 1], calls[..|calls| - 1];
      EveryRunIsGatedAndAccounted(cfg, tools, init);
      EpisodeIsGated(cfg, tools, c.sp, c.name, c.args, c.world, RunTrace(cfg, tools, init));
      EpisodeIsAccounted(cfg, tools, c.sp, c.name, c.args, c.world);
      AttemptsConcat(RunTrace(cfg, tools, init), Episode(cfg, tools, c.sp, c.name, c.args, c.world));
    }
    hide Episode, Gated, IsYes;
    EachExecutionHasItsYes(cfg.policy, RunTrace(cfg, tools, calls));
  }

  // ----- the shipped policy -----

  function AsCheck(p: Policy): PolicyCheck {
    (t: Tool, args: string) => p.Check(t, args)
  }

  /**
   With the shipped policy no rule-based approver and no mode lets a destructive or cluster-wide mutation
   through without a person's yes to that very request, and protected namespaces are never mutated.
   */
  lemma RiskyNeedsAPerson(p: Policy, cfg: Config, tools: map<string, Tool>, sp: SessionPolicy, name: string, args: string, w: World, ok: bool)
    requires cfg.policy == Some(AsCheck(p))
    requires name in tools && Mutating(tools[name])
    requires Executed(sp, tools[name], args, ok) in Episode(cfg, tools, sp, name, args, w)
    ensures p.namespaceOf(args) == "" || p.namespaceOf(args) !in p.denyNamespaces
    ensures tools[name].risk == Destructive || (p.namespaceOf(args) == "" && p.clusterWideRequiresApproval) ==>
      exists req :: Answered(req, w.answer) in Episode(cfg, tools, sp, name, args, w) && w.answer.Says? && w.answer.ok
                    && req.args == args && req.tool == tools[name].name && req.diff == Diff(sp, tools[name], w)
  {
    var t := tools[name];
    var pd := p.Check(t, args).value;
    if t.risk == Destructive || (p.namespaceOf(args) == "" && p.clusterWideRequiresApproval) {
      var req := Request(sp, t, args, pd, w);
      AutoNeverApprovesRisky(cfg.approver.value, req, w.answer);
      assert Answered(req, w.answer) in ApprovalEvents(cfg, sp, t, args, pd, w);
    }
  }

  /** Only a person's yes approves a destructive request or one beyond a namespace. */
  lemma {:induction false} AutoNeverApprovesRisky(a: Approver, req: ApprovalRequest, answer: Verdict)
    requires req.risk == Destructive || req.blastRadius != "namespace"
    requires Approve(a, req, answer).Says? && Approve(a, req, answer).ok
    ensures Consults(a, req) && answer == Approve(a, req, answer)
  {
    match a
    case Person =>
    case DenyAll =>
    case AutoApprover(_, fallback) => AutoNeverApprovesRisky(fallback.value, req, answer);
  }

  // ----- what an approver decides -----

  /** Some class occurs in the tool's name. */
  ghost predicate OptedIn(classes: seq<string>, tool: string) {
    exists c, a, b :: c in classes && tool == a + c + b
  }

  lemma MatchesTells(classes: seq<string>, tool: string)
    ensures Matches(classes, tool) <==> OptedIn(classes, tool)
  {
    if Matches(classes, tool) {
      var i :| 0 <= i < |classes| && Text.Contains(tool, classes[i]);
      Text.ContainsTells(tool, classes[i]);
      var a, b :| tool == a + classes[i] + b;
      assert classes[i] in classes;
    }
    if OptedIn(classes, tool) {
      var c, a, b :| c in classes && tool == a + c + b;
      Text.ContainsTells(tool, c);
      var i :| 0 <= i < |classes| && classes[i] == c;
      assert Text.Contains(tool, classes[i]);
    }
  }

  /**
   A rule-based approver says yes by itself exactly to requests that destroy nothing, stay in a namespace
   and come from a tool whose name holds one of its classes; all others it passes on or refuses.
   */
  lemma ApproverTells(classes: seq<string>, fallback: Option<Approver>, req: ApprovalRequest, answer: Verdict)
    ensures var auto := AutoApprover(classes, fallback);
      var alone := req.risk != Destructive && req.blastRadius == "namespace" && OptedIn(classes, req.tool);
      && (alone ==> Approve(auto, req, answer) == Says(true, "auto-approver") && !Consults(auto, req))
      && (!alone && fallback == None ==> Approve(auto, req, answer) == Fails(NotApproved) && !Consults(auto, req))
      && (!alone && fallback.Some? ==>
            Approve(auto, req, answer) == Approve(fallback.value, req, answer)
            && (Consults(auto, req) <==> Consults(fallback.value, req)))
    ensures Approve(Person, req, answer) == answer && Consults(Person, req)
    ensures Approve(DenyAll, req, answer) == Fails(NotApproved) && !Consults(DenyAll, req)
  {
    MatchesTells(classes, req.tool);
    hide OptedIn, Matches;
  }

  /** Some approver in the chain lists a class that occurs in the tool's name. */
  ghost predicate ChainOptedIn(a: Approver, tool: string) {
    match a
    case AutoApprover(classes, fallback) => OptedIn(classes, tool) || (fallback.Some? && ChainOptedIn(fallback.value, tool))
    case _ => false
  }

  lemma {:induction false} YesNeedsPersonOrClass(a: Approver, req: ApprovalRequest, answer: Verdict)
    requires Approve(a, req, answer).Says? && Approve(a, req, answer).ok
    ensures (Consults(a, req) && answer == Approve(a, req, answer)) || ChainOptedIn(a, req.tool)
  {
    hide OptedIn;
    match a
    case Person =>
    case DenyAll =>
    case AutoApprover(classes, fallback) =>
      ApproverTells(classes, fallback, req, answer);
      if fallback.Some? && Approve(a, req, answer) == Approve(fallback.value, req, answer) {
        YesNeedsPersonOrClass(fallback.value, req, answer);
      }
  }

  /**
   However approvers are nested: an execution that needed approval has a person's yes to that very request
   in its own dispatch, or its tool is one that some approver's operator opted into.
   */
  lemma UnaskedOnlyIfOptedIn(cfg: Config, tools: map<string, Tool>, sp: SessionPolicy, name: string, args: string, w: World, ok: bool)
    requires name in tools && tools[name].risk != Read
    requires Executed(sp, tools[name], args, ok) in Episode(cfg, tools, sp, name, args, w)
    requires sp.mode != "apply" || (cfg.policy.Some? && cfg.policy.value(tools[name], args).Ok?
                                    && cfg.policy.value(tools[name], args).value.requireApproval)
    ensures cfg.approver.Some?
    ensures || ChainOptedIn(cfg.approver.value, tools[name].name)
            || exists req :: Answered(req, w.answer) in Episode(cfg, tools, sp, name, args, w) && w.answer.Says? && w.answer.ok
                             && req.tool == tools[name].name && req.args == args && req.risk == tools[name].risk
                             && req.cluster == sp.cluster && (!sp.dryRunFirst ==> req.diff == "")
                             && (sp.dryRunFirst ==> req.diff == w.dryRun.result.diff)
  {
    var t := tools[name];
    var pd := Decision(cfg, t, args).value;
    var req := Request(sp, t, args, pd, w);
    ExecutedAfterYes(cfg, sp, t, args, w, ok);
    hide ChainOptedIn, Approve, Consults, AfterAdmission, Judgement;
    YesNeedsPersonOrClass(cfg.approver.value, req, w.answer);
  }

  /** An execution that needed approval has an approver's yes before it, and the person's answer if one was asked. */
  lemma ExecutedAfterYes(cfg: Config, sp: SessionPolicy, t: Tool, args: string, w: World, ok: bool)
    requires Executed(sp, t, args, ok) in AfterAdmission(cfg, sp, t, args, w)
    requires Decision(cfg, t, args).Ok? ==> NeedsApproval(sp, t, Decision(cfg, t, args).value)
    ensures Decision(cfg, t, args).Ok? && cfg.approver.Some?
    ensures var req := Request(sp, t, args, Decision(cfg, t, args).value, w);
      && Approve(cfg.approver.value, req, w.answer).Says? && Approve(cfg.approver.value, req, w.answer).ok
      && (Consults(cfg.approver.value, req) ==> Answered(req, w.answer) in AfterAdmission(cfg, sp, t, args, w))
  {
    hide Approve, Consults;
    assert forall e :: e in CheckEvents(cfg, t, args, Decision(cfg, t, args).value) ==> !e.Executed?;
    assert Decision(cfg, t, args).Ok? && Decision(cfg, t, args).value.allow;
    var pd := Decision(cfg, t, args).value;
    var lead, end := Lead(cfg, sp, t, args, pd, w), EndEvents(cfg, sp, t, args, pd, w);
    LeadConsults(cfg, sp, t, args, pd, w);
    EndsWithExecution(cfg, sp, t, args, pd, w);
    assert AfterAdmission(cfg, sp, t, args, w) == lead + end || forall e :: e in AfterAdmission(cfg, sp, t, args, w) ==> !e.Executed?;
    hide Lead, EndEvents, CheckEvents, Request, AfterAdmission;
  }

  lemma LeadConsults(cfg: Config, sp: SessionPolicy, t: Tool, args: string, pd: PolicyDecision, w: World)
    ensures forall e :: e in Lead(cfg, sp, t, args, pd, w) ==> !e.Executed?
    ensures var req := Request(sp, t, args, pd, w);
      NeedsApproval(sp, t, pd) && cfg.approver.Some? && Consults(cfg.approver.value, req) ==>
        Answered(req, w.answer) in Lead(cfg, sp, t, args, pd, w)
  {
    hide Judgement, Consults, Request;
  }

  /** The shipped policy, rule by rule. */
  lemma PolicyTells(p: Policy, t: Tool, args: string)
    ensures var ns := p.namespaceOf(args);
      && p.Check(t, args).Ok?
      && var d := p.Check(t, args).value;
         && (d.allow <==> t.risk == Read || ns == "" || ns !in p.denyNamespaces)
         && (!d.allow ==> d.reason == "mutations are blocked in protected namespace " + ns)
         && (d.requireApproval <==>
               t.risk != Read && d.allow && (t.risk == Destructive || (ns == "" && p.clusterWideRequiresApproval)))
         && (d.allow ==> d.blastRadius == if t.risk != Read && ns == "" then "cluster" else "namespace")
  {}

  // ----- what a dispatch replies -----

  predicate Stops(r: Reply, ep: seq<Event>, e: DispatchError) {
    r == Reply(ToolResult("", "", ""), Some(e)) && ep == []
  }

  /** The refusals before the policy, in their order; none of them does anything. */
  lemma RefusalTells(cfg: Config, tools: map<string, Tool>, sp: SessionPolicy, name: string, args: string, w: World)
    ensures var r, ep := EpisodeReply(cfg, tools, sp, name, args, w), Episode(cfg, tools, sp, name, args, w);
      && (name !in tools ==> Stops(r, ep, UnknownTool))
      && (name in tools && sp.enabled != [] && name !in sp.enabled ==> Stops(r, ep, NotEnabled))
      && (name in tools && (sp.enabled == [] || name in sp.enabled) && !w.argsValid ==> Stops(r, ep, InvalidArgs))
      && (name in tools && (sp.enabled == [] || name in sp.enabled) && w.argsValid ==>
            tools[name].risk != Read && sp.mode == "read-only" ==> Stops(r, ep, ReadOnly))
  {}

  predicate Passes(tools: map<string, Tool>, sp: SessionPolicy, name: string, w: World) {
    && name in tools && (sp.enabled == [] || name in sp.enabled) && w.argsValid
    && !(tools[name].risk != Read && sp.mode == "read-only")
  }

  /** What the policy says; without one everything is allowed and nothing needs approval. */
  function Ruling(cfg: Config, t: Tool, args: string): Result<PolicyDecision, string> {
    if cfg.policy.Some? then cfg.policy.value(t, args) else Ok(PolicyDecision(true, false, "", ""))
  }

  predicate Redacts(cfg: Config, raw: string, shown: string) {
    shown == if cfg.scrub.Some? then cfg.scrub.value(raw) else raw
  }

  /** What a call that passes the first gates replies, stage by stage. */
  lemma ReplyTells(cfg: Config, tools: map<string, Tool>, sp: SessionPolicy, name: string, args: string, w: World)
    requires Passes(tools, sp, name, w)
    ensures var r, t := EpisodeReply(cfg, tools, sp, name, args, w), tools[name];
      var ruling := Ruling(cfg, t, args);
      && (ruling.Err? ==> r.error == Some(PolicyFailed))
      && (ruling.Ok? && !ruling.value.allow ==> r.error == Some(Denied(ruling.value.reason)))
      && (ruling.Ok? && ruling.value.allow ==>
            var rehearsed := t.risk != Read && sp.dryRunFirst;
            if rehearsed && w.dryRun.error.Some? then r.error == Some(DryRunFailed)
            else
              var needed := t.risk != Read && (sp.mode != "apply" || ruling.value.requireApproval);
              var req := ApprovalRequest(t.name, sp.cluster, args, if rehearsed then w.dryRun.result.diff else "", t.risk,
                                         ruling.value.blastRadius);
              if needed && cfg.approver == None then r.error == Some(NotApproved)
              else if needed && Approve(cfg.approver.value, req, w.answer).Fails? then
                r.error == Some(Approve(cfg.approver.value, req, w.answer).error)
              else if needed && !Approve(cfg.approver.value, req, w.answer).ok then r.error == Some(NotApproved)
              else
                && r.error == (if w.live.error.Some? then Some(ToolFailed(w.live.error.value)) else None)
                && r.result.diff == w.live.result.diff
                && Redacts(cfg, w.live.result.modelView, r.result.modelView)
                && Redacts(cfg, w.live.result.summary, r.result.summary))
  {
    hide Approve;
  }

  // ----- what an audit entry holds -----

  /** Every entry of a dispatch, column by column. */
  lemma AuditTells(cfg: Config, tools: map<string, Tool>, sp: SessionPolicy, name: string, args: string, w: World, en: AuditEntry)
    requires Audited(en) in Episode(cfg, tools, sp, name, args, w)
    ensures name in tools
    ensures var ep, t := Episode(cfg, tools, sp, name, args, w), tools[name];
      && en.sessionId == sp.sessionId && en.tool == t.name && en.cluster == sp.cluster && en.args == args && !en.dryRun
      && en.risk == (if t.risk == Read then "read" else if t.risk == Mutate then "mutate" else "destructive")
      && en.status in ["denied", "rejected", "ok", "error"]
      && (en.status == "denied" ==>
            en.diff == "" && en.approver == "" && cfg.policy.Some? && cfg.policy.value(t, args).Ok?
            && !cfg.policy.value(t, args).value.allow && en.summary == cfg.policy.value(t, args).value.reason)
      && (en.status != "denied" ==> en.diff == if t.risk != Read && sp.dryRunFirst then w.dryRun.result.diff else "")
      && (en.status == "rejected" ==>
            en.summary == "user rejected" && exists req :: Decided(req, Says(false, en.approver)) in ep)
      && (en.status == "ok" || en.status == "error" ==>
            && Redacts(cfg, w.live.result.summary, en.summary)
            && (en.status == "ok" <==> w.live.error == None)
            && Executed(sp, t, args, w.live.error == None) in ep
            && (en.approver == "n/a" || exists req :: Decided(req, Says(true, en.approver)) in ep))
  {
    var t := tools[name];
    var d := Decision(cfg, t, args);
    if d.Ok? && d.value.allow {
      var pd := d.value;
      assert DryRuns(sp, t) && w.dryRun.error.Some? ==> Episode(cfg, tools, sp, name, args, w) == CheckEvents(cfg, t, args, pd);
      LeadAuditsNothing(cfg, sp, t, args, pd, w);
      assert forall e :: e in CheckEvents(cfg, t, args, pd) ==> !e.Audited?;
      hide Lead, EndEvents, CheckEvents, Judgement;
      EndTells(cfg, sp, t, args, pd, w, en);
      if NeedsApproval(sp, t, pd) {
        assert Decided(Request(sp, t, args, pd, w), Judgement(cfg, sp, t, args, pd, w)) in Lead(cfg, sp, t, args, pd, w);
      }
    }
  }

  lemma LeadAuditsNothing(cfg: Config, sp: SessionPolicy, t: Tool, args: string, pd: PolicyDecision, w: World)
    ensures forall e :: e in Lead(cfg, sp, t, args, pd, w) ==> !e.Audited?
    ensures NeedsApproval(sp, t, pd) && cfg.approver.Some? ==>
              Decided(Request(sp, t, args, pd, w), Judgement(cfg, sp, t, args, pd, w)) in Lead(cfg, sp, t, args, pd, w)
  {
    hide Judgement, Request;
  }

  /** The entry at the end of an allowed call. */
  lemma EndTells(cfg: Config, sp: SessionPolicy, t: Tool, args: string, pd: PolicyDecision, w: World, en: AuditEntry)
    requires Audited(en) in EndEvents(cfg, sp, t, args, pd, w)
    ensures var verdict := Judgement(cfg, sp, t, args, pd, w);
      && en.sessionId == sp.sessionId && en.tool == t.name && en.cluster == sp.cluster && en.args == args && !en.dryRun
      && en.risk == (if t.risk == Read then "read" else if t.risk == Mutate then "mutate" else "destructive")
      && en.diff == (if t.risk != Read && sp.dryRunFirst then w.dryRun.result.diff else "")
      && verdict.Says? && en.approver == verdict.who
      && (if verdict.ok then
            && en.status == (if w.live.error == None then "ok" else "error")
            && Redacts(cfg, w.live.result.summary, en.summary)
            && Executed(sp, t, args, w.live.error == None) in EndEvents(cfg, sp, t, args, pd, w)
          else en.status == "rejected" && en.summary == "user rejected")
      && (NeedsApproval(sp, t, pd) ==> cfg.approver.Some?)
      && (!NeedsApproval(sp, t, pd) ==> verdict == Says(true, "n/a"))
  {
    hide Approve;
  }

  /** A reply without error carries the redacted result of the real execution. */
  lemma SuccessTells(cfg: Config, tools: map<string, Tool>, sp: SessionPolicy, name: string, args: string, w: World)
    requires EpisodeReply(cfg, tools, sp, name, args, w).error == None
    ensures var r := EpisodeReply(cfg, tools, sp, name, args, w).result;
      Redacts(cfg, w.live.result.modelView, r.modelView) && Redacts(cfg, w.live.result.summary, r.summary)
  {
    RefusalTells(cfg, tools, sp, name, args, w);
    hide EpisodeReply, Episode, Approve;
    ReplyTells(cfg, tools, sp, name, args, w);
  }
}
