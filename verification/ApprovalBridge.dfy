/**
 The approval modal's channel bridge: the agent's goroutine hands a request to a listener command, the
 UI shows it, and the user's key is sent back by a goroutine of its own. Every step of these parties is
 a step here, in any interleaving.
 */
module ApprovalBridge {
  import opened Wrappers
  import opened Dispatch

  type Request = ApprovalRequest

  /** A user's decision on the request that was shown. */
  datatype Decision = Decision(req: Request, ok: bool)

  /** What the update loop owns, with the goroutines that it started. */
  datatype Screen = Screen(
    pending: Option<Request>,     // shown and undecided
    armed: nat,                   // listener commands blocked on the request channel
    answers: seq<bool>,           // goroutines blocked on the response channel
    decided: seq<Decision>)       // the user's decisions, oldest first

  datatype Caller = Idle | Sending(req: Request) | Waiting(req: Request)

  /** How one Approve ended; a cancelled one has no answer. */
  datatype Return = Return(req: Request, ok: Option<bool>)

  datatype State = State(
    caller: Caller,
    inFlight: seq<Request>,       // approval messages not yet seen by the update loop
    screen: Screen,
    called: seq<Request>,
    returned: seq<Return>)

  datatype Step =
    | Call(req: Request)          // the agent enters Approve
    | Hand                        // rendezvous of the caller with a listener
    | Deliver(k: nat)             // the update loop takes an approval message
    | Press(key: string)          // and a key, in lower case
    | Receive(k: nat)             // rendezvous of an answering goroutine with the caller
    | Cancel                      // the caller's context ends

  /** Init arms one listener. */
  const INITIAL := State(Idle, [], Screen(None, 1, [], []), [], [])

  // ----- the update loop -----

  function Show(s: Screen, req: Request): Screen {
    s.(pending := Some(req))
  }

  /** The modal captures y, n and esc; any other key leaves it. Without a modal no key decides. */
  function KeyAnswer(key: string): Option<bool> {
    if key == "y" then Some(true) else if key == "n" || key == "esc" then Some(false) else None
  }

  function KeyPress(s: Screen, key: string): Screen {
    if s.pending == None || KeyAnswer(key) == None then s
    else
      var ok := KeyAnswer(key).value;
      Screen(None, s.armed + 1, s.answers + [ok], s.decided + [Decision(s.pending.value, ok)])
  }

  class Model {
    var pending: Option<Request>
    var armed: nat
    var answers: seq<bool>
    ghost var decided: seq<Decision>
    var transcript: string

    ghost function View(): Screen
      reads this
    {
      Screen(pending, armed, answers, decided)
    }

    /** The model once Init has armed its listener. */
    constructor ()
      ensures View() == INITIAL.screen && transcript == ""
      ensures pending == None && armed == 1 && answers == [] && decided == []
    {
      pending, armed, answers, decided, transcript := None, 1, [], [], "";
    }

    method ResolveApproval(ok: bool)
      requires pending.Some?
      modifies this
      ensures View() == old(View()).(pending := None, answers := old(answers) + [ok],
                                     decided := old(decided) + [Decision(old(pending).value, ok)])
      ensures transcript == old(transcript) + (if ok then "  → approved\n" else "  → rejected\n")
    {
      decided := decided + [Decision(pending.value, ok)];
      pending := None;
      if ok {
        transcript := transcript + "  → approved\n";
      } else {
        transcript := transcript + "  → rejected\n";
      }
      answers := answers + [ok];
    }

    method UpdateKey(key: string) returns (captured: bool)
      modifies this
      ensures View() == KeyPress(old(View()), key) && captured == old(pending).Some?
      ensures old(pending).Some? && key == "y" ==>
                pending == None && armed == old(armed) + 1 && answers == old(answers) + [true]
                && decided == old(decided) + [Decision(old(pending).value, true)]
      ensures old(pending).Some? && (key == "n" || key == "esc") ==>
                pending == None && armed == old(armed) + 1 && answers == old(answers) + [false]
                && decided == old(decided) + [Decision(old(pending).value, false)]
      ensures old(pending) == None || key !in ["y", "n", "esc"] ==> View() == old(View()) && transcript == old(transcript)
    {
      if pending == None {
        return false;
      }
      if key == "y" {
        ResolveApproval(true);
        armed := armed + 1;
      } else if key == "n" || key == "esc" {
        ResolveApproval(false);
        armed := armed + 1;
      }
      return true;
    }

    method UpdateApproval(req: Request)
      modifies `pending
      ensures View() == Show(old(View()), req) && pending == Some(req)
    {
      pending := Some(req);
    }
  }

  // ----- all parties -----

  predicate Enabled(s: State, step: Step) {
    match step
    case Call(_) => s.caller.Idle?
    case Hand => s.caller.Sending? && s.screen.armed > 0
    case Deliver(k) => k < |s.inFlight|
    case Press(_) => true
    case Receive(k) => s.caller.Waiting? && k < |s.screen.answers|
    case Cancel => !s.caller.Idle?
  }

  function Without<T>(s: seq<T>, k: nat): seq<T>
    requires k < |s|
  {
    s[..k] + s[k + 1..]
  }

  function Next(s: State, step: Step): State
    requires Enabled(s, step)
  {
    match step
    case Call(req) => s.(caller := Sending(req), called := s.called + [req])
    case Hand => s.(caller := Waiting(s.caller.req), inFlight := s.inFlight + [s.caller.req],
                    screen := s.screen.(armed := s.screen.armed - 1))
    case Deliver(k) => s.(inFlight := Without(s.inFlight, k), screen := Show(s.screen, s.inFlight[k]))
    case Press(key) => s.(screen := KeyPress(s.screen, key))
    case Receive(k) => s.(caller := Idle, screen := s.screen.(answers := Without(s.screen.answers, k)),
                          returned := s.returned + [Return(s.caller.req, Some(s.screen.answers[k]))])
    case Cancel => s.(caller := Idle, returned := s.returned + [Return(s.caller.req, None)])
  }

  predicate Legal(s: State, run: seq<Step>)
    decreases |run|
  {
    run == [] || (Enabled(s, run[0]) && Legal(Next(s, run[0]), run[1..]))
  }

  function After(s: State, run: seq<Step>): State
    requires Legal(s, run)
    decreases |run|
  {
    if run == [] then s else After(Next(s, run[0]), run[1..])
  }

  /** No request is abandoned once the UI has it; giving up while still sending is harmless. */
  predicate Attended(s: State, run: seq<Step>)
    requires Legal(s, run)
    decreases |run|
  {
    run == [] || (!(run[0].Cancel? && s.caller.Waiting?) && Attended(Next(s, run[0]), run[1..]))
  }

  // ----- what holds in every interleaving -----

  /** The returns that carry an answer. */
  function Answered(rs: seq<Return>): seq<Decision> {
    if rs == [] then []
    else
      var r := rs[|rs| - 1];
      Answered(rs[..|rs| - 1]) + (if r.ok.Some? then [Decision(r.req, r.ok.value)] else [])
  }

  function Requests(rs: seq<Return>): seq<Request> {
    if rs == [] then [] else Requests(rs[..|rs| - 1]) + [rs[|rs| - 1].req]
  }

  /** A listener is armed, or a request is in flight, or a request is shown: one of them, once. */
  predicate OnePlace(s: State) {
    s.screen.armed + |s.inFlight| + (if s.screen.pending.Some? then 1 else 0) == 1
  }

  /** Every user decision went to the call that asked for it; at most the last one is still on its way. */
  predicate Paired(s: State) {
    && s.called == Requests(s.returned) + (if s.caller.Idle? then [] else [s.caller.req])
    && if s.screen.answers == [] then s.screen.decided == Answered(s.returned)
       else |s.screen.answers| == 1 && s.caller.Waiting?
            && s.screen.decided == Answered(s.returned) + [Decision(s.caller.req, s.screen.answers[0])]
  }

  predicate Inv(s: State) {
    && OnePlace(s) && Paired(s)
    && (forall i :: 0 <= i < |s.inFlight| ==> s.caller == Waiting(s.inFlight[i]))
    && (s.screen.pending.Some? ==> s.caller == Waiting(s.screen.pending.value))
    && (s.caller.Waiting? ==> s.screen.armed == |s.screen.answers|)
  }

  /** Every step of every party, unless a call gives up after the UI has its request. */
  lemma StepKeepsInv(s: State, step: Step)
    requires Inv(s) && Enabled(s, step) && !(step.Cancel? && s.caller.Waiting?)
    ensures Inv(Next(s, step))
  {
    hide Inv, Next, Enabled;
    match step
    case Call(req) => CallKeepsInv(s, req);
    case Hand => HandKeepsInv(s);
    case Deliver(k) => DeliverKeepsInv(s, k);
    case Press(key) => PressKeepsInv(s, key);
    case Receive(k) => ReceiveKeepsInv(s, k);
    case Cancel =>
      CallerIsBusy(s);
      CancelKeepsInv(s);
  }

  lemma CallerIsBusy(s: State)
    requires Enabled(s, Cancel)
    ensures !s.caller.Idle?
  {}

  lemma CallKeepsInv(s: State, req: Request)
    requires Inv(s) && Enabled(s, Step.Call(req))
    ensures Inv(Next(s, Step.Call(req)))
  {
    hide Answered, Requests;
  }

  lemma HandKeepsInv(s: State)
    requires Inv(s) && Enabled(s, Hand)
    ensures Inv(Next(s, Hand))
  {
    hide Answered, Requests;
    NothingFlies(s);
    assert s.inFlight + [s.caller.req] == [s.caller.req];
  }

  lemma DeliverKeepsInv(s: State, k: nat)
    requires Inv(s) && Enabled(s, Deliver(k))
    ensures Inv(Next(s, Deliver(k)))
  {
    hide Answered, Requests;
    assert s.caller == Waiting(s.inFlight[k]);
    assert Without(s.inFlight, k) == [];
  }

  lemma PressKeepsInv(s: State, key: string)
    requires Inv(s) && Enabled(s, Press(key))
    ensures Inv(Next(s, Press(key)))
  {
    hide Answered, Requests;
  }

  lemma ReceiveKeepsInv(s: State, k: nat)
    requires Inv(s) && Enabled(s, Receive(k))
    ensures Inv(Next(s, Receive(k)))
  {
    hide Answered, Requests;
    var r := Return(s.caller.req, Some(s.screen.answers[k]));
    OneMoreReturn(s.returned, r);
    assert Without(s.screen.answers, k) == [];
    assert s.screen.armed == 1 && s.inFlight == [] && s.screen.pending == None;
  }

  lemma CancelKeepsInv(s: State)
    requires Inv(s) && s.caller.Sending?
    ensures Inv(Next(s, Cancel))
  {
    hide Answered, Requests;
    OneMoreReturn(s.returned, Return(s.caller.req, None));
    NothingFlies(s);
  }

  /** No request is on its way to the screen while the caller still sends. */
  lemma NothingFlies(s: State)
    requires Inv(s) && !s.caller.Waiting?
    ensures s.inFlight == []
  {
    hide OnePlace, Paired;
    FlyingMeansWaiting(s);
  }

  lemma OneMoreReturn(rs: seq<Return>, r: Return)
    ensures Answered(rs + [r]) == Answered(rs) + (if r.ok.Some? then [Decision(r.req, r.ok.value)] else [])
    ensures Requests(rs + [r]) == Requests(rs) + [r.req]
  {
    assert (rs + [r])[..|rs|] == rs;
  }

  /** In every interleaving: one place for the request, and every answer reaches its own call. */
  lemma {:induction false} EveryRunIsPaired(s: State, run: seq<Step>)
    requires Inv(s) && Legal(s, run) && Attended(s, run)
    ensures Inv(After(s, run))
    decreases |run|
  {
    if run != [] {
      StepKeepsInv(s, run[0]);
      EveryRunIsPaired(Next(s, run[0]), run[1..]);
    }
  }

  lemma InitialInv()
    ensures Inv(INITIAL)
  {}

  /** A request that reaches the screen never replaces an undecided one. */
  lemma NothingIsOverwritten(s: State, k: nat)
    requires Inv(s) && Enabled(s, Deliver(k))
    ensures s.screen.pending == None && Next(s, Deliver(k)).screen.pending == Some(s.caller.req)
  {
    assert s.caller == Waiting(s.inFlight[k]);
  }

  lemma FlyingMeansWaiting(s: State)
    requires Inv(s)
    ensures s.inFlight != [] ==> s.caller.Waiting?
  {
    if s.inFlight != [] {
      assert s.caller == Waiting(s.inFlight[0]);
    }
  }

  /** The steps left to an open request when the user answers it with the given key. */
  function Remaining(s: State, key: string): seq<Step> {
    if s.caller.Sending? then [Hand, Deliver(0), Press(key), Receive(0)]
    else if s.inFlight != [] then [Deliver(0), Press(key), Receive(0)]
    else if s.screen.pending.Some? then [Press(key), Receive(0)]
    else [Receive(0)]
  }

  /** No interleaving gets stuck: from every reachable state the open request can still be answered. */
  lemma {:induction false} NeverStuck(s: State, key: string)
    requires Inv(s) && !s.caller.Idle? && KeyAnswer(key).Some?
    ensures var run := Remaining(s, key);
      && Legal(s, run) && Attended(s, run) && After(s, run).caller.Idle?
      && After(s, run).returned
         == s.returned + [Return(s.caller.req, if s.screen.answers == [] then KeyAnswer(key) else Some(s.screen.answers[0]))]
    decreases |Remaining(s, key)|
  {
    var run := Remaining(s, key);
    assert s.inFlight != [] ==> s.caller.Waiting? by { FlyingMeansWaiting(s); }
    StepKeepsInv(s, run[0]);
    if |run| > 1 {
      assert run[1..] == Remaining(Next(s, run[0]), key);
      NeverStuck(Next(s, run[0]), key);
    } else {
      assert run[1..] == [];
    }
  }

  lemma OneStep(s: State, step: Step, rest: seq<Step>)
    requires Enabled(s, step) && Legal(Next(s, step), rest)
    ensures Legal(s, [step] + rest) && After(s, [step] + rest) == After(Next(s, step), rest)
    ensures !step.Cancel? && Attended(Next(s, step), rest) ==> Attended(s, [step] + rest)
  {
    assert ([step] + rest)[1..] == rest;
  }

  /** The caller of req is gone; its request or its answer is not. */
  predicate Abandoned(s: State, req: Request) {
    && OnePlace(s) && s.caller.Idle? && s.screen.armed == |s.screen.answers|
    && (forall i :: 0 <= i < |s.inFlight| ==> s.inFlight[i] == req)
    && (s.screen.pending.Some? ==> s.screen.pending.value == req)
    && (s.screen.answers != [] ==>
          s.screen.decided != [] && s.screen.decided[|s.screen.decided| - 1] == Decision(req, s.screen.answers[0]))
  }

  /** The next call, whatever it asks, gets the answer meant for the abandoned request. */
  lemma {:induction false} AnswerStrays(s: State, req: Request, other: Request, key: string) returns (run: seq<Step>)
    requires Abandoned(s, req) && KeyAnswer(key).Some?
    ensures Legal(s, run) && Attended(s, run)
    ensures var t := After(s, run);
      && t.screen.answers == [] && t.screen.decided != [] && t.screen.decided[|t.screen.decided| - 1].req == req
      && t.screen.decided == s.screen.decided + (if s.screen.answers == [] then [Decision(req, KeyAnswer(key).value)] else [])
      && t.returned == s.returned + [Return(other, Some(t.screen.decided[|t.screen.decided| - 1].ok))]
    decreases |s.inFlight|, s.screen.pending.Some?
  {
    if s.inFlight != [] {
      run := AnswerStrays(Next(s, Deliver(0)), req, other, key);
      OneStep(s, Deliver(0), run);
      run := [Deliver(0)] + run;
    } else if s.screen.pending.Some? {
      run := AnswerStrays(Next(s, Press(key)), req, other, key);
      OneStep(s, Press(key), run);
      run := [Press(key)] + run;
    } else {
      var called := Next(s, Step.Call(other));
      var handed := Next(called, Hand);
      OneStep(handed, Receive(0), []);
      assert [Receive(0)] + [] == [Receive(0)];
      OneStep(called, Hand, [Receive(0)]);
      OneStep(s, Step.Call(other), [Hand] + [Receive(0)]);
      run := [Step.Call(other)] + ([Hand] + [Receive(0)]);
    }
  }

  /** So attendance is needed: a call that gives up after the hand-over breaks the pairing. */
  lemma AttendanceIsNeeded(s: State, other: Request, key: string) returns (run: seq<Step>)
    requires Inv(s) && s.caller.Waiting? && KeyAnswer(key).Some? && other != s.caller.req
    ensures Legal(s, [Cancel] + run)
    ensures !Paired(After(s, [Cancel] + run))
  {
    var cut := Next(s, Cancel);
    run := AnswerStrays(cut, s.caller.req, other, key);
    OneStep(s, Cancel, run);
    hide Legal, Attended, After, OnePlace, Answered, Requests;
    Misdirected(After(cut, run), other);
  }

  lemma Misdirected(t: State, other: Request)
    requires t.screen.answers == [] && t.screen.decided != [] && t.screen.decided[|t.screen.decided| - 1].req != other
    requires t.returned != [] && t.returned[|t.returned| - 1].req == other && t.returned[|t.returned| - 1].ok.Some?
    ensures !Paired(t)
  {
    var n := |t.returned| - 1;
    assert t.returned[..n] + [t.returned[n]] == t.returned;
    OneMoreReturn(t.returned[..n], t.returned[n]);
  }

  // ----- every answer is a key that was pressed at its request -----

  lemma {:induction false} RunOneMore(s: State, run: seq<Step>)
    requires Legal(s, run) && Attended(s, run) && run != []
    ensures var n := |run| - 1;
      && Legal(s, run[..n]) && Attended(s, run[..n])
      && Enabled(After(s, run[..n]), run[n]) && After(s, run) == Next(After(s, run[..n]), run[n])
      && !(run[n].Cancel? && After(s, run[..n]).caller.Waiting?)
    decreases |run|
  {
    var n := |run| - 1;
    hide Enabled, Next;
    if n > 0 {
      assert run[..n][1..] == run[1..][..n - 1];
      RunOneMore(Next(s, run[0]), run[1..]);
    } else {
      assert run[1..] == [];
    }
  }

  /** At step p of the run the user saw this request and pressed a key: y for yes, n or esc for no. */
  predicate PressedAt(run: seq<Step>, p: nat, req: Request, ok: bool) {
    && p < |run| && Legal(INITIAL, run[..p])
    && After(INITIAL, run[..p]).screen.pending == Some(req)
    && (if ok then run[p] == Press("y") else run[p] == Press("n") || run[p] == Press("esc"))
  }

  predicate Rising(at: seq<nat>) {
    forall i, j :: 0 <= i < j < |at| ==> at[i] < at[j]
  }

  lemma PressedInPrefix(run: seq<Step>, n: nat, p: nat, req: Request, ok: bool)
    requires n <= |run| && PressedAt(run[..n], p, req, ok)
    ensures PressedAt(run, p, req, ok)
  {
    assert run[..n][..p] == run[..p];
  }

  /** The keys that made the user's decisions, in order. */
  lemma {:induction false} DecisionsAreKeys(run: seq<Step>) returns (at: seq<nat>)
    requires Legal(INITIAL, run) && Attended(INITIAL, run)
    ensures var decided := After(INITIAL, run).screen.decided;
      && |at| == |decided| && Rising(at)
      && forall i :: 0 <= i < |at| ==> PressedAt(run, at[i], decided[i].req, decided[i].ok)
    decreases |run|
  {
    if run == [] {
      at := [];
    } else {
      var n := |run| - 1;
      RunOneMore(INITIAL, run);
      at := DecisionsAreKeys(run[..n]);
      var s := After(INITIAL, run[..n]);
      var before, now := s.screen.decided, After(INITIAL, run).screen.decided;
      forall i | 0 <= i < |at| ensures PressedAt(run, at[i], before[i].req, before[i].ok) && at[i] < n {
        assert PressedAt(run[..n], at[i], before[i].req, before[i].ok);
        PressedInPrefix(run, n, at[i], before[i].req, before[i].ok);
      }
      DecidingStep(s, run[n]);
      hide Legal, After, Next, Enabled, Attended;
      if now != before {
        assert PressedAt(run, n, now[|before|].req, now[|before|].ok);
        at := at + [n];
      }
    }
  }

  /** Only a key that decides a shown request adds a decision. */
  lemma DecidingStep(s: State, step: Step)
    requires Enabled(s, step)
    ensures var before, now := s.screen.decided, Next(s, step).screen.decided;
      now == before
      || (|now| == |before| + 1 && now[..|before|] == before && s.screen.pending == Some(now[|before|].req)
          && if now[|before|].ok then step == Press("y") else step == Press("n") || step == Press("esc"))
  {}

  /** The return with the given index was answered at its own position. */
  predicate AnsweredByKey(run: seq<Step>, r: Return, p: int) {
    r.ok.Some? ==> p >= 0 && PressedAt(run, p, r.req, r.ok.value)
  }

  /**
   In every attended run each yes that a call returns is a "y", and each no an "n" or "esc", that the user
   pressed while that very request was shown; different returns go back to different key presses.
   */
  lemma AnswersAreKeys(run: seq<Step>) returns (at: seq<int>)
    requires Legal(INITIAL, run) && Attended(INITIAL, run)
    ensures var returned := After(INITIAL, run).returned;
      && |at| == |returned|
      && (forall i :: 0 <= i < |at| ==> AnsweredByKey(run, returned[i], at[i]))
      && (forall i, j :: 0 <= i < j < |at| && returned[i].ok.Some? && returned[j].ok.Some? ==> at[i] < at[j])
  {
    var t := After(INITIAL, run);
    var keys := DecisionsAreKeys(run);
    InitialInv();
    EveryRunIsPaired(INITIAL, run);
    assert Answered(t.returned) <= t.screen.decided;
    hide Legal, After, Attended, Inv, PressedAt;
    at := ReturnsAreKeys(run, t.returned, t.screen.decided, keys);
  }

  /** Returns line up with decisions, and decisions with keys. */
  lemma {:induction false} ReturnsAreKeys(run: seq<Step>, rs: seq<Return>, decided: seq<Decision>, keys: seq<nat>) returns (at: seq<int>)
    requires Answered(rs) <= decided && |keys| == |decided| && Rising(keys)
    requires forall i :: 0 <= i < |keys| ==> PressedAt(run, keys[i], decided[i].req, decided[i].ok)
    ensures |at| == |rs|
    ensures forall i :: 0 <= i < |at| ==> AnsweredByKey(run, rs[i], at[i])
    ensures forall i, j :: 0 <= i < j < |at| && rs[i].ok.Some? && rs[j].ok.Some? ==> at[i] < at[j]
    ensures |Answered(rs)| < |keys| ==> forall i :: 0 <= i < |at| && rs[i].ok.Some? ==> at[i] < keys[|Answered(rs)|]
  {
    hide PressedAt;
    if rs == [] {
      at := [];
    } else {
      var n := |rs| - 1;
      var init := ReturnsAreKeys(run, rs[..n], decided, keys);
      var m := |Answered(rs[..n])|;
      if rs[n].ok.Some? {
        assert decided[m] == Decision(rs[n].req, rs[n].ok.value);
        assert PressedAt(run, keys[m], decided[m].req, decided[m].ok);
        at := init + [keys[m]];
      } else {
        assert Answered(rs) == Answered(rs[..n]);
        at := init + [-1];
      }
    }
  }
}
