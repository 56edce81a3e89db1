/**
 The wallet's token-refresh queue (axios.ts): module variables `isRefreshing`
 and `refreshSubscribers`, and the response error interceptor, which any number
 of requests run concurrently, interleaving at every await.

 A request is a number, in order of sending. The `finally` clause runs on every
 exit from the `try`, the queueing `return` included, so a request that queues
 itself also lowers `isRefreshing`.
 */
module RefreshQueue {

  datatype Phase =
    | Sending       // first transmission, `_retry` unset
    | ReadingToken  // 401 seen, `_retry` set, the stored refresh token is being read
    | Leaving       // no refresh token: logging out before rejecting
    | Queued        // its callback is in refreshSubscribers
    | Refreshing    // its own refresh call or token store is under way
    | LoggingOut    // its refresh failed and the logout is under way
    | Resending     // second transmission
    | Settled

  /** Per request: its phase, how often it was transmitted, whether it queued, how often its callback ran. */
  datatype State = State(isRefreshing: bool, subscribers: seq<nat>,
                         phases: seq<Phase>, sent: seq<nat>, queued: seq<bool>, calls: seq<nat>)

  datatype Step =
    | Send
    | Answer(r: nat)        // any response that ends the request
    | Unauthorized(r: nat)  // a first 401
    | NoToken(r: nat)
    | Enqueue(r: nat)
    | StartRefresh(r: nat)
    | RefreshOk(r: nat)
    | RefreshFail(r: nat)
    | LogoutDone(r: nat)
    | LogoutThrows(r: nat)

  const INIT: State := State(false, [], [], [], [], [])

  predicate Shape(s: State) {
    && |s.phases| == |s.sent| == |s.queued| == |s.calls|
    && forall k :: 0 <= k < |s.subscribers| ==> s.subscribers[k] < |s.phases|
  }

  predicate Enabled(s: State, step: Step) {
    && Shape(s)
    && (step.Send? || (
      && step.r < |s.phases|
      && match step
         case Answer(r) => s.phases[r] in {Sending, Leaving, Resending}
         case Unauthorized(r) => s.phases[r] == Sending
         case NoToken(r) => s.phases[r] == ReadingToken
         case Enqueue(r) => s.phases[r] == ReadingToken && s.isRefreshing
         case StartRefresh(r) => s.phases[r] == ReadingToken && !s.isRefreshing
         case RefreshOk(r) => s.phases[r] == Refreshing
         case RefreshFail(r) => s.phases[r] == Refreshing
         case LogoutDone(r) => s.phases[r] == LoggingOut
         case LogoutThrows(r) => s.phases[r] == LoggingOut))
  }

  /** `refreshSubscribers.forEach(callback => callback(token)); refreshSubscribers = []` */
  function Drain(s: State): State
    requires Shape(s)
  {
    var n, subs := |s.phases|, s.subscribers;
    s.(subscribers := [],
       phases := seq(n, x requires 0 <= x < n => if x in subs then Resending else s.phases[x]),
       sent := seq(n, x requires 0 <= x < n => s.sent[x] + multiset(subs)[x]),
       calls := seq(n, x requires 0 <= x < n => s.calls[x] + multiset(subs)[x]))
  }

  function Apply(s: State, step: Step): State
    requires Enabled(s, step)
  {
    match step
    case Send =>
      s.(phases := s.phases + [Sending], sent := s.sent + [1], queued := s.queued + [false], calls := s.calls + [0])
    case Answer(r) => s.(phases := s.phases[r := Settled])
    case Unauthorized(r) => s.(phases := s.phases[r := ReadingToken])
    case NoToken(r) => s.(phases := s.phases[r := Leaving])
    case Enqueue(r) =>
      s.(subscribers := s.subscribers + [r], phases := s.phases[r := Queued], queued := s.queued[r := true],
         isRefreshing := false)
    case StartRefresh(r) => s.(phases := s.phases[r := Refreshing], isRefreshing := true)
    case RefreshOk(r) =>
      var d := Drain(s);
      d.(phases := d.phases[r := Resending], sent := d.sent[r := d.sent[r] + 1], isRefreshing := false)
    case RefreshFail(r) => s.(phases := s.phases[r := LoggingOut])
    case LogoutDone(r) =>
      var d := Drain(s);
      d.(phases := d.phases[r := Settled], isRefreshing := false)
    case LogoutThrows(r) => s.(phases := s.phases[r := Settled], isRefreshing := false)
  }

  // ---- Counting ----

  predicate InFlight(p: Phase) {
    p == Refreshing || p == LoggingOut
  }

  function Refreshes(phases: seq<Phase>): nat {
    if phases == [] then 0
    else Refreshes(phases[..|phases| - 1]) + if InFlight(phases[|phases| - 1]) then 1 else 0
  }

  function CountTrue(flags: seq<bool>): nat {
    if flags == [] then 0
    else CountTrue(flags[..|flags| - 1]) + if flags[|flags| - 1] then 1 else 0
  }

  /** Steps a request can still take. */
  function Left(p: Phase): nat {
    match p
    case Sending => 5
    case ReadingToken => 4
    case Refreshing => 3
    case LoggingOut => 2
    case Queued => 2
    case Leaving => 1
    case Resending => 1
    case Settled => 0
  }

  function Measure(phases: seq<Phase>): nat {
    if phases == [] then 0 else Measure(phases[..|phases| - 1]) + Left(phases[|phases| - 1])
  }

  lemma {:induction false} PhaseUpdate(phases: seq<Phase>, r: nat, p: Phase)
    requires r < |phases|
    ensures Refreshes(phases[r := p]) + (if InFlight(phases[r]) then 1 else 0)
            == Refreshes(phases) + if InFlight(p) then 1 else 0
    ensures Measure(phases[r := p]) + Left(phases[r]) == Measure(phases) + Left(p)
  {
    var init := phases[..|phases| - 1];
    if r == |phases| - 1 {
      assert phases[r := p][..|phases| - 1] == init;
    } else {
      PhaseUpdate(init, r, p);
      assert phases[r := p][..|phases| - 1] == init[r := p];
    }
  }

  lemma PhaseAppend(phases: seq<Phase>, p: Phase)
    ensures Refreshes(phases + [p]) == Refreshes(phases) + if InFlight(p) then 1 else 0
    ensures Measure(phases + [p]) == Measure(phases) + Left(p)
  {
    assert (phases + [p])[..|phases|] == phases;
  }

  lemma {:induction false} FlagUpdate(flags: seq<bool>, r: nat)
    requires r < |flags| && !flags[r]
    ensures CountTrue(flags[r := true]) == CountTrue(flags) + 1
  {
    var init := flags[..|flags| - 1];
    if r == |flags| - 1 {
      assert flags[r := true][..|flags| - 1] == init;
    } else {
      FlagUpdate(init, r);
      assert flags[r := true][..|flags| - 1] == init[r := true];
    }
  }

  lemma FlagAppend(flags: seq<bool>)
    ensures CountTrue(flags + [false]) == CountTrue(flags)
  {
    assert (flags + [false])[..|flags|] == flags;
  }

  /** Draining turns waiting requests into resent ones: no refresh ends by it, and the measure does not grow. */
  lemma {:induction false} DrainPhases(before: seq<Phase>, after: seq<Phase>)
    requires |before| == |after|
    requires forall x :: 0 <= x < |before| ==> after[x] == before[x] || (before[x] == Queued && after[x] == Resending)
    ensures Refreshes(after) == Refreshes(before) && Measure(after) <= Measure(before)
  {
    if before != [] {
      DrainPhases(before[..|before| - 1], after[..|after| - 1]);
    }
  }

  lemma {:induction false} RefreshExists(phases: seq<Phase>) returns (r: nat)
    requires Refreshes(phases) > 0
    ensures r < |phases| && InFlight(phases[r])
  {
    if InFlight(phases[|phases| - 1]) {
      r := |phases| - 1;
    } else {
      r := RefreshExists(phases[..|phases| - 1]);
    }
  }

  // ---- What every run keeps ----

  /** A request's counters, by phase: transmitted at most twice, called back only after queueing and at most once. */
  predicate Consistent(p: Phase, sent: nat, queued: bool, calls: nat) {
    && calls == (if queued && p != Queued then 1 else 0)
    && sent <= 2
    && (p in {Sending, ReadingToken, Leaving, Queued, Refreshing, LoggingOut} ==> sent == 1)
    && (p in {Sending, ReadingToken, Leaving, Refreshing, LoggingOut} ==> !queued)
    && (p == Queued ==> queued)
    && (p == Resending ==> sent == 2)
  }

  predicate WaitersQueued(s: State)
    requires Shape(s)
  {
    && (forall j, k :: 0 <= j < k < |s.subscribers| ==> s.subscribers[j] != s.subscribers[k])
    && (forall r :: 0 <= r < |s.phases| ==> (s.phases[r] == Queued <==> r in s.subscribers))
  }

  predicate Inv(s: State) {
    && Shape(s) && WaitersQueued(s)
    && (forall r :: 0 <= r < |s.phases| ==> Consistent(s.phases[r], s.sent[r], s.queued[r], s.calls[r]))
    && (s.isRefreshing ==> Refreshes(s.phases) > 0)
    && Refreshes(s.phases) <= CountTrue(s.queued) + (if s.isRefreshing then 1 else 0)
  }

  /** Nobody waits for a refresh that is not under way. */
  predicate NoLostWaiter(s: State) {
    s.subscribers != [] ==> Refreshes(s.phases) > 0
  }

  lemma SubscribersOnce(subs: seq<nat>, x: nat)
    requires forall j, k :: 0 <= j < k < |subs| ==> subs[j] != subs[k]
    ensures multiset(subs)[x] == if x in subs then 1 else 0
    decreases |subs|
  {
    if subs != [] {
      var init := subs[..|subs| - 1];
      assert subs == init + [subs[|subs| - 1]];
      SubscribersOnce(init, x);
    }
  }

  lemma DrainKeepsInv(s: State)
    requires Inv(s)
    ensures var d := Drain(s);
            && Inv(d) && Refreshes(d.phases) == Refreshes(s.phases) && Measure(d.phases) <= Measure(s.phases)
            && forall r :: 0 <= r < |s.phases| && s.phases[r] != Queued ==>
                 d.phases[r] == s.phases[r] && d.sent[r] == s.sent[r]
  {
    var d := Drain(s);
    forall r | 0 <= r < |s.phases|
      ensures d.phases[r] == if s.phases[r] == Queued then Resending else s.phases[r]
      ensures s.phases[r] != Queued ==> d.sent[r] == s.sent[r]
      ensures Consistent(d.phases[r], d.sent[r], d.queued[r], d.calls[r])
    {
      SubscribersOnce(s.subscribers, r);
      assert Consistent(s.phases[r], s.sent[r], s.queued[r], s.calls[r]);
    }
    DrainPhases(s.phases, d.phases);
  }

  /** A request changes phase without touching the queue. */
  lemma MoveKeepsInv(s: State, r: nat, p: Phase, sent: nat, flag: bool)
    requires Inv(s) && r < |s.phases| && s.phases[r] != Queued && p != Queued
    requires Consistent(p, sent, s.queued[r], s.calls[r])
    requires var n := Refreshes(s.phases[r := p]);
             (flag ==> n > 0) && n <= CountTrue(s.queued) + if flag then 1 else 0
    ensures Inv(s.(phases := s.phases[r := p], sent := s.sent[r := sent], isRefreshing := flag))
  {
  }

  lemma EnqueueKeepsWaiters(s: State, r: nat)
    requires Shape(s) && WaitersQueued(s) && Enabled(s, Enqueue(r))
    ensures Shape(Apply(s, Enqueue(r))) && WaitersQueued(Apply(s, Enqueue(r)))
  {
    var s' := Apply(s, Enqueue(r));
    assert r !in s.subscribers;
    forall x | 0 <= x < |s'.phases| ensures s'.phases[x] == Queued <==> x in s'.subscribers {
      assert x in s'.subscribers <==> x in s.subscribers || x == r;
    }
  }

  lemma EnqueueCounts(s: State, r: nat)
    requires Inv(s) && Enabled(s, Enqueue(r))
    ensures Refreshes(Apply(s, Enqueue(r)).phases) == Refreshes(s.phases)
    ensures CountTrue(Apply(s, Enqueue(r)).queued) == CountTrue(s.queued) + 1
  {
    PhaseUpdate(s.phases, r, Queued);
    assert Consistent(s.phases[r], s.sent[r], s.queued[r], s.calls[r]);
    FlagUpdate(s.queued, r);
  }

  lemma EnqueueStaysConsistent(s: State, r: nat, x: nat)
    requires Inv(s) && Enabled(s, Enqueue(r)) && x < |s.phases|
    ensures var s' := Apply(s, Enqueue(r));
            Shape(s') && x < |s'.phases| && Consistent(s'.phases[x], s'.sent[x], s'.queued[x], s'.calls[x])
  {
    assert Consistent(s.phases[x], s.sent[x], s.queued[x], s.calls[x]);
  }

  lemma EnqueueKeepsInv(s: State, r: nat)
    requires Inv(s) && Enabled(s, Enqueue(r))
    ensures Inv(Apply(s, Enqueue(r))) && NoLostWaiter(Apply(s, Enqueue(r)))
  {
    var s' := Apply(s, Enqueue(r));
    EnqueueKeepsWaiters(s, r);
    EnqueueCounts(s, r);
    forall x | 0 <= x < |s'.phases| ensures Consistent(s'.phases[x], s'.sent[x], s'.queued[x], s'.calls[x]) {
      EnqueueStaysConsistent(s, r, x);
    }
  }

  lemma SendKeepsInv(s: State)
    requires Inv(s)
    ensures Inv(Apply(s, Send))
  {
    PhaseAppend(s.phases, Sending);
    FlagAppend(s.queued);
    assert forall r :: r in s.subscribers ==> r < |s.phases|;
  }

  lemma RefreshOkKeepsInv(s: State, r: nat)
    requires Inv(s) && Enabled(s, RefreshOk(r))
    ensures Inv(Apply(s, RefreshOk(r)))
  {
    DrainKeepsInv(s);
    var d := Drain(s);
    assert Consistent(d.phases[r], d.sent[r], d.queued[r], d.calls[r]);
    PhaseUpdate(d.phases, r, Resending);
    MoveKeepsInv(d, r, Resending, d.sent[r] + 1, false);
  }

  lemma DrainingDecreases(s: State, r: nat, p: Phase)
    requires Inv(s) && r < |s.phases| && InFlight(s.phases[r]) && Left(p) < 2
    ensures Measure(Drain(s).phases[r := p]) < Measure(s.phases)
  {
    DrainKeepsInv(s);
    PhaseUpdate(Drain(s).phases, r, p);
  }

  /** The steps that move one request between phases and leave the queue alone. */
  lemma PlainMoveKeepsInv(s: State, r: nat, p: Phase, flag: bool)
    requires Inv(s) && r < |s.phases| && s.phases[r] != Queued && p != Queued
    requires Consistent(p, s.sent[r], s.queued[r], s.calls[r])
    requires InFlight(p) ==> flag || InFlight(s.phases[r])
    requires flag ==> InFlight(p) || (s.isRefreshing && !InFlight(s.phases[r]))
    requires s.isRefreshing && !flag ==> InFlight(s.phases[r]) && !InFlight(p)
    requires InFlight(p) && !InFlight(s.phases[r]) ==> !s.isRefreshing
    requires !s.isRefreshing && flag ==> !InFlight(s.phases[r])
    ensures Inv(s.(phases := s.phases[r := p], isRefreshing := flag))
  {
    PhaseUpdate(s.phases, r, p);
    MoveKeepsInv(s, r, p, s.sent[r], flag);
    assert s.sent[r := s.sent[r]] == s.sent;
  }

  lemma LogoutDoneKeepsInv(s: State, r: nat)
    requires Inv(s) && Enabled(s, LogoutDone(r))
    ensures Inv(Apply(s, LogoutDone(r)))
  {
    DrainKeepsInv(s);
    var d := Drain(s);
    assert Consistent(d.phases[r], d.sent[r], d.queued[r], d.calls[r]);
    PlainMoveKeepsInv(d, r, Settled, false);
  }

  lemma StepKeepsInv(s: State, step: Step)
    requires Inv(s) && Enabled(s, step)
    ensures Inv(Apply(s, step))
  {
    if !step.Send? {
      assert Consistent(s.phases[step.r], s.sent[step.r], s.queued[step.r], s.calls[step.r]);
    }
    match step
    case Send => SendKeepsInv(s);
    case Answer(r) => PlainMoveKeepsInv(s, r, Settled, s.isRefreshing);
    case Unauthorized(r) => PlainMoveKeepsInv(s, r, ReadingToken, s.isRefreshing);
    case NoToken(r) => PlainMoveKeepsInv(s, r, Leaving, s.isRefreshing);
    case Enqueue(r) => EnqueueKeepsInv(s, r);
    case StartRefresh(r) => PlainMoveKeepsInv(s, r, Refreshing, true);
    case RefreshOk(r) => RefreshOkKeepsInv(s, r);
    case RefreshFail(r) => PlainMoveKeepsInv(s, r, LoggingOut, s.isRefreshing);
    case LogoutDone(r) => LogoutDoneKeepsInv(s, r);
    case LogoutThrows(r) => PlainMoveKeepsInv(s, r, Settled, false);
  }

  predicate Decreases(s: State, step: Step, s': State) {
    if step.Send? then Measure(s'.phases) == Measure(s.phases) + 5 else Measure(s'.phases) < Measure(s.phases)
  }

  /** The steps that move one request between phases and drain nothing. */
  predicate Plain(step: Step) {
    !step.Send? && !step.RefreshOk? && !step.LogoutDone?
  }

  function PhaseAfter(step: Step): Phase
    requires Plain(step)
  {
    match step
    case Answer(_) => Settled
    case Unauthorized(_) => ReadingToken
    case NoToken(_) => Leaving
    case Enqueue(_) => Queued
    case StartRefresh(_) => Refreshing
    case RefreshFail(_) => LoggingOut
    case LogoutThrows(_) => Settled
  }

  lemma PlainMove(s: State, step: Step)
    requires Enabled(s, step) && Plain(step)
    ensures Apply(s, step).phases == s.phases[step.r := PhaseAfter(step)]
    ensures Left(PhaseAfter(step)) < Left(s.phases[step.r])
    ensures !step.Enqueue? ==> Apply(s, step).subscribers == s.subscribers
    ensures !step.LogoutThrows? && InFlight(s.phases[step.r]) ==> InFlight(PhaseAfter(step))
  {
  }

  lemma PlainProgress(s: State, step: Step)
    requires Shape(s) && Enabled(s, step) && !step.RefreshOk? && !step.LogoutDone?
    ensures Decreases(s, step, Apply(s, step))
    ensures NoLostWaiter(s) && !step.LogoutThrows? && !step.Enqueue? ==> NoLostWaiter(Apply(s, step))
  {
    if step.Send? {
      PhaseAppend(s.phases, Sending);
    } else {
      PlainMove(s, step);
      PhaseUpdate(s.phases, step.r, PhaseAfter(step));
    }
  }

  lemma StepProgress(s: State, step: Step)
    requires Inv(s) && Enabled(s, step)
    ensures Decreases(s, step, Apply(s, step))
    ensures NoLostWaiter(s) && !step.LogoutThrows? ==> NoLostWaiter(Apply(s, step))
  {
    if step.RefreshOk? {
      DrainingDecreases(s, step.r, Resending);
    } else if step.LogoutDone? {
      DrainingDecreases(s, step.r, Settled);
    } else {
      PlainProgress(s, step);
      if step.Enqueue? {
        EnqueueKeepsInv(s, step.r);
      }
    }
  }

  // ---- Runs ----

  predicate Runs(s: State, steps: seq<Step>)
    decreases |steps|
  {
    steps == [] || (Enabled(s, steps[0]) && Runs(Apply(s, steps[0]), steps[1..]))
  }

  function Exec(s: State, steps: seq<Step>): State
    requires Runs(s, steps)
    decreases |steps|
  {
    if steps == [] then s else Exec(Apply(s, steps[0]), steps[1..])
  }

  lemma RunsCons(s: State, step: Step, rest: seq<Step>)
    requires Enabled(s, step) && Runs(Apply(s, step), rest)
    ensures Runs(s, [step] + rest) && Exec(s, [step] + rest) == Exec(Apply(s, step), rest)
  {
    assert ([step] + rest)[1..] == rest;
  }

  lemma {:induction false} RunKeepsInv(s: State, steps: seq<Step>)
    requires Inv(s) && Runs(s, steps)
    ensures Inv(Exec(s, steps))
    decreases |steps|
  {
    if steps != [] {
      StepKeepsInv(s, steps[0]);
      RunKeepsInv(Apply(s, steps[0]), steps[1..]);
    }
  }

  function Sends(steps: seq<Step>): nat {
    if steps == [] then 0 else (if steps[0].Send? then 1 else 0) + Sends(steps[1..])
  }

  /**
   In every run: the refreshes in flight are at most the requests queued so far
   plus one while the flag is up, the flag implies a refresh in flight, and no
   request is transmitted more than twice.
   */
  lemma RefreshesBounded(steps: seq<Step>)
    requires Runs(INIT, steps)
    ensures var s := Exec(INIT, steps);
            && Refreshes(s.phases) <= CountTrue(s.queued) + (if s.isRefreshing then 1 else 0)
            && (s.isRefreshing ==> Refreshes(s.phases) > 0)
            && (forall r :: 0 <= r < |s.sent| ==> s.sent[r] <= 2)
  {
    var s := Exec(INIT, steps);
    RunKeepsInv(INIT, steps);
    forall r | 0 <= r < |s.sent| ensures s.sent[r] <= 2 {
      assert Consistent(s.phases[r], s.sent[r], s.queued[r], s.calls[r]);
    }
  }

  /** A throwing logout skips the drain; it strands the waiters when no other refresh is in flight. */
  predicate Strands(s: State, step: Step) {
    step.LogoutThrows? && s.subscribers != [] && Refreshes(s.phases) == 1
  }

  predicate NeverStrands(s: State, steps: seq<Step>)
    requires Runs(s, steps)
    decreases |steps|
  {
    steps != [] ==> !Strands(s, steps[0]) && NeverStrands(Apply(s, steps[0]), steps[1..])
  }

  /** No state of the run has a waiter without a refresh in flight. */
  predicate AlwaysBacked(s: State, steps: seq<Step>)
    requires Runs(s, steps)
    decreases |steps|
  {
    NoLostWaiter(s) && (steps != [] ==> AlwaysBacked(Apply(s, steps[0]), steps[1..]))
  }

  lemma StepBacks(s: State, step: Step)
    requires Inv(s) && NoLostWaiter(s) && Enabled(s, step)
    ensures NoLostWaiter(Apply(s, step)) <==> !Strands(s, step)
  {
    StepProgress(s, step);
    if step.LogoutThrows? {
      PhaseUpdate(s.phases, step.r, Settled);
    }
  }

  /**
   In every run, every state has a refresh in flight for its waiters, if and
   only if no logout throws while requests wait and its refresh is the only one.
   */
  lemma {:induction false} WaitersBackedExactly(s: State, steps: seq<Step>)
    requires Inv(s) && NoLostWaiter(s) && Runs(s, steps)
    ensures AlwaysBacked(s, steps) <==> NeverStrands(s, steps)
    ensures NeverStrands(s, steps) ==> NoLostWaiter(Exec(s, steps))
    decreases |steps|
  {
    if steps != [] {
      StepKeepsInv(s, steps[0]);
      StepBacks(s, steps[0]);
      if NoLostWaiter(Apply(s, steps[0])) {
        WaitersBackedExactly(Apply(s, steps[0]), steps[1..]);
      }
    }
  }

  /**
   In every run that never strands, so in every run whose logouts return, once
   no refresh is in flight the queue is empty and every request that ever
   queued has been called back exactly once.
   */
  lemma NoWaiterIsLost(steps: seq<Step>)
    requires Runs(INIT, steps) && NeverStrands(INIT, steps)
    ensures var s := Exec(INIT, steps);
            && Shape(s) && NoLostWaiter(s)
            && (Refreshes(s.phases) == 0 ==>
                  s.subscribers == [] && forall r :: 0 <= r < |s.queued| ==> s.calls[r] == if s.queued[r] then 1 else 0)
  {
    RunKeepsInv(INIT, steps);
    WaitersBackedExactly(INIT, steps);
    AllCalled(Exec(INIT, steps));
  }

  lemma AllCalled(s: State)
    requires Inv(s)
    ensures s.subscribers == [] ==> forall r :: 0 <= r < |s.queued| ==> s.calls[r] == if s.queued[r] then 1 else 0
  {
    forall r | s.subscribers == [] && 0 <= r < |s.queued| ensures s.calls[r] == if s.queued[r] then 1 else 0 {
      assert Consistent(s.phases[r], s.sent[r], s.queued[r], s.calls[r]);
      assert s.phases[r] == Queued ==> r in s.subscribers;
    }
  }

  /** Every run is finite: each request accounts for at most five further steps. */
  lemma {:induction false} RunLength(s: State, steps: seq<Step>)
    requires Inv(s) && Runs(s, steps)
    ensures |steps| + Measure(Exec(s, steps).phases) <= Measure(s.phases) + 6 * Sends(steps)
    decreases |steps|
  {
    if steps != [] {
      StepKeepsInv(s, steps[0]);
      StepProgress(s, steps[0]);
      RunLength(Apply(s, steps[0]), steps[1..]);
    }
  }

  /**
   With RunLength: while some request has not settled, a step other than a new send is
   possible, so all of them settle.
   */
  lemma UnsettledCanStep(steps: seq<Step>, r: nat) returns (step: Step)
    requires Runs(INIT, steps) && NeverStrands(INIT, steps)
    requires r < |Exec(INIT, steps).phases| && Exec(INIT, steps).phases[r] != Settled
    ensures !step.Send? && !step.LogoutThrows? && Enabled(Exec(INIT, steps), step)
  {
    var s := Exec(INIT, steps);
    RunKeepsInv(INIT, steps);
    WaitersBackedExactly(INIT, steps);
    var f := r;
    if s.phases[r] == Queued {
      assert r in s.subscribers;
      f := RefreshExists(s.phases);
    }
    step := match s.phases[f]
            case ReadingToken => NoToken(f)
            case Refreshing => RefreshOk(f)
            case LoggingOut => LogoutDone(f)
            case _ => Answer(f);
  }

  // ---- What happened to a request, told from the steps ----

  /** The steps taken so far concern requests that were sent. */
  predicate AboutSent(steps: seq<Step>, n: nat) {
    forall k :: 0 <= k < |steps| && !steps[k].Send? ==> steps[k].r < n
  }

  /** The past of request `r`, by its phase. */
  predicate Past(steps: seq<Step>, r: nat, p: Phase, sent: nat, calls: nat) {
    && sent >= 1 && (sent == 2 <==> RefreshOk(r) in steps || calls > 0)
    && (p in {Sending, ReadingToken, Leaving, Queued, Refreshing, LoggingOut} ==> sent == 1)
    && (p == Sending ==> Unauthorized(r) !in steps)
    && (p == Leaving ==> NoToken(r) in steps)
    && (p == LoggingOut ==> RefreshFail(r) in steps)
    && (p == Resending ==> sent == 2)
    && (p == Settled && sent == 1 ==> Unauthorized(r) !in steps || NoToken(r) in steps || RefreshFail(r) in steps)
  }

  predicate AllPast(steps: seq<Step>, s: State)
    requires Shape(s)
  {
    && AboutSent(steps, |s.phases|)
    && forall r :: 0 <= r < |s.phases| ==> Past(steps, r, s.phases[r], s.sent[r], s.calls[r])
  }

  lemma DrainOnRequest(s: State, x: nat)
    requires Inv(s) && x < |s.phases|
    ensures var d, waits := Drain(s), if s.phases[x] == Queued then 1 else 0;
            && |d.phases| == |d.sent| == |d.calls| == |s.phases|
            && d.calls[x] == s.calls[x] + waits && d.sent[x] == s.sent[x] + waits
            && d.phases[x] == if s.phases[x] == Queued then Resending else s.phases[x]
  {
    SubscribersOnce(s.subscribers, x);
  }

  /** How one step changes phase, transmissions and callbacks of a request that was already sent. */
  lemma StepOnRequest(s: State, step: Step, x: nat)
    requires Inv(s) && Enabled(s, step) && x < |s.phases|
    ensures Shape(Apply(s, step)) && x < |Apply(s, step).phases|
    ensures var s' := Apply(s, step);
            var drained := (step.RefreshOk? || step.LogoutDone?) && s.phases[x] == Queued;
            && s'.calls[x] == s.calls[x] + (if drained then 1 else 0)
            && s'.sent[x] == s.sent[x] + (if drained || step == RefreshOk(x) then 1 else 0)
            && s'.phases[x] == if drained then Resending
                               else if step.Send? || step.r != x then s.phases[x]
                               else if step.RefreshOk? then Resending
                               else if step.LogoutDone? then Settled
                               else PhaseAfter(step)
  {
    if step.RefreshOk? || step.LogoutDone? {
      DrainOnRequest(s, x);
      DrainOnRequest(s, step.r);
    }
  }

  lemma PastStep(s: State, steps: seq<Step>, step: Step, x: nat)
    requires Inv(s) && Enabled(s, step) && AllPast(steps, s) && x < |s.phases|
    ensures Shape(Apply(s, step)) && x < |Apply(s, step).phases|
    ensures var s' := Apply(s, step);
            Past(steps + [step], x, s'.phases[x], s'.sent[x], s'.calls[x])
  {
    StepOnRequest(s, step, x);
    assert Past(steps, x, s.phases[x], s.sent[x], s.calls[x]);
    assert Consistent(s.phases[x], s.sent[x], s.queued[x], s.calls[x]);
    assert forall e :: e in steps + [step] <==> e in steps || e == step;
  }

  lemma NewPast(s: State, steps: seq<Step>)
    requires Inv(s) && AllPast(steps, s)
    ensures Past(steps + [Send], |s.phases|, Sending, 1, 0)
  {
    assert forall e :: e in steps + [Send] <==> e in steps || e == Send;
  }

  predicate Explained(steps: seq<Step>, s: State) {
    Inv(s) && AllPast(steps, s)
  }

  lemma PhasesGrow(s: State, step: Step)
    requires Inv(s) && Enabled(s, step)
    ensures var s', n := Apply(s, step), |s.phases|;
            && |s'.phases| == |s'.sent| == |s'.calls| == n + (if step.Send? then 1 else 0)
            && (step.Send? ==> s'.phases[n] == Sending && s'.sent[n] == 1 && s'.calls[n] == 0)
            && (!step.Send? ==> step.r < n)
  {
  }

  /** The past of any request after the step, sent before or by it. */
  lemma PastAt(s: State, steps: seq<Step>, step: Step, x: nat)
    requires Explained(steps, s) && Enabled(s, step) && Shape(Apply(s, step)) && x < |Apply(s, step).phases|
    ensures var s' := Apply(s, step);
            Past(steps + [step], x, s'.phases[x], s'.sent[x], s'.calls[x])
  {
    PhasesGrow(s, step);
    if x < |s.phases| {
      PastStep(s, steps, step, x);
    } else {
      NewPast(s, steps);
    }
  }

  lemma AboutSentStep(steps: seq<Step>, step: Step, n: nat, n': nat)
    requires AboutSent(steps, n) && n <= n' && (!step.Send? ==> step.r < n)
    ensures AboutSent(steps + [step], n')
  {
  }

  lemma StepExplained(s: State, steps: seq<Step>, step: Step)
    requires Explained(steps, s) && Enabled(s, step)
    ensures Explained(steps + [step], Apply(s, step))
  {
    StepKeepsInv(s, step);
    PhasesGrow(s, step);
    AboutSentStep(steps, step, |s.phases|, |Apply(s, step).phases|);
    var s' := Apply(s, step);
    forall x | 0 <= x < |s'.phases| ensures Past(steps + [step], x, s'.phases[x], s'.sent[x], s'.calls[x]) {
      PastAt(s, steps, step, x);
    }
  }

  lemma {:induction false} RunExplained(past: seq<Step>, s: State, steps: seq<Step>)
    requires Explained(past, s) && Runs(s, steps)
    ensures Explained(past + steps, Exec(s, steps))
    decreases |steps|
  {
    if steps == [] {
      assert past + steps == past;
    } else {
      StepExplained(s, past, steps[0]);
      RunExplained(past + [steps[0]], Apply(s, steps[0]), steps[1..]);
      assert past + [steps[0]] + steps[1..] == past + steps;
    }
  }

  /**
   Over every run: a request is transmitted again exactly when its own refresh
   succeeded or it was called back. So a request that settled after a single
   transmission was answered without a 401, had no refresh token, or its own
   refresh failed.
   */
  lemma ResentExactly(steps: seq<Step>, r: nat)
    requires Runs(INIT, steps) && r < |Exec(INIT, steps).phases|
    ensures var s := Exec(INIT, steps);
            && Shape(s) && 1 <= s.sent[r] <= 2
            && (s.sent[r] == 2 <==> RefreshOk(r) in steps || s.calls[r] > 0)
            && (s.phases[r] == Settled && s.sent[r] == 1 ==>
                  Unauthorized(r) !in steps || NoToken(r) in steps || RefreshFail(r) in steps)
  {
    var s := Exec(INIT, steps);
    RunExplained([], INIT, steps);
    assert [] + steps == steps;
    assert Past(steps, r, s.phases[r], s.sent[r], s.calls[r]);
    assert Consistent(s.phases[r], s.sent[r], s.queued[r], s.calls[r]);
  }

  // ---- The bound is attained: "at most one refresh in flight" is not an invariant ----

  lemma {:induction false} RunsConcat(s: State, xs: seq<Step>, ys: seq<Step>)
    requires Runs(s, xs) && Runs(Exec(s, xs), ys)
    ensures Runs(s, xs + ys) && Exec(s, xs + ys) == Exec(Exec(s, xs), ys)
    decreases |xs|
  {
    if xs == [] {
      assert xs + ys == ys;
    } else {
      RunsConcat(Apply(s, xs[0]), xs[1..], ys);
      RunsCons(s, xs[0], xs[1..] + ys);
      assert xs + ys == [xs[0]] + (xs[1..] + ys);
    }
  }

  lemma RunsThree(s: State, x: Step, s1: State, y: Step, s2: State, z: Step)
    requires Enabled(s, x) && s1 == Apply(s, x) && Enabled(s1, y) && s2 == Apply(s1, y) && Enabled(s2, z)
    ensures Runs(s, [x, y, z]) && Exec(s, [x, y, z]) == Apply(s2, z)
  {
    RunsCons(s2, z, []);
    assert [z] + [] == [z];
    RunsCons(s1, y, [z]);
    assert [y] + [z] == [y, z];
    RunsCons(s, x, [y, z]);
    assert [x] + [y, z] == [x, y, z];
  }

  /** With the flag down, a new request gets a 401 and starts a refresh of its own. */
  lemma StartAnother(s: State) returns (steps: seq<Step>)
    requires Shape(s) && !s.isRefreshing
    ensures Runs(s, steps)
    ensures var s' := Exec(s, steps);
            && Shape(s') && s'.isRefreshing
            && Refreshes(s'.phases) == Refreshes(s.phases) + 1 && CountTrue(s'.queued) == CountTrue(s.queued)
  {
    var r := |s.phases|;
    steps := [Send, Unauthorized(r), StartRefresh(r)];
    var s1 := Apply(s, Send);
    var s2 := Apply(s1, Unauthorized(r));
    RunsThree(s, Send, s1, Unauthorized(r), s2, StartRefresh(r));
    PhaseAppend(s.phases, Refreshing);
    FlagAppend(s.queued);
    assert Exec(s, steps).phases == s.phases + [Refreshing];
  }

  lemma QueuedState(s: State) returns (s1: State, s2: State, s3: State)
    requires Shape(s) && s.isRefreshing
    ensures Enabled(s, Send) && s1 == Apply(s, Send)
    ensures Enabled(s1, Unauthorized(|s.phases|)) && s2 == Apply(s1, Unauthorized(|s.phases|))
    ensures Enabled(s2, Enqueue(|s.phases|)) && s3 == Apply(s2, Enqueue(|s.phases|))
    ensures Shape(s3) && !s3.isRefreshing && s3.subscribers == s.subscribers + [|s.phases|]
    ensures s3.phases == s.phases + [Queued] && s3.queued == (s.queued + [false])[|s.phases| := true]
  {
    var r := |s.phases|;
    s1 := Apply(s, Send);
    s2 := Apply(s1, Unauthorized(r));
    s3 := Apply(s2, Enqueue(r));
    assert s2.phases == s.phases + [ReadingToken];
  }

  /** With the flag up, a new request gets a 401, queues itself and so lowers the flag. */
  lemma QueueAnother(s: State) returns (steps: seq<Step>)
    requires Shape(s) && s.isRefreshing
    ensures Runs(s, steps)
    ensures var s' := Exec(s, steps);
            && Shape(s') && !s'.isRefreshing && s'.subscribers != []
            && Refreshes(s'.phases) == Refreshes(s.phases) && CountTrue(s'.queued) == CountTrue(s.queued) + 1
  {
    var r := |s.phases|;
    steps := [Send, Unauthorized(r), Enqueue(r)];
    var s1, s2, s3 := QueuedState(s);
    RunsThree(s, Send, s1, Unauthorized(r), s2, Enqueue(r));
    PhaseAppend(s.phases, Queued);
    FlagAppend(s.queued);
    FlagUpdate(s.queued + [false], r);
  }

  /** For every n there is a run with n queued requests and n + 1 refreshes in flight at once. */
  lemma {:induction false} BoundAttained(n: nat) returns (steps: seq<Step>)
    ensures Runs(INIT, steps)
    ensures var s := Exec(INIT, steps);
            Shape(s) && s.isRefreshing && CountTrue(s.queued) == n && Refreshes(s.phases) == n + 1
  {
    if n == 0 {
      steps := StartAnother(INIT);
    } else {
      steps := BoundAttained(n - 1);
      var queue := QueueAnother(Exec(INIT, steps));
      RunsConcat(INIT, steps, queue);
      steps := steps + queue;
      var start := StartAnother(Exec(INIT, steps));
      RunsConcat(INIT, steps, start);
      steps := steps + start;
    }
  }

  /** Wherever requests wait for a single refresh, it can fail and its logout throw, and then nobody calls them back. */
  lemma SoleRefreshCanStrand(s: State) returns (steps: seq<Step>)
    requires Shape(s) && s.subscribers != [] && Refreshes(s.phases) == 1
    ensures Runs(s, steps) && !NoLostWaiter(Exec(s, steps))
  {
    var r := RefreshExists(s.phases);
    var s1 := s;
    steps := [LogoutThrows(r)] + [];
    if s.phases[r] == Refreshing {
      s1 := Apply(s, RefreshFail(r));
      PhaseUpdate(s.phases, r, LoggingOut);
    }
    PhaseUpdate(s1.phases, r, Settled);
    RunsCons(s1, LogoutThrows(r), []);
    if s.phases[r] == Refreshing {
      RunsCons(s, RefreshFail(r), steps);
      steps := [RefreshFail(r)] + steps;
    }
  }

  /** Such a state is reached by one refresh and one request that queues behind it. */
  lemma StrandedWaiter() returns (steps: seq<Step>)
    ensures Runs(INIT, steps) && !NoLostWaiter(Exec(INIT, steps))
  {
    steps := BoundAttained(0);
    var queue := QueueAnother(Exec(INIT, steps));
    RunsConcat(INIT, steps, queue);
    steps := steps + queue;
    var strand := SoleRefreshCanStrand(Exec(INIT, steps));
    RunsConcat(INIT, steps, strand);
    steps := steps + strand;
  }

  /** The first `k` callbacks have run. */
  predicate Called(s: State, k: nat, phases: seq<Phase>, sent: seq<nat>, calls: seq<nat>)
    requires Shape(s) && k <= |s.subscribers|
  {
    && |phases| == |sent| == |calls| == |s.phases|
    && forall x :: 0 <= x < |s.phases| ==>
         && phases[x] == (if x in s.subscribers[..k] then Resending else s.phases[x])
         && sent[x] == s.sent[x] + multiset(s.subscribers[..k])[x]
         && calls[x] == s.calls[x] + multiset(s.subscribers[..k])[x]
  }

  lemma CalledNext(s: State, k: nat, phases: seq<Phase>, sent: seq<nat>, calls: seq<nat>)
    requires Shape(s) && k < |s.subscribers| && Called(s, k, phases, sent, calls)
    ensures var r := s.subscribers[k];
            Called(s, k + 1, phases[r := Resending], sent[r := sent[r] + 1], calls[r := calls[r] + 1])
  {
    assert s.subscribers[..k + 1] == s.subscribers[..k] + [s.subscribers[k]];
  }

  lemma CalledAll(s: State, phases: seq<Phase>, sent: seq<nat>, calls: seq<nat>)
    requires Shape(s) && Called(s, |s.subscribers|, phases, sent, calls)
    ensures Drain(s) == s.(subscribers := [], phases := phases, sent := sent, calls := calls)
  {
    assert s.subscribers[..|s.subscribers|] == s.subscribers;
    assert Drain(s).phases == phases && Drain(s).sent == sent && Drain(s).calls == calls;
  }

  /** The forEach over the callbacks, in the order they were queued. */
  method CallEach(s: State) returns (phases: seq<Phase>, sent: seq<nat>, calls: seq<nat>)
    requires Shape(s)
    ensures Drain(s) == s.(subscribers := [], phases := phases, sent := sent, calls := calls)
  {
    phases, sent, calls := s.phases, s.sent, s.calls;
    var k := 0;
    while k < |s.subscribers|
      invariant 0 <= k <= |s.subscribers|
      invariant Called(s, k, phases, sent, calls)
    {
      var r := s.subscribers[k];
      CalledNext(s, k, phases, sent, calls);
      phases, sent, calls := phases[r := Resending], sent[r := sent[r] + 1], calls[r := calls[r] + 1];
      k := k + 1;
    }
    CalledAll(s, phases, sent, calls);
  }

  /** The interceptor's module state; each method is the code between two awaits and performs exactly one step. */
  class Interceptor {
    var isRefreshing: bool
    var subscribers: seq<nat>
    var phases: seq<Phase>
    var sent: seq<nat>
    var queued: seq<bool>
    var calls: seq<nat>

    function St(): State
      reads this
    {
      State(isRefreshing, subscribers, phases, sent, queued, calls)
    }

    constructor ()
      ensures St() == INIT && Inv(St())
    {
      isRefreshing, subscribers, phases, sent, queued, calls := false, [], [], [], [], [];
    }

    /** An error response. `authEndpoint` marks the login and registration calls. */
    method ResponseError(r: nat, unauthorized: bool, authEndpoint: bool)
      requires Inv(St()) && r < |phases| && phases[r] in {Sending, Resending}
      modifies this
      ensures Inv(St())
      ensures St() == if unauthorized && old(phases[r]) == Sending && !authEndpoint
                      then Apply(old(St()), Unauthorized(r)) else Apply(old(St()), Answer(r))
    {
      var retried := phases[r] == Resending;
      ghost var s := St();
      if unauthorized && !retried && !authEndpoint {
        StepKeepsInv(s, Unauthorized(r));
        phases := phases[r := ReadingToken];
      } else {
        StepKeepsInv(s, Answer(r));
        phases := phases[r := Settled];
      }
    }

    /** `readRefreshToken` has returned. */
    method TokenRead(r: nat, hasToken: bool)
      requires Inv(St()) && r < |phases| && phases[r] == ReadingToken
      modifies this
      ensures Inv(St())
      ensures St() == Apply(old(St()), if !hasToken then NoToken(r)
                                       else if old(isRefreshing) then Enqueue(r)
                                       else StartRefresh(r))
    {
      ghost var s := St();
      if !hasToken {
        StepKeepsInv(s, NoToken(r));
        phases := phases[r := Leaving];
      } else if isRefreshing {
        StepKeepsInv(s, Enqueue(r));
        subscribers := subscribers + [r];
        phases, queued := phases[r := Queued], queued[r := true];
        isRefreshing := false;
      } else {
        StepKeepsInv(s, StartRefresh(r));
        isRefreshing := true;
        phases := phases[r := Refreshing];
      }
    }

    /** Every callback is called, and the list emptied. */
    method CallSubscribers()
      requires Shape(St())
      modifies this
      ensures St() == Drain(old(St()))
    {
      var ps, ss, cs := CallEach(St());
      subscribers, phases, sent, calls := [], ps, ss, cs;
    }

    method RefreshSucceeded(r: nat)
      requires Inv(St()) && r < |phases| && phases[r] == Refreshing
      modifies this
      ensures Inv(St()) && St() == Apply(old(St()), RefreshOk(r))
      ensures !isRefreshing && subscribers == [] && phases[r] == Resending && sent[r] == old(sent[r]) + 1
    {
      StepKeepsInv(St(), RefreshOk(r));
      CallSubscribers();
      phases, sent := phases[r := Resending], sent[r := sent[r] + 1];
      isRefreshing := false;
    }

    /** The catch clause up to the awaited logout. */
    method RefreshFailed(r: nat)
      requires Inv(St()) && r < |phases| && phases[r] == Refreshing
      modifies this
      ensures Inv(St()) && St() == Apply(old(St()), RefreshFail(r))
    {
      StepKeepsInv(St(), RefreshFail(r));
      phases := phases[r := LoggingOut];
    }

    /** The rest of the catch clause and the finally clause. */
    method LogoutEnded(r: nat, threw: bool)
      requires Inv(St()) && r < |phases| && phases[r] == LoggingOut
      modifies this
      ensures Inv(St()) && St() == Apply(old(St()), if threw then LogoutThrows(r) else LogoutDone(r))
    {
      StepKeepsInv(St(), if threw then LogoutThrows(r) else LogoutDone(r));
      if !threw {
        CallSubscribers();
      }
      phases := phases[r := Settled];
      isRefreshing := false;
    }
  }
}
