/**
 The wallet's session lock (store/auth.ts): a memory store and persisted keys,
 written one key at a time by asynchronous operations that interleave at every
 storage access, and a process that may die and restart at any point.
 */
module SessionLock {
  import opened Basics

  type Token = t: string | t != "" witness "t"
  type User = string

  datatype Memory = Memory(token: Option<Token>, refreshToken: Option<Token>, isAuthenticated: bool, isLoading: bool,
                           hasSession: bool, needsPin: bool, user: Option<User>)

  /** The keys auth_token, refresh_token, wallet_user and session_locked. */
  datatype Disk = Disk(token: Option<Token>, refreshToken: Option<Token>, user: Option<User>, locked: bool)

  /** The calls of the store; Unlock is unlockWithPin after the server accepted the PIN, with the tokens it issued. */
  datatype Call =
    | SetToken(token: Token, refreshToken: Option<Token>)
    | ClearToken
    | SetUser(user: User)
    | ClearUser
    | Lock
    | Unlock(issued: Option<Token>, issuedRefresh: Option<Token>)
    | Logout
    | Touch
    | Initialize

  /** One storage access or one `set` of the memory store. */
  datatype Action =
    | StoreToken(token: Token) | StoreRefresh(token: Token) | DropToken | DropRefresh
    | StoreUser(user: User) | DropUser | StoreLock | DropLock
    | MemToken(token: Token, refreshToken: Option<Token>) | MemNoToken | MemUser(current: Option<User>)
    | MemLocked | MemUnlocked | MemLoggedOut

  datatype Stage = Begin | ReadToken | ReadRefresh | ReadUser | ReadLock | Decide
                 | OrphanToken | OrphanRefresh | Fresh | Loaded

  /** An operation in flight: the actions a writer has left, or where initialize stands and what it has read. */
  datatype Op =
    | Writer(todo: seq<Action>)
    | Init(stage: Stage, token: Option<Token>, refreshToken: Option<Token>, user: Option<User>, locked: bool)

  datatype State = State(web: bool, mem: Memory, disk: Disk, ops: map<nat, Op>)

  const COLD: Memory := Memory(None, None, false, true, false, false, None)

  function PutTokens(token: Token, refreshToken: Option<Token>): seq<Action> {
    [StoreToken(token)] + (if refreshToken.Some? then [StoreRefresh(refreshToken.value)] else [])
    + [MemToken(token, refreshToken)]
  }

  function Program(call: Call): seq<Action>
    requires !call.Initialize?
  {
    match call
    case SetToken(t, r) => PutTokens(t, r)
    case ClearToken => [DropToken, DropRefresh, MemNoToken]
    case SetUser(u) => [StoreUser(u), MemUser(Some(u))]
    case ClearUser => [DropUser, MemUser(None)]
    case Lock => [StoreLock, MemLocked]
    case Unlock(t, r) => (if t.Some? then PutTokens(t.value, r) else []) + [DropLock, MemUnlocked]
    case Logout => [DropToken, DropRefresh, MemLoggedOut]
    case Touch => []
  }

  function OnDisk(d: Disk, a: Action): Disk {
    match a
    case StoreToken(t) => d.(token := Some(t))
    case StoreRefresh(t) => d.(refreshToken := Some(t))
    case DropToken => d.(token := None)
    case DropRefresh => d.(refreshToken := None)
    case StoreUser(u) => d.(user := Some(u))
    case DropUser => d.(user := None)
    case StoreLock => d.(locked := true)
    case DropLock => d.(locked := false)
    case _ => d
  }

  function InMemory(m: Memory, a: Action): Memory {
    match a
    case MemToken(t, r) => m.(token := Some(t), refreshToken := r, isAuthenticated := true)
    case MemNoToken => m.(token := None, refreshToken := None, isAuthenticated := false)
    case MemUser(u) => m.(user := u)
    case MemLocked => m.(needsPin := true)
    case MemUnlocked => m.(needsPin := false, isAuthenticated := true)
    case MemLoggedOut =>
      m.(token := None, refreshToken := None, isAuthenticated := false, hasSession := false, needsPin := false,
         user := None)
    case _ => m
  }

  /** The branch initialize takes on what it has read. */
  function Decided(m: Memory, op: Op): Memory
    requires op.Init?
  {
    if op.token.Some? && op.user.Some? then
      m.(token := op.token, refreshToken := op.refreshToken, user := op.user,
         isAuthenticated := !op.locked, hasSession := true, needsPin := op.locked)
    else if op.refreshToken.Some? && op.user.Some? then
      m.(refreshToken := op.refreshToken, user := op.user, hasSession := true, needsPin := true,
         isAuthenticated := false)
    else m
  }

  function AfterDecide(web: bool, op: Op): Stage
    requires op.Init?
  {
    if op.user.Some? && (op.token.Some? || op.refreshToken.Some?) then Loaded
    else if (op.token.Some? || op.refreshToken.Some?) && !web then OrphanToken
    else Fresh
  }

  datatype Step =
    | Start(id: nat, call: Call)
    | Advance(id: nat)
    | Throw(id: nat)  // the storage access the operation awaits rejects
    | Crash

  function NewOp(call: Call): Op {
    if call.Initialize? then Init(Begin, None, None, None, false) else Writer(Program(call))
  }

  predicate Over(op: Op) {
    op.Writer? && op.todo == []
  }

  predicate Enabled(s: State, step: Step) {
    match step
    case Start(id, _) => id !in s.ops
    case Advance(id) => id in s.ops && !Over(s.ops[id])
    case Throw(id) =>
      id in s.ops && !Over(s.ops[id]) && (s.ops[id].Init? ==> s.ops[id].stage !in {Begin, Fresh, Loaded})
    case Crash => true
  }

  function AdvanceInit(s: State, id: nat, op: Op): State
    requires op.Init?
  {
    match op.stage
    case Begin => s.(mem := s.mem.(isLoading := true), ops := s.ops[id := op.(stage := ReadToken)])
    case ReadToken => s.(ops := s.ops[id := op.(stage := ReadRefresh, token := s.disk.token)])
    case ReadRefresh => s.(ops := s.ops[id := op.(stage := ReadUser, refreshToken := s.disk.refreshToken)])
    case ReadUser => s.(ops := s.ops[id := op.(stage := ReadLock, user := s.disk.user)])
    case ReadLock => s.(ops := s.ops[id := op.(stage := Decide, locked := s.disk.locked)])
    case Decide => s.(mem := Decided(s.mem, op), ops := s.ops[id := op.(stage := AfterDecide(s.web, op))])
    case OrphanToken => s.(disk := s.disk.(token := None), ops := s.ops[id := op.(stage := OrphanRefresh)])
    case OrphanRefresh => s.(disk := s.disk.(refreshToken := None), ops := s.ops[id := op.(stage := Fresh)])
    case Fresh =>
      s.(mem := s.mem.(hasSession := false, token := None, refreshToken := None, needsPin := false),
         ops := s.ops[id := op.(stage := Loaded)])
    case Loaded => s.(mem := s.mem.(isLoading := false), ops := s.ops - {id})
  }

  function Apply(s: State, step: Step): State
    requires Enabled(s, step)
  {
    match step
    case Start(id, call) => s.(ops := s.ops[id := NewOp(call)])
    case Advance(id) =>
      var op := s.ops[id];
      if op.Writer? then
        State(s.web, InMemory(s.mem, op.todo[0]), OnDisk(s.disk, op.todo[0]), s.ops[id := Writer(op.todo[1..])])
      else AdvanceInit(s, id, op)
    case Throw(id) =>
      // initialize catches and still clears isLoading; the others reject to their caller.
      s.(mem := if s.ops[id].Init? then s.mem.(isLoading := false) else s.mem, ops := s.ops - {id})
    case Crash => s.(mem := COLD, ops := map[])
  }

  predicate Runs(s: State, steps: seq<Step>)
    decreases |steps|
  {
    steps == [] || (Enabled(s, steps[0]) && Runs(Apply(s, steps[0]), steps[1..]))
  }

  function Exec(s: State, steps: seq<Step>): State
    requires Runs(s, steps)
    decreases |steps|
  {
    if steps == [] then s else Exec(Apply(s, steps[0]), steps[1..])
  }

  // ---- The lock ----

  /** An initialised store asks for the PIN. */
  predicate AsksPin(s: State) {
    !s.mem.isLoading ==> s.mem.needsPin
  }

  /** The writes that end the lock or the session it guards. */
  predicate Releasing(a: Action) {
    a.DropToken? || a.DropUser? || a.DropLock? || a.MemUnlocked? || a.MemLoggedOut?
  }

  /** The step performs such a write: an unlock or a logout has got that far. */
  predicate Releases(s: State, step: Step)
    requires Enabled(s, step)
  {
    step.Advance? && s.ops[step.id].Writer? && Releasing(s.ops[step.id].todo[0])
  }

  /** Among the actions, dropping the refresh token comes before anything that releases. */
  predicate DropsRefreshFirst(todo: seq<Action>) {
    exists k :: 0 <= k < |todo| && todo[k] == DropRefresh && forall j :: 0 <= j < k ==> !Releasing(todo[j])
  }

  /** A refresh token is stored, and no call under way is about to drop it. */
  predicate RefreshStays(s: State) {
    && s.disk.refreshToken.Some?
    && forall o :: o in s.ops && s.ops[o].Writer? ==> !DropsRefreshFirst(s.ops[o].todo)
  }

  /** What this initialize has read, completed by what is stored, makes it decide to ask for the PIN. */
  predicate SafeReads(s: State, op: Op)
    requires op.Init?
  {
    match op.stage
    case Begin => true
    case ReadToken => true
    case ReadRefresh => op.token.Some? || RefreshStays(s)
    case ReadUser => op.token.Some? || op.refreshToken.Some?
    case ReadLock => op.user.Some? && (op.token.Some? || op.refreshToken.Some?)
    case Decide => op.user.Some? && if op.token.Some? then op.locked else op.refreshToken.Some?
    case Loaded => true
    case _ => false
  }

  /** And, when it has only its finally clause left, memory asks already. */
  predicate SafeInit(s: State, op: Op)
    requires op.Init?
  {
    SafeReads(s, op) && (op.stage == Loaded ==> s.mem.needsPin)
  }

  predicate SessionLocked(d: Disk) {
    d.token.Some? && d.user.Some? && d.locked
  }

  predicate AllReadsSafe(s: State) {
    forall o :: o in s.ops && s.ops[o].Init? ==> SafeReads(s, s.ops[o])
  }

  predicate AllInitsSafe(s: State) {
    forall o :: o in s.ops && s.ops[o].Init? ==> SafeInit(s, s.ops[o])
  }

  /** A session is stored with its lock, and no initialize in flight has read anything that contradicts it. */
  predicate Stored(s: State) {
    SessionLocked(s.disk) && AllReadsSafe(s)
  }

  /** Memory asks for the PIN, or will before the store counts as initialised. */
  predicate Held(s: State) {
    SessionLocked(s.disk) && AllInitsSafe(s) && AsksPin(s)
  }

  /** initialize fails on storage before it, or another call, has restored the lock to memory. */
  predicate Lapses(s: State, step: Step)
    requires Enabled(s, step)
  {
    step.Throw? && s.ops[step.id].Init? && !s.mem.needsPin
  }

  lemma DropsRefreshLater(todo: seq<Action>)
    requires todo != [] && !Releasing(todo[0]) && DropsRefreshFirst(todo[1..])
    ensures DropsRefreshFirst(todo)
  {
    var k :| 0 <= k < |todo| - 1 && todo[1..][k] == DropRefresh && forall j :: 0 <= j < k ==> !Releasing(todo[1..][j]);
    assert todo[k + 1] == DropRefresh;
    assert forall j :: 0 < j <= k ==> todo[j] == todo[1..][j - 1];
  }

  lemma ProgramsRelease(call: Call)
    requires !call.Initialize?
    ensures !DropsRefreshFirst(Program(call))
  {
    var todo := Program(call);
    assert forall k :: 0 <= k < |todo| && todo[k] == DropRefresh ==> k > 0 && Releasing(todo[0]);
  }

  lemma RefreshStaysOn(s: State, step: Step)
    requires Enabled(s, step) && !Releases(s, step) && !step.Crash? && AllReadsSafe(s) && RefreshStays(s)
    ensures RefreshStays(Apply(s, step))
  {
    match step
    case Start(_, call) =>
      if !call.Initialize? {
        ProgramsRelease(call);
      }
    case Throw(_) =>
    case Advance(id) =>
      if s.ops[id].Writer? {
        var todo := s.ops[id].todo;
        assert todo[0] == DropRefresh ==> DropsRefreshFirst(todo);
        if DropsRefreshFirst(todo[1..]) {
          DropsRefreshLater(todo);
        }
      }
  }

  /** The stored lock and the reads of the initializations in flight stay sound, step by step. */
  lemma StepKeepsStored(s: State, step: Step)
    requires Stored(s) && Enabled(s, step) && !Releases(s, step)
    ensures Stored(Apply(s, step))
  {
    if RefreshStays(s) && !step.Crash? {
      RefreshStaysOn(s, step);
    }
  }

  lemma StepHolds(s: State, step: Step)
    requires Held(s) && Enabled(s, step) && !Releases(s, step)
    ensures !Lapses(s, step) ==> Held(Apply(s, step))
    ensures Lapses(s, step) ==> !AsksPin(Apply(s, step))
  {
    StepKeepsStored(s, step);
  }

  /** Every state of the run asks for the PIN. */
  predicate AlwaysAsksPin(s: State, steps: seq<Step>)
    requires Runs(s, steps)
    decreases |steps|
  {
    AsksPin(s) && (steps != [] ==> AlwaysAsksPin(Apply(s, steps[0]), steps[1..]))
  }

  predicate NeverLapses(s: State, steps: seq<Step>)
    requires Runs(s, steps)
    decreases |steps|
  {
    steps != [] ==> !Lapses(s, steps[0]) && NeverLapses(Apply(s, steps[0]), steps[1..])
  }

  /** No unlock or logout gets as far as a write that releases. */
  predicate NeverReleases(s: State, steps: seq<Step>)
    requires Runs(s, steps)
    decreases |steps|
  {
    steps != [] ==> !Releases(s, steps[0]) && NeverReleases(Apply(s, steps[0]), steps[1..])
  }

  /**
   From a held lock, over every run of all the store's calls and of restarts, in
   which no unlock or logout gets as far as a write that releases: every
   initialised state asks for the PIN, unless and only unless an initialize
   fails on storage while memory does not hold the lock.
   */
  lemma {:induction false} LockSurvives(s: State, steps: seq<Step>)
    requires Held(s) && Runs(s, steps) && NeverReleases(s, steps)
    ensures AlwaysAsksPin(s, steps) <==> NeverLapses(s, steps)
    ensures NeverLapses(s, steps) ==> Held(Exec(s, steps))
    decreases |steps|
  {
    if steps != [] {
      StepHolds(s, steps[0]);
      if !Lapses(s, steps[0]) {
        LockSurvives(Apply(s, steps[0]), steps[1..]);
      } else {
        assert !AlwaysAsksPin(Apply(s, steps[0]), steps[1..]);
      }
    }
  }

  /** The stored lock stays in place through restarts and failed accesses, whatever memory says. */
  lemma {:induction false} StoredSurvives(s: State, steps: seq<Step>)
    requires Stored(s) && Runs(s, steps) && NeverReleases(s, steps)
    ensures Stored(Exec(s, steps))
    decreases |steps|
  {
    if steps != [] {
      StepKeepsStored(s, steps[0]);
      StoredSurvives(Apply(s, steps[0]), steps[1..]);
    }
  }

  lemma StoredAfterLock(s: State, id: nat)
    requires s.disk.token.Some? && s.disk.user.Some? && AllReadsSafe(s)
    requires id in s.ops && s.ops[id] == Writer(Program(Lock))
    ensures Stored(Apply(s, Advance(id)))
  {
    assert Program(Lock)[1..] == [MemLocked];
    if RefreshStays(s) {
      RefreshStaysOn(s, Advance(id));
    }
  }

  /** lockSession takes hold with its memory write, or with a crash at any point after its storage write. */
  lemma LockTakesHold(s: State, id: nat, between: seq<Step>, s1: State, s2: State)
    requires s.disk.token.Some? && s.disk.user.Some? && AllReadsSafe(s)
    requires id in s.ops && s.ops[id] == Writer(Program(Lock))
    requires s1 == Apply(s, Advance(id)) && Runs(s1, between) && NeverReleases(s1, between) && s2 == Exec(s1, between)
    requires id in s2.ops && s2.ops[id] == Writer([MemLocked])
    ensures Held(Apply(s2, Advance(id))) && Held(Apply(s2, Crash))
  {
    StoredAfterLock(s, id);
    StoredSurvives(s1, between);
    StepKeepsStored(s2, Advance(id));
  }

  lemma {:induction false} RunsSnoc(s: State, steps: seq<Step>, step: Step)
    requires Runs(s, steps) && Enabled(Exec(s, steps), step)
    ensures Runs(s, steps + [step]) && Exec(s, steps + [step]) == Apply(Exec(s, steps), step)
    decreases |steps|
  {
    if steps == [] {
      assert [step][1..] == [];
      assert steps + [step] == [step];
    } else {
      RunsSnoc(Apply(s, steps[0]), steps[1..], step);
      assert (steps + [step])[1..] == steps[1..] + [step];
    }
  }

  /** The exception is real: restart, and let initialize fail on its first read. */
  lemma LapseExample(s: State)
    requires Held(s)
    ensures var steps := [Crash, Start(0, Initialize), Advance(0), Throw(0)];
            Runs(s, steps) && !AsksPin(Exec(s, steps)) && Exec(s, steps).disk == s.disk
  {
    var steps := [Crash, Start(0, Initialize), Advance(0), Throw(0)];
    RunsSnoc(s, [], Crash);
    RunsSnoc(s, [Crash], Start(0, Initialize));
    RunsSnoc(s, [Crash] + [Start(0, Initialize)], Advance(0));
    RunsSnoc(s, [Crash] + [Start(0, Initialize)] + [Advance(0)], Throw(0));
    assert [] + [Crash] == [Crash];
    assert [Crash] + [Start(0, Initialize)] + [Advance(0)] + [Throw(0)] == steps;
  }

  // ---- An initialize that read before the lock ----

  /** Left alone, this initialize ends with an initialised store that does not ask for the PIN. */
  predicate Doomed(s: State, op: Op) {
    op.Init? && match op.stage
      case Begin => false
      case ReadToken => false
      case ReadRefresh => op.token.None? && s.disk.refreshToken.None?
      case _ => !SafeInit(s, op)
  }

  function Rank(stage: Stage): nat {
    match stage
    case Begin => 9 case ReadToken => 8 case ReadRefresh => 7 case ReadUser => 6 case ReadLock => 5
    case Decide => 4 case OrphanToken => 3 case OrphanRefresh => 2 case Fresh => 1 case Loaded => 0
  }

  /** The run is made of calls already under way, none of which fails or releases. */
  predicate Undisturbed(s: State, steps: seq<Step>) {
    Runs(s, steps) && NeverReleases(s, steps) && forall k :: 0 <= k < |steps| ==> steps[k].Advance?
  }

  lemma UndisturbedCons(s: State, id: nat, rest: seq<Step>)
    requires Enabled(s, Advance(id)) && !Releases(s, Advance(id)) && Undisturbed(Apply(s, Advance(id)), rest)
    ensures Undisturbed(s, [Advance(id)] + rest)
    ensures Exec(s, [Advance(id)] + rest) == Exec(Apply(s, Advance(id)), rest)
  {
    RunsCons(s, Advance(id), rest);
    assert ([Advance(id)] + rest)[1..] == rest;
  }

  lemma {:induction false} UndisturbedConcat(s: State, xs: seq<Step>, ys: seq<Step>)
    requires Undisturbed(s, xs) && Undisturbed(Exec(s, xs), ys)
    ensures Undisturbed(s, xs + ys) && Exec(s, xs + ys) == Exec(Exec(s, xs), ys)
    decreases |xs|
  {
    if xs == [] {
      assert xs + ys == ys;
    } else {
      UndisturbedConcat(Apply(s, xs[0]), xs[1..], ys);
      UndisturbedCons(s, xs[0].id, xs[1..] + ys);
      assert xs + ys == [xs[0]] + (xs[1..] + ys);
    }
  }

  lemma RunsCons(s: State, step: Step, rest: seq<Step>)
    requires Enabled(s, step) && Runs(Apply(s, step), rest)
    ensures Runs(s, [step] + rest) && Exec(s, [step] + rest) == Exec(Apply(s, step), rest)
  {
    assert ([step] + rest)[1..] == rest;
  }

  lemma DoomedAdvances(s: State, id: nat)
    requires id in s.ops && Doomed(s, s.ops[id]) && s.ops[id].stage != Loaded
    ensures var s' := Apply(s, Advance(id));
            id in s'.ops && Doomed(s', s'.ops[id]) && Rank(s'.ops[id].stage) < Rank(s.ops[id].stage)
  {
  }

  lemma {:induction false} DoomedLapses(s: State, id: nat) returns (steps: seq<Step>)
    requires id in s.ops && Doomed(s, s.ops[id])
    ensures Undisturbed(s, steps) && !AsksPin(Exec(s, steps))
    decreases Rank(s.ops[id].stage)
  {
    var rest := [];
    if s.ops[id].stage != Loaded {
      DoomedAdvances(s, id);
      rest := DoomedLapses(Apply(s, Advance(id)), id);
    }
    UndisturbedCons(s, id, rest);
    steps := [Advance(id)] + rest;
  }

  /** A writer that is about to drop the refresh token does so, and initialize `id` has not moved. */
  lemma {:induction false} WriterDrops(s: State, w: nat, id: nat, k: nat) returns (steps: seq<Step>)
    requires w in s.ops && s.ops[w].Writer? && k < |s.ops[w].todo| && s.ops[w].todo[k] == DropRefresh
    requires forall j :: 0 <= j < k ==> !Releasing(s.ops[w].todo[j])
    requires id in s.ops && s.ops[id].Init?
    ensures Undisturbed(s, steps)
    ensures var s' := Exec(s, steps);
            s'.disk.refreshToken.None? && id in s'.ops && s'.ops[id] == s.ops[id]
    decreases k
  {
    var rest, s1 := [], Apply(s, Advance(w));
    if k > 0 {
      assert s1.ops[w].todo[k - 1] == DropRefresh;
      rest := WriterDrops(s1, w, id, k - 1);
    }
    UndisturbedCons(s, w, rest);
    steps := [Advance(w)] + rest;
  }

  /**
   From every unsafe initialize in flight, calls under way alone lead to an initialised
   store that does not ask for the PIN.
   */
  lemma UnsafeInitLapses(s: State, id: nat) returns (steps: seq<Step>)
    requires id in s.ops && s.ops[id].Init? && !SafeInit(s, s.ops[id])
    ensures Undisturbed(s, steps) && !AsksPin(Exec(s, steps))
  {
    if Doomed(s, s.ops[id]) {
      steps := DoomedLapses(s, id);
    } else {
      var w :| w in s.ops && s.ops[w].Writer? && DropsRefreshFirst(s.ops[w].todo);
      var todo := s.ops[w].todo;
      var k :| 0 <= k < |todo| && todo[k] == DropRefresh && forall j :: 0 <= j < k ==> !Releasing(todo[j]);
      var drop := WriterDrops(s, w, id, k);
      var rest := DoomedLapses(Exec(s, drop), id);
      UndisturbedConcat(s, drop, rest);
      steps := drop + rest;
    }
  }

  lemma {:induction false} RunsConcat(s: State, xs: seq<Step>, ys: seq<Step>)
    requires Runs(s, xs) && Runs(Exec(s, xs), ys)
    ensures Runs(s, xs + ys) && Exec(s, xs + ys) == Exec(Exec(s, xs), ys)
    decreases |xs|
  {
    if xs == [] {
      assert xs + ys == ys;
    } else {
      RunsConcat(Apply(s, xs[0]), xs[1..], ys);
      RunsCons(s, xs[0], xs[1..] + ys);
      assert xs + ys == [xs[0]] + (xs[1..] + ys);
    }
  }

  lemma {:induction false} AlwaysAsksAtEnd(s: State, steps: seq<Step>)
    requires Runs(s, steps) && AlwaysAsksPin(s, steps)
    ensures AsksPin(Exec(s, steps))
    decreases |steps|
  {
    if steps != [] {
      AlwaysAsksAtEnd(Apply(s, steps[0]), steps[1..]);
    }
  }

  lemma {:induction false} AdvancesNeverLapse(s: State, steps: seq<Step>)
    requires Undisturbed(s, steps)
    ensures NeverLapses(s, steps)
    decreases |steps|
  {
    if steps != [] {
      AdvancesNeverLapse(Apply(s, steps[0]), steps[1..]);
    }
  }

  /** No unlock or logout releases, and no initialize fails while memory does not hold the lock. */
  predicate KeepsThroughout(s: State, steps: seq<Step>) {
    Runs(s, steps) && NeverReleases(s, steps) && NeverLapses(s, steps)
  }

  /**
   With a locked session stored, whatever calls are under way: every run that
   releases nothing, and in which no initialize fails, asks for the PIN in all
   its initialised states, if and only if every initialize in flight is safe.
   */
  lemma LockHoldsExactly(s: State)
    requires SessionLocked(s.disk) && AsksPin(s)
    ensures (forall steps :: KeepsThroughout(s, steps) ==> AlwaysAsksPin(s, steps)) <==> AllInitsSafe(s)
  {
    if id :| id in s.ops && s.ops[id].Init? && !SafeInit(s, s.ops[id]) {
      var steps := UnsafeInitLapses(s, id);
      AdvancesNeverLapse(s, steps);
      assert KeepsThroughout(s, steps);
      if AlwaysAsksPin(s, steps) {
        AlwaysAsksAtEnd(s, steps);
      }
    } else {
      forall steps | KeepsThroughout(s, steps) ensures AlwaysAsksPin(s, steps) {
        LockSurvives(s, steps);
      }
    }
  }

  // ---- An unlock or a logout that fails before it releases anything ----

  /** The call is started, performs `n` of its actions, and then its next access fails or the process dies. */
  function FailedCall(id: nat, call: Call, n: nat, crash: bool): seq<Step> {
    [Start(id, call)] + CutShort(id, n, crash)
  }

  function CutShort(id: nat, n: nat, crash: bool): seq<Step> {
    if n == 0 then [if crash then Crash else Throw(id)] else [Advance(id)] + CutShort(id, n - 1, crash)
  }

  lemma {:induction false} CutShortHolds(s: State, id: nat, n: nat, crash: bool)
    requires Held(s) && id in s.ops && s.ops[id].Writer? && n < |s.ops[id].todo|
    requires forall j :: 0 <= j < n ==> !Releasing(s.ops[id].todo[j])
    ensures Runs(s, CutShort(id, n, crash)) && Held(Exec(s, CutShort(id, n, crash)))
    decreases n
  {
    if n == 0 {
      var last := if crash then Crash else Throw(id);
      StepHolds(s, last);
      RunsCons(s, last, []);
      assert CutShort(id, 0, crash) == [last] + [];
    } else {
      StepHolds(s, Advance(id));
      CutShortHolds(Apply(s, Advance(id)), id, n - 1, crash);
      RunsCons(s, Advance(id), CutShort(id, n - 1, crash));
    }
  }

  /**
   An unlock with an accepted PIN that fails before it deletes the lock key, a
   logout that fails at its first delete, and any other call cut short before
   it releases anything: the lock is still held.
   */
  lemma FailedCallHolds(s: State, id: nat, call: Call, n: nat, crash: bool)
    requires Held(s) && id !in s.ops && !call.Initialize? && n < |Program(call)|
    requires forall j :: 0 <= j < n ==> !Releasing(Program(call)[j])
    ensures Runs(s, FailedCall(id, call, n, crash)) && Held(Exec(s, FailedCall(id, call, n, crash)))
  {
    StepHolds(s, Start(id, call));
    CutShortHolds(Apply(s, Start(id, call)), id, n, crash);
    RunsCons(s, Start(id, call), CutShort(id, n, crash));
  }

  /** Of an unlock, that is everything up to and including the deletion of the lock key. */
  lemma FailedUnlockHolds(s: State, id: nat, issued: Option<Token>, issuedRefresh: Option<Token>, n: nat, crash: bool)
    requires Held(s) && id !in s.ops && n + 2 <= |Program(Unlock(issued, issuedRefresh))|
    ensures var steps := FailedCall(id, Unlock(issued, issuedRefresh), n, crash);
            Runs(s, steps) && Held(Exec(s, steps))
  {
    FailedCallHolds(s, id, Unlock(issued, issuedRefresh), n, crash);
  }

  function UpToLockRead(): seq<Step> {
    [Start(0, Initialize)] + [Advance(0)] + [Advance(0)] + [Advance(0)] + [Advance(0)]
  }

  lemma InitializeReads(s: State)
    requires s.ops == map[]
    ensures && Runs(s, UpToLockRead())
            && Exec(s, UpToLockRead()) == State(s.web, s.mem.(isLoading := true), s.disk,
                 map[0 := Init(ReadLock, s.disk.token, s.disk.refreshToken, s.disk.user, false)])
  {
    var steps := [Start(0, Initialize)];
    assert [] + steps == steps;
    RunsSnoc(s, [], Start(0, Initialize));
    RunsSnoc(s, steps, Advance(0));
    RunsSnoc(s, steps + [Advance(0)], Advance(0));
    RunsSnoc(s, steps + [Advance(0)] + [Advance(0)], Advance(0));
    RunsSnoc(s, steps + [Advance(0)] + [Advance(0)] + [Advance(0)], Advance(0));
  }

  /** The read of the lock key, a whole lockSession, and the rest of initialize. */
  function LockAfterRead(): seq<Step> {
    [Advance(0)] + ([Start(1, Lock)] + ([Advance(1)] + ([Advance(1)] + ([Advance(0)] + ([Advance(0)] + [])))))
  }

  lemma LockAfterReadRuns(s: State)
    requires s.disk.token.Some? && s.disk.user.Some? && !s.disk.locked
    requires s.ops == map[0 := Init(ReadLock, s.disk.token, s.disk.refreshToken, s.disk.user, false)]
    ensures Runs(s, LockAfterRead())
    ensures SessionLocked(Exec(s, LockAfterRead()).disk) && !AsksPin(Exec(s, LockAfterRead()))
  {
    var s1 := Apply(s, Advance(0));
    var s2 := Apply(s1, Start(1, Lock));
    var s3 := Apply(s2, Advance(1));
    assert Program(Lock)[1..] == [MemLocked];
    var s4 := Apply(s3, Advance(1));
    var s5 := Apply(s4, Advance(0));
    RunsCons(s5, Advance(0), []);
    RunsCons(s4, Advance(0), [Advance(0)] + []);
    RunsCons(s3, Advance(1), [Advance(0)] + ([Advance(0)] + []));
    RunsCons(s2, Advance(1), [Advance(1)] + ([Advance(0)] + ([Advance(0)] + [])));
    RunsCons(s1, Start(1, Lock), [Advance(1)] + ([Advance(1)] + ([Advance(0)] + ([Advance(0)] + []))));
    RunsCons(s, Advance(0), LockAfterRead()[1..]);
    assert LockAfterRead() == [Advance(0)] + LockAfterRead()[1..];
  }

  /**
   Such an initialize occurs on a native platform, where storage is
   asynchronous: from an idle, unlocked session, one that reads the lock key
   just before lockSession writes it leaves the disk locked and an initialised
   store that does not ask, with no restart and no failure.
   */
  lemma StaleReadUnlocks(s: State)
    requires !s.web && s.ops == map[] && s.disk.token.Some? && s.disk.user.Some? && !s.disk.locked
    ensures var steps := UpToLockRead() + LockAfterRead();
            Runs(s, steps) && SessionLocked(Exec(s, steps).disk) && !AsksPin(Exec(s, steps))
  {
    InitializeReads(s);
    LockAfterReadRuns(Exec(s, UpToLockRead()));
    RunsConcat(s, UpToLockRead(), LockAfterRead());
  }

  // ---- Who is authenticated while the lock is stored ----

  predicate WritesToken(s: State, step: Step)
    requires Enabled(s, step)
  {
    step.Advance? && s.ops[step.id].Writer? && s.ops[step.id].todo[0].MemToken?
  }

  /** The step ends what an earlier token write gave: a restart, the decision of an initialize, or a cleared token. */
  predicate EndsAuthentication(s: State, step: Step)
    requires Enabled(s, step)
  {
    || step.Crash?
    || (step.Advance? && s.ops[step.id].Init? && s.ops[step.id].stage == Decide)
    || (step.Advance? && s.ops[step.id].Writer? && s.ops[step.id].todo[0].MemNoToken?)
  }

  /** A token was written to memory, and nothing since has ended it. */
  predicate TokenInForce(s: State, steps: seq<Step>, before: bool)
    requires Runs(s, steps)
    decreases |steps|
  {
    if steps == [] then before
    else
      TokenInForce(Apply(s, steps[0]), steps[1..],
                   WritesToken(s, steps[0]) || (before && !EndsAuthentication(s, steps[0])))
  }

  /**
   While the lock is stored and nothing releases it, a state is authenticated
   if and only if a token was written to memory with no restart, no decision of
   an initialize and no cleared token since. No initialize authenticates.
   */
  lemma {:induction false} AuthenticatedExactly(s: State, steps: seq<Step>)
    requires Stored(s) && Runs(s, steps) && NeverReleases(s, steps)
    ensures Exec(s, steps).mem.isAuthenticated <==> TokenInForce(s, steps, s.mem.isAuthenticated)
    decreases |steps|
  {
    if steps != [] {
      StepKeepsStored(s, steps[0]);
      StepAuthenticates(s, steps[0]);
      AuthenticatedExactly(Apply(s, steps[0]), steps[1..]);
    }
  }

  lemma StepAuthenticates(s: State, step: Step)
    requires Stored(s) && Enabled(s, step) && !Releases(s, step)
    ensures Apply(s, step).mem.isAuthenticated
            <==> WritesToken(s, step) || (s.mem.isAuthenticated && !EndsAuthentication(s, step))
  {
  }

  /** After a restart with the lock stored, nobody is authenticated until a token is written. */
  lemma {:induction false} RestartNeedsToken(s: State, steps: seq<Step>)
    requires Stored(s) && Runs(Apply(s, Crash), steps) && NeverReleases(Apply(s, Crash), steps)
    requires !TokenInForce(Apply(s, Crash), steps, false)
    ensures !Exec(Apply(s, Crash), steps).mem.isAuthenticated
  {
    StepKeepsStored(s, Crash);
    AuthenticatedExactly(Apply(s, Crash), steps);
  }

  /** A later initialize takes the authentication back: a token write since the restart is not enough. */
  lemma InitializeDeauthenticates(s: State)
    requires s.ops == map[] && SessionLocked(s.disk)
    ensures var steps := UpToLockRead() + [Advance(0)] + [Advance(0)];
            Runs(s, steps) && !Exec(s, steps).mem.isAuthenticated
  {
    InitializeReads(s);
    RunsSnoc(s, UpToLockRead(), Advance(0));
    RunsSnoc(s, UpToLockRead() + [Advance(0)], Advance(0));
  }

  /** The store as its code is written; every call, left alone, is a run of the steps above. */
  class AuthStore {
    const web: bool
    var mem: Memory
    var disk: Disk

    ghost predicate At(s0: State, trace: seq<Step>, op: Op)
      reads this
    {
      Runs(s0, trace) && Exec(s0, trace) == State(web, mem, disk, map[0 := op])
    }

    ghost function Idle(): State
      reads this
    {
      State(web, mem, disk, map[])
    }

    constructor (web: bool, disk: Disk)
      ensures this.web == web && this.disk == disk && mem == COLD
    {
      this.web, this.disk, mem := web, disk, COLD;
    }

    /** One storage access or `set` of a writer. */
    method Do(ghost s0: State, ghost trace: seq<Step>, action: Action, ghost rest: seq<Action>)
      returns (ghost trace': seq<Step>)
      requires At(s0, trace, Writer([action] + rest))
      modifies this
      ensures mem == InMemory(old(mem), action) && disk == OnDisk(old(disk), action)
      ensures At(s0, trace', Writer(rest))
    {
      ghost var s := Exec(s0, trace);
      RunsSnoc(s0, trace, Advance(0));
      trace' := trace + [Advance(0)];
      mem, disk := InMemory(mem, action), OnDisk(disk, action);
      assert ([action] + rest)[1..] == rest;
      assert s.ops[0 := Writer(rest)] == map[0 := Writer(rest)];
    }

    /** setToken with a token. */
    method SetTokens(ghost s0: State, ghost trace: seq<Step>, token: Token, refreshToken: Option<Token>,
                     ghost rest: seq<Action>)
      returns (ghost trace': seq<Step>)
      requires At(s0, trace, Writer(PutTokens(token, refreshToken) + rest))
      modifies this
      ensures At(s0, trace', Writer(rest))
      ensures disk == old(disk).(token := Some(token),
                                 refreshToken := if refreshToken.Some? then refreshToken else old(disk).refreshToken)
      ensures mem == old(mem).(token := Some(token), refreshToken := refreshToken, isAuthenticated := true)
    {
      ghost var last := [MemToken(token, refreshToken)] + rest;
      ghost var mid := (if refreshToken.Some? then [StoreRefresh(refreshToken.value)] else []) + last;
      assert PutTokens(token, refreshToken) + rest == [StoreToken(token)] + mid;
      trace' := Do(s0, trace, StoreToken(token), mid);
      if refreshToken.Some? {
        trace' := Do(s0, trace', StoreRefresh(refreshToken.value), last);
      } else {
        assert mid == last;
      }
      trace' := Do(s0, trace', MemToken(token, refreshToken), rest);
    }

    /** setToken with null. */
    method ClearTokens() returns (ghost trace: seq<Step>)
      modifies this
      ensures At(old(Idle()), trace, Writer([]))
      ensures disk == old(disk).(token := None, refreshToken := None)
      ensures mem == old(mem).(token := None, refreshToken := None, isAuthenticated := false)
    {
      ghost var s0 := Idle();
      trace := Started(ClearToken);
      assert [DropToken] + [DropRefresh, MemNoToken] == Program(ClearToken);
      assert [DropRefresh] + [MemNoToken] == [DropRefresh, MemNoToken] && [MemNoToken] + [] == [MemNoToken];
      trace := Do(s0, trace, DropToken, [DropRefresh, MemNoToken]);
      trace := Do(s0, trace, DropRefresh, [MemNoToken]);
      trace := Do(s0, trace, MemNoToken, []);
    }

    /** setUser with a user or with null. */
    method PutUser(user: Option<User>) returns (ghost trace: seq<Step>)
      modifies this
      ensures At(old(Idle()), trace, Writer([]))
      ensures disk == old(disk).(user := user) && mem == old(mem).(user := user)
    {
      ghost var s0 := Idle();
      assert [MemUser(user)] + [] == [MemUser(user)];
      if user.Some? {
        trace := Started(SetUser(user.value));
        assert [StoreUser(user.value)] + [MemUser(user)] == Program(SetUser(user.value));
        trace := Do(s0, trace, StoreUser(user.value), [MemUser(user)]);
      } else {
        trace := Started(ClearUser);
        assert [DropUser] + [MemUser(user)] == Program(ClearUser);
        trace := Do(s0, trace, DropUser, [MemUser(user)]);
      }
      trace := Do(s0, trace, MemUser(user), []);
    }

    lemma Started(call: Call) returns (trace: seq<Step>)
      ensures At(Idle(), trace, NewOp(call))
    {
      RunsSnoc(Idle(), [], Start(0, call));
      trace := [] + [Start(0, call)];
    }

    method LockSession() returns (ghost trace: seq<Step>)
      modifies this
      ensures At(old(Idle()), trace, Writer([]))
      ensures disk == old(disk).(locked := true) && mem == old(mem).(needsPin := true)
    {
      ghost var s0 := Idle();
      trace := Started(Lock);
      assert [StoreLock] + [MemLocked] == Program(Lock) && [MemLocked] + [] == [MemLocked];
      trace := Do(s0, trace, StoreLock, [MemLocked]);
      trace := Do(s0, trace, MemLocked, []);
    }

    /** unlockWithPin, after the server has answered; a rejected PIN throws before any write. */
    method UnlockWithPin(accepted: bool, issued: Option<Token>, issuedRefresh: Option<Token>)
      returns (ok: bool, ghost trace: seq<Step>)
      modifies this
      ensures ok == accepted
      ensures ok ==> At(old(Idle()), trace, Writer([]))
      ensures ok && issued.None? ==> disk == old(disk).(locked := false)
                                     && mem == old(mem).(needsPin := false, isAuthenticated := true)
      ensures ok && issued.Some? ==>
                && disk == Disk(issued, if issuedRefresh.Some? then issuedRefresh else old(disk).refreshToken,
                                old(disk).user, false)
                && mem == old(mem).(token := issued, refreshToken := issuedRefresh, needsPin := false,
                                    isAuthenticated := true)
      ensures !ok ==> mem == old(mem) && disk == old(disk)
    {
      ok := accepted;
      if !ok { trace := []; return; }
      ghost var s0 := Idle();
      trace := Started(Unlock(issued, issuedRefresh));
      if issued.Some? {
        trace := SetTokens(s0, trace, issued.value, issuedRefresh, [DropLock, MemUnlocked]);
      } else {
        assert Program(Unlock(issued, issuedRefresh)) == [DropLock, MemUnlocked];
      }
      assert [DropLock] + [MemUnlocked] == [DropLock, MemUnlocked] && [MemUnlocked] + [] == [MemUnlocked];
      trace := Do(s0, trace, DropLock, [MemUnlocked]);
      trace := Do(s0, trace, MemUnlocked, []);
    }

    /** updateActivity touches neither the stored keys nor what memory says of the session. */
    method UpdateActivity() returns (ghost trace: seq<Step>)
      modifies this
      ensures At(old(Idle()), trace, Writer([])) && mem == old(mem) && disk == old(disk)
    {
      trace := Started(Touch);
    }

    /** logout: the lock key and the stored user stay on disk. */
    method LogoutSession() returns (ghost trace: seq<Step>)
      modifies this
      ensures At(old(Idle()), trace, Writer([]))
      ensures disk == old(disk).(token := None, refreshToken := None)
      ensures mem == Memory(None, None, false, old(mem).isLoading, false, false, None)
    {
      ghost var s0 := Idle();
      trace := Started(Logout);
      assert [DropToken] + [DropRefresh, MemLoggedOut] == Program(Logout);
      assert [DropRefresh] + [MemLoggedOut] == [DropRefresh, MemLoggedOut] && [MemLoggedOut] + [] == [MemLoggedOut];
      trace := Do(s0, trace, DropToken, [DropRefresh, MemLoggedOut]);
      trace := Do(s0, trace, DropRefresh, [MemLoggedOut]);
      trace := Do(s0, trace, MemLoggedOut, []);
    }

    /**
     What a completed initialize leaves: the lock is asked for exactly when a session is
     stored, and locked or without a token.
     */
    method InitializeStore() returns (ghost trace: seq<Step>)
      modifies this
      ensures Runs(old(Idle()), trace) && Exec(old(Idle()), trace) == Idle()
      ensures !mem.isLoading
      ensures mem.hasSession <==> old(disk).user.Some? && (old(disk).token.Some? || old(disk).refreshToken.Some?)
      ensures mem.needsPin <==> mem.hasSession && (old(disk).locked || old(disk).token.None?)
      ensures mem.hasSession ==>
                && (mem.isAuthenticated <==> old(disk).token.Some? && !old(disk).locked)
                && mem.user == old(disk).user && mem.refreshToken == old(disk).refreshToken
                && mem.token == if old(disk).token.Some? then old(disk).token else old(mem).token
      ensures !mem.hasSession ==>
                && mem.token == None && mem.refreshToken == None
                && mem.user == old(mem).user && mem.isAuthenticated == old(mem).isAuthenticated
      ensures disk == if mem.hasSession || web then old(disk) else old(disk).(token := None, refreshToken := None)
    {
      ghost var s0 := Idle();
      ghost var op := NewOp(Initialize);
      trace := Started(Initialize);
      trace, op := Tick(s0, trace, op);
      mem := mem.(isLoading := true);
      trace, op := Tick(s0, trace, op);
      var token := disk.token;
      trace, op := Tick(s0, trace, op);
      var refreshToken := disk.refreshToken;
      trace, op := Tick(s0, trace, op);
      var user := disk.user;
      trace, op := Tick(s0, trace, op);
      var locked := disk.locked;
      trace := Restore(s0, trace, op, token, refreshToken, user, locked);
    }

    /** The branches of initialize on what it has read, and its finally clause. */
    method Restore(ghost s0: State, ghost trace: seq<Step>, ghost read: Op,
                   token: Option<Token>, refreshToken: Option<Token>, user: Option<User>, locked: bool)
      returns (ghost trace': seq<Step>)
      requires read == Init(Decide, token, refreshToken, user, locked) && At(s0, trace, read)
      modifies this
      ensures Runs(s0, trace') && Exec(s0, trace') == Idle()
      ensures !mem.isLoading
      ensures mem.hasSession <==> user.Some? && (token.Some? || refreshToken.Some?)
      ensures mem.needsPin <==> mem.hasSession && (locked || token.None?)
      ensures mem.hasSession ==>
                && (mem.isAuthenticated <==> token.Some? && !locked)
                && mem.user == user && mem.refreshToken == refreshToken
                && mem.token == if token.Some? then token else old(mem).token
      ensures !mem.hasSession ==>
                && mem.token == None && mem.refreshToken == None
                && mem.user == old(mem).user && mem.isAuthenticated == old(mem).isAuthenticated
      ensures disk == if mem.hasSession || web || (token.None? && refreshToken.None?) then old(disk)
                      else old(disk).(token := None, refreshToken := None)
    {
      ghost var op := read;
      trace', op := Tick(s0, trace, op);
      if token.Some? && user.Some? {
        mem := mem.(token := token, refreshToken := refreshToken, user := user,
                    isAuthenticated := !locked, hasSession := true, needsPin := locked);
      } else if refreshToken.Some? && user.Some? {
        mem := mem.(refreshToken := refreshToken, user := user, hasSession := true, needsPin := true,
                    isAuthenticated := false);
      } else {
        trace', op := StartFresh(s0, trace', op, (token.Some? || refreshToken.Some?) && !web);
      }
      trace' := Finish(s0, trace', op);
      mem := mem.(isLoading := false);
    }

    /** No session to restore: tokens without a user are dropped on a native platform. */
    method StartFresh(ghost s0: State, ghost trace: seq<Step>, ghost op: Op, orphans: bool)
      returns (ghost trace': seq<Step>, ghost op': Op)
      requires At(s0, trace, op) && op.Init? && op.stage == if orphans then OrphanToken else Fresh
      modifies this
      ensures At(s0, trace', op') && op'.Init? && op'.stage == Loaded
      ensures mem == old(mem).(hasSession := false, token := None, refreshToken := None, needsPin := false)
      ensures disk == if orphans then old(disk).(token := None, refreshToken := None) else old(disk)
    {
      trace', op' := trace, op;
      if orphans {
        trace', op' := Tick(s0, trace', op');
        disk := disk.(token := None);
        trace', op' := Tick(s0, trace', op');
        disk := disk.(refreshToken := None);
      }
      trace', op' := Tick(s0, trace', op');
      mem := mem.(hasSession := false, token := None, refreshToken := None, needsPin := false);
    }

    /** The protocol's side of one statement of initialize. */
    lemma Tick(s0: State, trace: seq<Step>, op: Op) returns (trace': seq<Step>, op': Op)
      requires At(s0, trace, op) && op.Init? && op.stage != Loaded
      ensures var s' := AdvanceInit(State(web, mem, disk, map[0 := op]), 0, op);
              && Runs(s0, trace') && Exec(s0, trace') == s'
              && 0 in s'.ops && op' == s'.ops[0] && s'.ops == map[0 := op']
    {
      RunsSnoc(s0, trace, Advance(0));
      trace' := trace + [Advance(0)];
      op' := Exec(s0, trace').ops[0];
    }

    lemma Finish(s0: State, trace: seq<Step>, op: Op) returns (trace': seq<Step>)
      requires At(s0, trace, op) && op.Init? && op.stage == Loaded
      ensures Runs(s0, trace') && Exec(s0, trace') == State(web, mem.(isLoading := false), disk, map[])
    {
      RunsSnoc(s0, trace, Advance(0));
      trace' := trace + [Advance(0)];
      assert map[0 := op] - {0} == map[];
    }
  }
}
