/**
 The reset-token lifecycle of staff accounts (admin/services/admin.service.ts).
 A reset looks its token up, awaits the password hash and then updates the row
 by id, so resets interleave with every other operation.
 */
module ResetTokens {
  import opened Basics

  type Id = string
  type Token = string

  const DAY_MS: int := 24 * 60 * 60 * 1000

  datatype Staff = Staff(active: bool, token: Option<Token>, expiry: int)

  datatype Issue = Issue(staff: Id, token: Token)

  /** A reset that has found its staff row and is hashing the new password. */
  datatype Reset = Reset(staff: Id, token: Token)

  /** `issued` and `used` are the history of tokens handed out and of successful resets. */
  datatype State = State(staff: map<Id, Staff>, issued: seq<Issue>, resets: map<nat, Reset>, used: seq<Reset>)

  datatype Step =
    | CreateStaff(id: Id, token: Token, now: int)
    | Request(id: Id, token: Token, now: int)
    | Find(h: nat, id: Id, token: Token, now: int)
    | Finish(h: nat)
    | SetActive(id: Id, active: bool)
    | Delete(id: Id)

  predicate FreshToken(s: State, token: Token) {
    forall k :: 0 <= k < |s.issued| ==> s.issued[k].token != token
  }

  predicate Enabled(s: State, step: Step) {
    match step
    case CreateStaff(id, token, _) => id !in s.staff && FreshToken(s, token)
    case Request(id, token, _) => id in s.staff && FreshToken(s, token)
    case Find(h, id, token, now) =>
      && h !in s.resets && id in s.staff
      && s.staff[id].token == Some(token) && s.staff[id].active && s.staff[id].expiry > now
    case Finish(h) => h in s.resets && s.resets[h].staff in s.staff
    case SetActive(id, _) => id in s.staff
    case Delete(id) => id in s.staff
  }

  function Apply(s: State, step: Step): State
    requires Enabled(s, step)
  {
    match step
    case CreateStaff(id, token, now) =>
      s.(staff := s.staff[id := Staff(true, Some(token), now + DAY_MS)], issued := s.issued + [Issue(id, token)])
    case Request(id, token, now) =>
      s.(staff := s.staff[id := s.staff[id].(token := Some(token), expiry := now + DAY_MS)],
         issued := s.issued + [Issue(id, token)])
    case Find(h, id, token, _) => s.(resets := s.resets[h := Reset(id, token)])
    case Finish(h) =>
      var r := s.resets[h];
      s.(staff := s.staff[r.staff := s.staff[r.staff].(token := None, active := true)],
         resets := s.resets - {h}, used := s.used + [r])
    case SetActive(id, active) => s.(staff := s.staff[id := s.staff[id].(active := active)])
    case Delete(id) => s.(staff := s.staff - {id})
  }

  predicate Runs(s: State, steps: seq<Step>)
    decreases |steps|
  {
    steps == [] || (Enabled(s, steps[0]) && Runs(Apply(s, steps[0]), steps[1..]))
  }

  function Exec(s: State, steps: seq<Step>): State
    requires Runs(s, steps)
    decreases |steps|
  {
    if steps == [] then s else Exec(Apply(s, steps[0]), steps[1..])
  }

  const INIT: State := State(map[], [], map[], [])

  predicate LatestIssue(issued: seq<Issue>, k: nat, id: Id)
    requires k < |issued|
  {
    issued[k].staff == id && forall j :: k < j < |issued| ==> issued[j].staff != id
  }

  /** The token is the last one issued to this staff member. */
  predicate Latest(s: State, id: Id, token: Token) {
    exists k :: 0 <= k < |s.issued| && s.issued[k].token == token && LatestIssue(s.issued, k, id)
  }

  predicate Used(s: State, token: Token) {
    exists k :: 0 <= k < |s.used| && s.used[k].token == token
  }

  predicate UsedOnce(s: State) {
    forall j, k :: 0 <= j < k < |s.used| ==> s.used[j].token != s.used[k].token
  }

  predicate IssuedTo(s: State, id: Id, token: Token) {
    exists k :: 0 <= k < |s.issued| && s.issued[k] == Issue(id, token)
  }

  predicate IssuedOnce(s: State) {
    forall j, k :: 0 <= j < k < |s.issued| ==> s.issued[j].token != s.issued[k].token
  }

  /** A stored token is its owner's latest and has not been used; every token in play was issued to its staff member. */
  predicate Inv(s: State) {
    && IssuedOnce(s)
    && (forall id :: id in s.staff && s.staff[id].token.Some? ==> Stored(s, id, s.staff[id].token.value))
    && (forall h :: h in s.resets ==> IssuedTo(s, s.resets[h].staff, s.resets[h].token))
    && (forall k :: 0 <= k < |s.used| ==> IssuedTo(s, s.used[k].staff, s.used[k].token))
  }

  predicate Stored(s: State, id: Id, token: Token) {
    Latest(s, id, token) && !Used(s, token)
  }

  /** The row a finishing reset updates still holds the token it was found by. */
  predicate Current(s: State, h: nat) {
    h in s.resets && s.resets[h].staff in s.staff && s.staff[s.resets[h].staff].token == Some(s.resets[h].token)
  }

  lemma LatestIsIssued(s: State, id: Id, token: Token)
    requires Latest(s, id, token)
    ensures IssuedTo(s, id, token)
  {
    var k :| 0 <= k < |s.issued| && s.issued[k].token == token && LatestIssue(s.issued, k, id);
    assert s.issued[k] == Issue(id, token);
  }

  lemma OneOwner(s: State, id: Id, id': Id, token: Token)
    requires IssuedOnce(s) && IssuedTo(s, id, token) && IssuedTo(s, id', token)
    ensures id == id'
  {
  }

  lemma IssueKeeps(s: State, s': State, id: Id, token: Token)
    requires Inv(s) && FreshToken(s, token) && s'.issued == s.issued + [Issue(id, token)]
    requires s'.used == s.used && s'.resets == s.resets
    requires id in s'.staff && s'.staff[id].token == Some(token)
    requires forall o :: o in s'.staff && o != id ==> o in s.staff && s'.staff[o] == s.staff[o]
    ensures Inv(s')
  {
    forall o, t | IssuedTo(s, o, t) ensures IssuedTo(s', o, t) {
      var k :| 0 <= k < |s.issued| && s.issued[k] == Issue(o, t);
      assert s'.issued[k] == Issue(o, t);
    }
    forall o | o in s'.staff && s'.staff[o].token.Some? ensures Stored(s', o, s'.staff[o].token.value) {
      if o == id {
        assert s'.issued[|s.issued|] == Issue(id, token) && LatestIssue(s'.issued, |s.issued|, id);
        forall k | 0 <= k < |s.used| ensures s.used[k].token != token {
          assert IssuedTo(s, s.used[k].staff, s.used[k].token);
        }
      } else {
        var t := s.staff[o].token.value;
        assert Stored(s, o, t);
        var k :| 0 <= k < |s.issued| && s.issued[k].token == t && LatestIssue(s.issued, k, o);
        assert s'.issued[k].token == t && LatestIssue(s'.issued, k, o);
      }
    }
  }

  lemma FinishKeeps(s: State, h: nat)
    requires Inv(s) && Enabled(s, Finish(h))
    ensures Inv(Apply(s, Finish(h)))
  {
    var s', r := Apply(s, Finish(h)), s.resets[h];
    forall o, t | IssuedTo(s, o, t) ensures IssuedTo(s', o, t) {
      var k :| 0 <= k < |s.issued| && s.issued[k] == Issue(o, t);
      assert s'.issued[k] == Issue(o, t);
    }
    forall o | o in s'.staff && s'.staff[o].token.Some? ensures Stored(s', o, s'.staff[o].token.value) {
      var t := s.staff[o].token.value;
      assert Stored(s, o, t);
      LatestIsIssued(s, o, t);
      assert t != r.token by {
        if t == r.token {
          OneOwner(s, o, r.staff, t);
        }
      }
      var k :| 0 <= k < |s.issued| && s.issued[k].token == t && LatestIssue(s.issued, k, o);
      assert LatestIssue(s'.issued, k, o);
    }
  }

  lemma QuietKeeps(s: State, s': State)
    requires Inv(s) && s'.issued == s.issued && s'.used == s.used
    requires forall o :: o in s'.staff ==> o in s.staff && s'.staff[o].token == s.staff[o].token
    requires forall h :: h in s'.resets ==> IssuedTo(s, s'.resets[h].staff, s'.resets[h].token)
    ensures Inv(s')
  {
    assert forall o, t :: IssuedTo(s, o, t) ==> IssuedTo(s', o, t);
    forall o | o in s'.staff && s'.staff[o].token.Some? ensures Stored(s', o, s'.staff[o].token.value) {
      var t := s.staff[o].token.value;
      assert Stored(s, o, t);
      var k :| 0 <= k < |s.issued| && s.issued[k].token == t && LatestIssue(s.issued, k, o);
      assert LatestIssue(s'.issued, k, o);
    }
  }

  lemma StepKeepsInv(s: State, step: Step)
    requires Inv(s) && Enabled(s, step)
    ensures Inv(Apply(s, step))
  {
    match step
    case CreateStaff(id, token, _) => IssueKeeps(s, Apply(s, step), id, token);
    case Request(id, token, _) => IssueKeeps(s, Apply(s, step), id, token);
    case Find(_, id, token, _) => LatestIsIssued(s, id, token); QuietKeeps(s, Apply(s, step));
    case Finish(h) => FinishKeeps(s, h);
    case SetActive(_, _) => QuietKeeps(s, Apply(s, step));
    case Delete(_) => QuietKeeps(s, Apply(s, step));
  }

  /** What succeeds on a row that still holds its token is the staff member's latest token, for the first time. */
  lemma CurrentIsLegitimate(s: State, h: nat)
    requires Inv(s) && Current(s, h)
    ensures Legitimate(s, s.resets[h])
  {
    assert Stored(s, s.resets[h].staff, s.resets[h].token);
  }

  // ---- Exactly which resets are legitimate ----

  predicate Legitimate(s: State, r: Reset) {
    Latest(s, r.staff, r.token) && !Used(s, r.token)
  }

  /** Every reset that finishes in the run does so with its staff member's latest token, used for the first time. */
  predicate AllLegitimate(s: State, steps: seq<Step>)
    requires Runs(s, steps)
    decreases |steps|
  {
    steps == [] || (
      && (steps[0].Finish? ==> Legitimate(s, s.resets[steps[0].h]))
      && AllLegitimate(Apply(s, steps[0]), steps[1..]))
  }

  /** The resets the step overtakes: it issues a token to their staff member, or finishes a reset by their token. */
  function Overtaken(s: State, step: Step): set<nat>
    requires Enabled(s, step)
  {
    match step
    case CreateStaff(id, _, _) => set h | h in s.resets && s.resets[h].staff == id
    case Request(id, _, _) => set h | h in s.resets && s.resets[h].staff == id
    case Finish(g) => set h | h in s.resets && s.resets[h].token == s.resets[g].token
    case _ => {}
  }

  /** No reset finishes that was overtaken since its lookup; `late` are those overtaken so far. */
  predicate NoneOvertaken(s: State, steps: seq<Step>, late: set<nat>)
    requires Runs(s, steps)
    decreases |steps|
  {
    steps == [] || (
      && (steps[0].Finish? ==> steps[0].h !in late)
      && NoneOvertaken(Apply(s, steps[0]), steps[1..], NextLate(s, steps[0], late)))
  }

  function NextLate(s: State, step: Step, late: set<nat>): set<nat>
    requires Enabled(s, step)
  {
    (late - if step.Find? then {step.h} else {}) + Overtaken(s, step)
  }

  /** The resets in flight that are overtaken are exactly those no longer legitimate. */
  predicate Tracks(s: State, late: set<nat>) {
    forall h :: h in s.resets ==> (h in late <==> !Legitimate(s, s.resets[h]))
  }

  /** A token issued to one staff member ends the turn of that member's earlier tokens, and of no other's. */
  lemma IssueOvertakes(s: State, s': State, id: Id, token: Token, r: Reset)
    requires Inv(s) && FreshToken(s, token) && IssuedTo(s, r.staff, r.token)
    requires s'.issued == s.issued + [Issue(id, token)] && s'.used == s.used
    ensures Legitimate(s', r) <==> Legitimate(s, r) && r.staff != id
  {
    var n := |s.issued|;
    assert s'.issued[n] == Issue(id, token) && forall k :: 0 <= k < n ==> s'.issued[k] == s.issued[k];
    if Latest(s', r.staff, r.token) {
      var k :| 0 <= k < |s'.issued| && s'.issued[k].token == r.token && LatestIssue(s'.issued, k, r.staff);
      assert k < n;
      assert LatestIssue(s.issued, k, r.staff);
    }
    if Latest(s, r.staff, r.token) && r.staff != id {
      var k :| 0 <= k < n && s.issued[k].token == r.token && LatestIssue(s.issued, k, r.staff);
      assert s'.issued[k].token == r.token && LatestIssue(s'.issued, k, r.staff);
    }
  }

  lemma FinishOvertakes(s: State, h: nat, r: Reset)
    requires Enabled(s, Finish(h))
    ensures Legitimate(Apply(s, Finish(h)), r) <==> Legitimate(s, r) && r.token != s.resets[h].token
  {
    StepUses(s, Finish(h), r.token);
  }

  lemma StepTracks(s: State, step: Step, late: set<nat>)
    requires Inv(s) && Enabled(s, step) && Tracks(s, late)
    ensures Tracks(Apply(s, step), NextLate(s, step, late))
  {
    var s' := Apply(s, step);
    forall h | h in s'.resets
      ensures h in NextLate(s, step, late) <==> !Legitimate(s', s'.resets[h])
    {
      match step
      case CreateStaff(id, token, _) => IssueOvertakes(s, s', id, token, s.resets[h]);
      case Request(id, token, _) => IssueOvertakes(s, s', id, token, s.resets[h]);
      case Finish(g) => FinishOvertakes(s, g, s.resets[h]);
      case Find(_, id, token, _) => assert Stored(s, id, token);
      case SetActive(_, _) =>
      case Delete(_) =>
    }
  }

  lemma {:induction false} LegitimateFrom(s: State, steps: seq<Step>, late: set<nat>)
    requires Inv(s) && Runs(s, steps) && Tracks(s, late)
    ensures AllLegitimate(s, steps) <==> NoneOvertaken(s, steps, late)
    decreases |steps|
  {
    if steps != [] {
      StepKeepsInv(s, steps[0]);
      StepTracks(s, steps[0], late);
      LegitimateFrom(Apply(s, steps[0]), steps[1..], NextLate(s, steps[0], late));
    }
  }

  lemma {:induction false} LegitimateOnce(s: State, steps: seq<Step>)
    requires UsedOnce(s) && Runs(s, steps) && AllLegitimate(s, steps)
    ensures UsedOnce(Exec(s, steps))
    decreases |steps|
  {
    if steps != [] {
      LegitimateOnce(Apply(s, steps[0]), steps[1..]);
    }
  }

  /**
   With fresh tokens, over every run: each reset that finishes uses its staff
   member's most recently issued token for the first time, if and only if,
   between its lookup and its update, no token is issued to that staff member
   and no reset by the same token finishes. Then each token succeeds at most once.
   */
  lemma ResetsLegitimateExactly(steps: seq<Step>)
    requires Runs(INIT, steps)
    ensures AllLegitimate(INIT, steps) <==> NoneOvertaken(INIT, steps, {})
    ensures NoneOvertaken(INIT, steps, {}) ==> UsedOnce(Exec(INIT, steps))
  {
    LegitimateFrom(INIT, steps, {});
    if AllLegitimate(INIT, steps) {
      LegitimateOnce(INIT, steps);
    }
  }

  /** A reset that was looked up before a newer token was issued still succeeds, and wipes the newer token. */
  lemma SupersededSucceeds(id: Id, first: Token, second: Token)
    requires first != second
    ensures var steps := [CreateStaff(id, first, 0), Find(0, id, first, 1), Request(id, second, 2), Finish(0)];
            && Runs(INIT, steps) && !AllLegitimate(INIT, steps)
            && id in Exec(INIT, steps).staff && Exec(INIT, steps).staff[id].token == None
  {
    var steps := [CreateStaff(id, first, 0), Find(0, id, first, 1), Request(id, second, 2), Finish(0)];
    var s1 := Apply(INIT, steps[0]);
    var s2 := Apply(s1, steps[1]);
    var s3 := Apply(s2, steps[2]);
    var s4 := Apply(s3, steps[3]);
    assert s3.issued[0] == Issue(id, first) && s3.issued[1] == Issue(id, second);
    assert !LatestIssue(s3.issued, 0, id);
    assert steps[3..][1..] == [] && Runs(s4, []);
    assert Runs(s3, steps[3..]) && Exec(s3, steps[3..]) == s4 && !AllLegitimate(s3, steps[3..]);
    assert steps[2..][1..] == steps[3..];
    assert Runs(s2, steps[2..]) && Exec(s2, steps[2..]) == s4 && !AllLegitimate(s2, steps[2..]);
    assert steps[1..][1..] == steps[2..];
    assert Runs(s1, steps[1..]) && Exec(s1, steps[1..]) == s4 && !AllLegitimate(s1, steps[1..]);
  }

  /** Two overlapping resets both succeed with one token: the update does not check the token again. */
  lemma OverlappingResets(id: Id, token: Token)
    ensures var steps := [CreateStaff(id, token, 0), Find(0, id, token, 1), Find(1, id, token, 1),
                          Finish(0), Finish(1)];
            Runs(INIT, steps) && !UsedOnce(Exec(INIT, steps))
  {
    var steps := [CreateStaff(id, token, 0), Find(0, id, token, 1), Find(1, id, token, 1), Finish(0), Finish(1)];
    var s1 := Apply(INIT, steps[0]);
    var s2 := Apply(s1, steps[1]);
    var s3 := Apply(s2, steps[2]);
    var s4 := Apply(s3, steps[3]);
    var s5 := Apply(s4, steps[4]);
    assert steps[4..][1..] == [] && Runs(s5, []);
    assert Runs(s4, steps[4..]) && Exec(s4, steps[4..]) == s5;
    assert steps[3..][1..] == steps[4..];
    assert Runs(s3, steps[3..]) && Exec(s3, steps[3..]) == s5;
    assert steps[2..][1..] == steps[3..];
    assert Runs(s2, steps[2..]) && Exec(s2, steps[2..]) == s5;
    assert steps[1..][1..] == steps[2..];
    assert Runs(s1, steps[1..]) && Exec(s1, steps[1..]) == s5;
    assert s5.used[0].token == s5.used[1].token;
  }

  /** In the run, some reset by this token finishes. */
  predicate Finishes(s: State, steps: seq<Step>, token: Token)
    requires Runs(s, steps)
    decreases |steps|
  {
    steps != [] && (
      || (steps[0].Finish? && s.resets[steps[0].h].token == token)
      || Finishes(Apply(s, steps[0]), steps[1..], token))
  }

  lemma StepUses(s: State, step: Step, token: Token)
    requires Enabled(s, step)
    ensures Used(Apply(s, step), token) <==> Used(s, token) || (step.Finish? && s.resets[step.h].token == token)
  {
    var s' := Apply(s, step);
    assert forall k :: 0 <= k < |s.used| ==> s'.used[k] == s.used[k];
    if step.Finish? {
      assert s'.used[|s.used|] == s.resets[step.h];
    }
  }

  lemma {:induction false} RunUses(s: State, steps: seq<Step>, token: Token)
    requires Runs(s, steps)
    ensures Used(Exec(s, steps), token) <==> Used(s, token) || Finishes(s, steps, token)
    decreases |steps|
  {
    if steps != [] {
      StepUses(s, steps[0], token);
      RunUses(Apply(s, steps[0]), steps[1..], token);
    }
  }

  /**
   A reset's token has already succeeded when it finishes, exactly when another reset
   by it finished since its lookup.
   */
  lemma UsedTwiceExactly(s: State, h: nat, id: Id, token: Token, now: int, more: seq<Step>)
    requires Inv(s) && Enabled(s, Find(h, id, token, now)) && Runs(Apply(s, Find(h, id, token, now)), more)
    ensures var s1 := Apply(s, Find(h, id, token, now));
            Used(Exec(s1, more), token) <==> Finishes(s1, more, token)
  {
    assert Stored(s, id, token);
    RunUses(Apply(s, Find(h, id, token, now)), more, token);
  }

  // ---- The service ----

  /** validatePasswordComplexity. */
  predicate Complex(password: string) {
    && |password| >= 8
    && (exists k :: 0 <= k < |password| && 'A' <= password[k] <= 'Z')
    && (exists k :: 0 <= k < |password| && 'a' <= password[k] <= 'z')
    && (exists k :: 0 <= k < |password| && password[k] in "!@#$%^&*(),.?\":{}|<>")
  }

  /** The row the lookup of a reset accepts. */
  predicate Accepts(staff: map<Id, Staff>, id: Id, token: Token, now: int) {
    id in staff && staff[id].token == Some(token) && staff[id].active && staff[id].expiry > now
  }

  /** In a reachable state a token is stored on one row only. */
  lemma OneHolder(s: State, id: Id, id': Id, token: Token)
    requires Inv(s) && id in s.staff && id' in s.staff
    requires s.staff[id].token == Some(token) && s.staff[id'].token == Some(token)
    ensures id == id'
  {
    assert Stored(s, id, token) && Stored(s, id', token);
    LatestIsIssued(s, id, token);
    LatestIsIssued(s, id', token);
    OneOwner(s, id, id', token);
  }

  lemma FindThenFinish(s: State, id: Id, token: Token, now: int)
    requires Inv(s) && s.resets == map[] && Accepts(s.staff, id, token, now)
    ensures var s1 := Apply(s, Find(0, id, token, now));
            && Enabled(s1, Finish(0)) && Inv(Apply(s1, Finish(0)))
            && Apply(s1, Finish(0)) == State(s.staff[id := s.staff[id].(token := None, active := true)],
                                             s.issued, map[], s.used + [Reset(id, token)])
  {
    StepKeepsInv(s, Find(0, id, token, now));
    StepKeepsInv(Apply(s, Find(0, id, token, now)), Finish(0));
    assert s.resets[0 := Reset(id, token)] - {0} == map[];
  }

  /**
   A requested token works for 24 hours: for an active member, at every time before
   that, and from then on no more.
   */
  lemma RequestedTokenWorks(s: State, id: Id, token: Token, asked: int, h: nat, now: int)
    requires Enabled(s, Request(id, token, asked)) && h !in s.resets
    ensures var s' := Apply(s, Request(id, token, asked));
            Enabled(s', Find(h, id, token, now)) <==> s.staff[id].active && now < asked + 86400000
  {
  }

  /** An invited member's first token works for the same time. */
  lemma InvitationWorks(s: State, id: Id, token: Token, asked: int, h: nat, now: int)
    requires Enabled(s, CreateStaff(id, token, asked)) && h !in s.resets
    ensures Enabled(Apply(s, CreateStaff(id, token, asked)), Find(h, id, token, now)) <==> now < asked + 86400000
  {
  }

  /**
   A deactivated or deleted member's token does not work; a reactivated member's does,
   if it is still stored and in time.
   */
  lemma DeactivatedTokenWaits(s: State, id: Id, token: Token, h: nat, now: int)
    requires id in s.staff && h !in s.resets
    ensures !Enabled(Apply(s, SetActive(id, false)), Find(h, id, token, now))
    ensures !Enabled(Apply(s, Delete(id)), Find(h, id, token, now))
    ensures Enabled(Apply(s, SetActive(id, true)), Find(h, id, token, now))
            <==> s.staff[id].token == Some(token) && now < s.staff[id].expiry
  {
  }

  /** A finished reset uses its token up and activates the member; what was stored for others stays. */
  lemma FinishedReset(s: State, h: nat, other: Id)
    requires Enabled(s, Finish(h))
    ensures var s', id := Apply(s, Finish(h)), s.resets[h].staff;
            && id in s'.staff && s'.staff[id].token == None && s'.staff[id].active
            && (other != id ==> (other in s'.staff <==> other in s.staff)
                                && (other in s.staff ==> s'.staff[other] == s.staff[other]))
  {
  }

  /**
   A password passes with eight characters, an upper-case and a lower-case letter and
   a special character; without any one of them it fails.
   */
  lemma PasswordDemands(p: string, u: nat, l: nat, x: nat)
    requires u < |p| && l < |p| && x < |p|
    ensures ('A' <= p[u] <= 'Z' && 'a' <= p[l] <= 'z' && p[x] in "!@#$%^&*(),.?\":{}|<>" && |p| >= 8) ==> Complex(p)
    ensures |p| < 8 ==> !Complex(p)
    ensures (forall c :: c in p ==> !('A' <= c <= 'Z')) ==> !Complex(p)
    ensures (forall c :: c in p ==> !('a' <= c <= 'z')) ==> !Complex(p)
    ensures (forall c :: c in p ==> c !in "!@#$%^&*(),.?\":{}|<>") ==> !Complex(p)
  {
    assert forall k :: 0 <= k < |p| ==> p[k] in p;
  }

  class StaffService {
    var staff: map<Id, Staff>
    ghost var issued: seq<Issue>
    ghost var used: seq<Reset>

    ghost function St(): State
      reads this
    {
      State(staff, issued, map[], used)
    }

    method AddStaff(id: Id, token: Token, now: int)
      requires Inv(St()) && id !in staff && FreshToken(St(), token)
      modifies this
      ensures Inv(St()) && St() == Apply(old(St()), CreateStaff(id, token, now))
    {
      StepKeepsInv(St(), CreateStaff(id, token, now));
      staff := staff[id := Staff(true, Some(token), now + DAY_MS)];
      issued := issued + [Issue(id, token)];
    }

    method RequestPasswordReset(id: Id, token: Token, now: int) returns (found: bool)
      requires Inv(St()) && FreshToken(St(), token)
      modifies this
      ensures Inv(St()) && found == (id in old(staff))
      ensures St() == if found then Apply(old(St()), Request(id, token, now)) else old(St())
    {
      found := id in staff;
      if found {
        StepKeepsInv(St(), Request(id, token, now));
        staff := staff[id := staff[id].(token := Some(token), expiry := now + DAY_MS)];
        issued := issued + [Issue(id, token)];
      }
    }

    /**
     A reset succeeds for a stored, active, unexpired token and a complex password, and
     no row holds the token afterwards.
     */
    method ResetPasswordWithToken(token: Token, password: string, now: int) returns (ok: bool)
      requires Inv(St())
      modifies this
      ensures Inv(St())
      ensures ok <==> Complex(password) && exists id :: Accepts(old(staff), id, token, now)
      ensures !ok ==> St() == old(St())
      ensures ok ==> exists id :: && Accepts(old(staff), id, token, now)
                                  && Latest(old(St()), id, token) && !Used(old(St()), token)
                                  && St() == Apply(Apply(old(St()), Find(0, id, token, now)), Finish(0))
      ensures ok ==> forall id :: id in staff ==> staff[id].token != Some(token)
    {
      var matching := set id | id in staff && Accepts(staff, id, token, now);
      assert forall id :: Accepts(staff, id, token, now) <==> id in matching;
      if matching == {} || !Complex(password) { return false; }
      var id :| id in matching;
      ghost var s := St();
      assert Stored(s, id, token);
      FindThenFinish(s, id, token, now);
      forall o | o in staff && staff[o].token == Some(token) ensures o == id {
        OneHolder(s, o, id, token);
      }
      staff := staff[id := staff[id].(token := None, active := true)];
      used := used + [Reset(id, token)];
      assert St() == Apply(Apply(s, Find(0, id, token, now)), Finish(0));
      ok := true;
    }
  }
}
