/**
 The notification inbox (notification-worker, notification.service.ts). Events
 are delivered at least once; handlers of different deliveries interleave at
 their awaits; the notification table has a unique idempotency key.
 */
module Inbox {
  import opened Basics

  /** The payload fields the key is built from, what is shown, and the clock reading used when no reference is given. */
  datatype Event = Event(userId: string, eventType: Option<string>, status: Option<string>,
                         referenceId: Option<string>, documentId: Option<string>, transactionId: Option<string>,
                         clock: string, silent: bool, content: string)

  datatype Row = Row(key: string, userId: string, kind: string, reference: string, content: string)

  /** `a || b` on optional strings: missing and empty are falsy. */
  function Or(a: Option<string>, b: string): string {
    if a.Some? && a.value != "" then a.value else b
  }

  function Kind(e: Event): string {
    Or(e.eventType, Or(e.status, "NOTIFICATION"))
  }

  function Reference(e: Event): string {
    Or(e.referenceId, Or(e.documentId, Or(e.transactionId, e.clock)))
  }

  function KeyOf(userId: string, kind: string, reference: string): string {
    userId + ":" + kind + ":" + reference
  }

  function Key(e: Event): string {
    KeyOf(e.userId, Kind(e), Reference(e))
  }

  function RowOf(e: Event): Row {
    Row(Key(e), e.userId, Kind(e), Reference(e), e.content)
  }

  // ---- The key ----

  lemma FirstColon(x: string, y: string, x': string, y': string)
    requires x + ":" + y == x' + ":" + y' && ':' !in x && ':' !in x'
    ensures x == x' && y == y'
  {
    var s := x + ":" + y;
    assert s[|x|] == ':' && s[|x'|] == ':';
    assert forall i :: 0 <= i < |x| ==> s[i] == x[i] && x[i] in x;
    assert forall i :: 0 <= i < |x'| ==> s[i] == x'[i] && x'[i] in x';
    assert |x| == |x'|;
    assert s[..|x|] == x && s[..|x'|] == x';
    assert s[|x| + 1..] == y && s[|x'| + 1..] == y';
  }

  /** With no colon in user ids and event types, the key determines user, type and reference. */
  lemma KeyInjective(u: string, k: string, r: string, u': string, k': string, r': string)
    requires ':' !in u && ':' !in k && ':' !in u' && ':' !in k'
    requires KeyOf(u, k, r) == KeyOf(u', k', r')
    ensures u == u' && k == k' && r == r'
  {
    assert KeyOf(u, k, r) == u + ":" + (k + ":" + r);
    assert KeyOf(u', k', r') == u' + ":" + (k' + ":" + r');
    FirstColon(u, k + ":" + r, u', k' + ":" + r');
    FirstColon(k, r, k', r');
  }

  /** A string with a colon, taken apart at one. */
  lemma SplitAtColon(s: string) returns (x: string, y: string)
    requires ':' in s
    ensures s == x + ":" + y
  {
    var i :| 0 <= i < |s| && s[i] == ':';
    x, y := s[..i], s[i + 1..];
  }

  /** A colon in any of its parts lets a key be read in another way. */
  lemma SharedKey(u: string, k: string, r: string) returns (u': string, k': string, r': string)
    requires ':' in u || ':' in k || ':' in r
    ensures (u', k', r') != (u, k, r) && KeyOf(u', k', r') == KeyOf(u, k, r)
  {
    u', k', r' := u, k, r;
    if ':' in u {
      var x, y := SplitAtColon(u);
      u', k', r' := x, y, k + ":" + r;
      assert |u'| < |u|;
    } else if ':' in k {
      var x, y := SplitAtColon(k);
      k', r' := x, y + ":" + r;
      assert |k'| < |k|;
    } else {
      var x, y := SplitAtColon(r);
      u', k', r' := u + ":" + k, x, y;
      assert |u'| > |u|;
    }
  }

  function Colons(s: string): nat {
    if s == "" then 0 else Colons(s[1..]) + if s[0] == ':' then 1 else 0
  }

  lemma {:induction false} ColonsConcat(s: string, t: string)
    ensures Colons(s + t) == Colons(s) + Colons(t)
  {
    if s == "" {
      assert s + t == t;
    } else {
      ColonsConcat(s[1..], t);
      assert (s + t)[1..] == s[1..] + t;
    }
  }

  lemma {:induction false} NoColons(s: string)
    ensures Colons(s) == 0 <==> ':' !in s
  {
    if s != "" {
      NoColons(s[1..]);
    }
  }

  lemma KeyColons(u: string, k: string, r: string)
    ensures Colons(KeyOf(u, k, r)) == Colons(u) + Colons(k) + Colons(r) + 2
  {
    assert Colons(":") == 1;
    ColonsConcat(u, ":");
    ColonsConcat(u + ":", k);
    ColonsConcat(u + ":" + k, ":");
    ColonsConcat(u + ":" + k + ":", r);
  }

  /** A key stands for one triple only, if and only if none of its parts contains a colon. */
  lemma KeySharedExactly(u: string, k: string, r: string)
    ensures (exists u', k', r' :: (u', k', r') != (u, k, r) && KeyOf(u', k', r') == KeyOf(u, k, r))
            <==> ':' in u || ':' in k || ':' in r
  {
    if ':' in u || ':' in k || ':' in r {
      var u', k', r' := SharedKey(u, k, r);
    } else {
      forall u', k', r' | KeyOf(u', k', r') == KeyOf(u, k, r) ensures (u', k', r') == (u, k, r) {
        KeyColons(u, k, r);
        KeyColons(u', k', r');
        NoColons(u);
        NoColons(k);
        NoColons(r);
        NoColons(u');
        NoColons(k');
        KeyInjective(u, k, r, u', k', r');
      }
    }
  }

  predicate Given(a: Option<string>) {
    a.Some? && a.value != ""
  }

  /** The event names what it is about; otherwise the clock stands in for it. */
  predicate HasReference(e: Event) {
    Given(e.referenceId) || Given(e.documentId) || Given(e.transactionId)
  }

  /** A redelivery at another clock reading keeps its key if and only if the event has a reference. */
  lemma RedeliveryKeepsKeyExactly(e: Event, clock: string)
    requires clock != e.clock
    ensures Key(e.(clock := clock)) == Key(e) <==> HasReference(e)
  {
    if !HasReference(e) {
      SamePrefix(e.userId + ":" + Kind(e) + ":", e.clock, clock);
    }
  }

  lemma SamePrefix(prefix: string, x: string, y: string)
    ensures prefix + x == prefix + y <==> x == y
  {
    assert (prefix + x)[|prefix|..] == x && (prefix + y)[|prefix|..] == y;
  }

  /** The type of an event: eventType, else status, else a fixed word; empty counts as missing. */
  lemma KindOf(e: Event)
    ensures Given(e.eventType) ==> Kind(e) == e.eventType.value
    ensures !Given(e.eventType) && Given(e.status) ==> Kind(e) == e.status.value
    ensures !Given(e.eventType) && !Given(e.status) ==> Kind(e) == "NOTIFICATION"
  {
  }

  /** What an event is about: its reference, else its document, else its transaction, else the clock. */
  lemma ReferenceOf(e: Event)
    ensures Given(e.referenceId) ==> Reference(e) == e.referenceId.value
    ensures !Given(e.referenceId) && Given(e.documentId) ==> Reference(e) == e.documentId.value
    ensures !Given(e.referenceId) && !Given(e.documentId) && Given(e.transactionId) ==>
              Reference(e) == e.transactionId.value
    ensures !HasReference(e) ==> Reference(e) == e.clock
  {
  }

  /**
   Events of different users, types or references share neither key nor row, as long as
   users and types have no colon.
   */
  lemma EventsToldApart(e: Event, e': Event)
    requires ':' !in e.userId && ':' !in e'.userId && ':' !in Kind(e) && ':' !in Kind(e')
    ensures Key(e) == Key(e') <==> e.userId == e'.userId && Kind(e) == Kind(e') && Reference(e) == Reference(e')
    ensures RowOf(e) == RowOf(e') <==> Key(e) == Key(e') && e.content == e'.content
    ensures RowOf(e) == Row(e.userId + ":" + Kind(e) + ":" + Reference(e), e.userId, Kind(e), Reference(e), e.content)
  {
    if Key(e) == Key(e') {
      KeyInjective(e.userId, Kind(e), Reference(e), e'.userId, Kind(e'), Reference(e'));
    }
  }

  // ---- Interleaved handlers ----

  /** A handler that has done its lookup. */
  datatype Handler = Handler(event: Event, existing: bool)

  datatype State = State(inbox: seq<Row>, handlers: map<nat, Handler>)

  datatype Step =
    | Deliver(h: nat, event: Event)
    | Proceed(h: nat, known: bool, accepted: bool)

  const INIT: State := State([], map[])

  predicate HasKey(inbox: seq<Row>, key: string) {
    exists k :: 0 <= k < |inbox| && inbox[k].key == key
  }

  predicate Enabled(s: State, step: Step) {
    match step
    case Deliver(h, _) => h !in s.handlers
    case Proceed(h, _, _) => h in s.handlers
  }

  /** An insert the database accepts; a second row with the same key violates the unique constraint. */
  function Inserted(inbox: seq<Row>, row: Row, accepted: bool): seq<Row> {
    if accepted && !HasKey(inbox, row.key) then inbox + [row] else inbox
  }

  function Apply(s: State, step: Step): State
    requires Enabled(s, step)
  {
    match step
    case Deliver(h, e) =>
      if e.silent then s else s.(handlers := s.handlers[h := Handler(e, HasKey(s.inbox, Key(e)))])
    case Proceed(h, known, accepted) =>
      var handler := s.handlers[h];
      State(if known && !handler.existing then Inserted(s.inbox, RowOf(handler.event), accepted) else s.inbox,
            s.handlers - {h})
  }

  predicate Runs(s: State, steps: seq<Step>)
    decreases |steps|
  {
    steps == [] || (Enabled(s, steps[0]) && Runs(Apply(s, steps[0]), steps[1..]))
  }

  function Exec(s: State, steps: seq<Step>): State
    requires Runs(s, steps)
    decreases |steps|
  {
    if steps == [] then s else Exec(Apply(s, steps[0]), steps[1..])
  }

  lemma RunsCons(s: State, step: Step, rest: seq<Step>)
    requires Enabled(s, step) && Runs(Apply(s, step), rest)
    ensures Runs(s, [step] + rest) && Exec(s, [step] + rest) == Exec(Apply(s, step), rest)
  {
    assert ([step] + rest)[1..] == rest;
  }

  lemma {:induction false} RunsConcat(s: State, xs: seq<Step>, ys: seq<Step>)
    requires Runs(s, xs) && Runs(Exec(s, xs), ys)
    ensures Runs(s, xs + ys) && Exec(s, xs + ys) == Exec(Exec(s, xs), ys)
    decreases |xs|
  {
    if xs == [] {
      assert xs + ys == ys;
    } else {
      RunsConcat(Apply(s, xs[0]), xs[1..], ys);
      RunsCons(s, xs[0], xs[1..] + ys);
      assert xs + ys == [xs[0]] + (xs[1..] + ys);
    }
  }

  predicate DistinctKeys(inbox: seq<Row>) {
    forall j, k :: 0 <= j < k < |inbox| ==> inbox[j].key != inbox[k].key
  }

  /** A handler that saw its key at lookup can rely on it: rows are never removed. */
  predicate LookupsHold(s: State) {
    forall h :: h in s.handlers && s.handlers[h].existing ==> HasKey(s.inbox, Key(s.handlers[h].event))
  }

  lemma HasKeyAppend(inbox: seq<Row>, row: Row, key: string)
    ensures HasKey(inbox + [row], key) <==> HasKey(inbox, key) || row.key == key
  {
    var next := inbox + [row];
    assert next[|inbox|] == row;
    assert forall k :: 0 <= k < |inbox| ==> next[k] == inbox[k];
  }

  lemma InsertedKeeps(inbox: seq<Row>, row: Row, accepted: bool)
    ensures inbox <= Inserted(inbox, row, accepted)
    ensures DistinctKeys(inbox) ==> DistinctKeys(Inserted(inbox, row, accepted))
    ensures forall key :: HasKey(inbox, key) ==> HasKey(Inserted(inbox, row, accepted), key)
    ensures accepted ==> HasKey(Inserted(inbox, row, accepted), row.key)
  {
    var next := Inserted(inbox, row, accepted);
    forall key | HasKey(inbox, key) ensures HasKey(next, key) {
      var k :| 0 <= k < |inbox| && inbox[k].key == key;
      assert next[k].key == key;
    }
    if accepted && !HasKey(inbox, row.key) {
      assert next[|inbox|].key == row.key;
    }
  }

  lemma StepKeeps(s: State, step: Step)
    requires Enabled(s, step) && DistinctKeys(s.inbox) && LookupsHold(s)
    ensures var s' := Apply(s, step);
            s.inbox <= s'.inbox && DistinctKeys(s'.inbox) && LookupsHold(s')
    ensures step.Proceed? && step.known && step.accepted ==> HasKey(Apply(s, step).inbox, Key(s.handlers[step.h].event))
  {
    if step.Proceed? {
      InsertedKeeps(s.inbox, RowOf(s.handlers[step.h].event), step.accepted);
    }
  }

  /**
   Over every run of redelivered and interleaved events the inbox holds at most
   one row per key, and what it holds is never altered or removed.
   */
  lemma {:induction false} OneRowPerKey(s: State, steps: seq<Step>)
    requires Runs(s, steps) && DistinctKeys(s.inbox) && LookupsHold(s)
    ensures s.inbox <= Exec(s, steps).inbox && DistinctKeys(Exec(s, steps).inbox) && LookupsHold(Exec(s, steps))
    decreases |steps|
  {
    if steps != [] {
      StepKeeps(s, steps[0]);
      OneRowPerKey(Apply(s, steps[0]), steps[1..]);
    }
  }

  /**
   A handler that completes for a known user leaves its key in the inbox, whether it
   inserted, lost the race or came late.
   */
  lemma CompletedIsRecorded(steps: seq<Step>, h: nat, more: seq<Step>)
    requires Runs(INIT, steps) && h in Exec(INIT, steps).handlers
    requires Runs(Apply(Exec(INIT, steps), Proceed(h, true, true)), more)
    ensures var s := Exec(INIT, steps);
            HasKey(Exec(Apply(s, Proceed(h, true, true)), more).inbox, Key(s.handlers[h].event))
  {
    var s := Exec(INIT, steps);
    OneRowPerKey(INIT, steps);
    StepKeeps(s, Proceed(h, true, true));
    var s' := Apply(s, Proceed(h, true, true));
    OneRowPerKey(s', more);
    var key := Key(s.handlers[h].event);
    var k :| 0 <= k < |s'.inbox| && s'.inbox[k].key == key;
    assert Exec(s', more).inbox[k].key == key;
  }

  /** Every row, and every row a handler may still insert, is one of `rows`. */
  predicate Among(s: State, rows: set<Row>) {
    && (forall k :: 0 <= k < |s.inbox| ==> s.inbox[k] in rows)
    && (forall h :: h in s.handlers ==> RowOf(s.handlers[h].event) in rows)
  }

  /** Every row was made from a delivered event that was not silent. */
  lemma {:induction false} RowsComeFromEvents(s: State, steps: seq<Step>, rows: set<Row>)
    requires Runs(s, steps) && Among(s, rows)
    requires forall k :: 0 <= k < |steps| && steps[k].Deliver? && !steps[k].event.silent ==>
               RowOf(steps[k].event) in rows
    ensures Among(Exec(s, steps), rows)
    decreases |steps|
  {
    if steps != [] {
      assert Among(Apply(s, steps[0]), rows);
      RowsComeFromEvents(Apply(s, steps[0]), steps[1..], rows);
    }
  }

  // ---- Sequential delivery ----

  /** A delivery and whether its user exists. */
  datatype Delivery = Delivery(event: Event, known: bool)

  predicate Eligible(d: Delivery) {
    !d.event.silent && d.known
  }

  function HandleAll(inbox: seq<Row>, ds: seq<Delivery>): seq<Row> {
    if ds == [] then inbox
    else
      var before, d := HandleAll(inbox, ds[..|ds| - 1]), ds[|ds| - 1];
      if Eligible(d) then Inserted(before, RowOf(d.event), true) else before
  }

  /** The eligible delivery `k` is the first of its key. */
  predicate First(ds: seq<Delivery>, k: nat)
    requires k < |ds|
  {
    Eligible(ds[k]) && forall j :: 0 <= j < k && Eligible(ds[j]) ==> Key(ds[j].event) != Key(ds[k].event)
  }

  function FirstRows(ds: seq<Delivery>, n: nat): seq<Row>
    requires n <= |ds|
  {
    if n == 0 then [] else FirstRows(ds, n - 1) + if First(ds, n - 1) then [RowOf(ds[n - 1].event)] else []
  }

  lemma {:induction false} FirstRowsKeys(ds: seq<Delivery>, n: nat, key: string)
    requires n <= |ds|
    ensures HasKey(FirstRows(ds, n), key) <==> exists j :: 0 <= j < n && Eligible(ds[j]) && Key(ds[j].event) == key
  {
    if n > 0 {
      var before, mine := FirstRows(ds, n - 1), Key(ds[n - 1].event);
      FirstRowsKeys(ds, n - 1, key);
      HasKeyAppend(before, RowOf(ds[n - 1].event), key);
      assert before + [] == before;
      if Eligible(ds[n - 1]) && mine == key && !First(ds, n - 1) {
        var j :| 0 <= j < n - 1 && Eligible(ds[j]) && Key(ds[j].event) == key;
      }
    }
  }

  /** A sequential run leaves exactly the first non-silent, known-user occurrence of each key, in order of arrival. */
  lemma {:induction false} SequentialInbox(ds: seq<Delivery>, n: nat)
    requires n <= |ds|
    ensures HandleAll([], ds[..n]) == FirstRows(ds, n)
  {
    if n > 0 {
      SequentialInbox(ds, n - 1);
      assert ds[..n][..n - 1] == ds[..n - 1];
      FirstRowsKeys(ds, n - 1, Key(ds[n - 1].event));
    }
  }

  /** One delivery handled to its end before the next begins. */
  function StepsOf(d: Delivery): seq<Step> {
    if d.event.silent then [Deliver(0, d.event)] else [Deliver(0, d.event), Proceed(0, d.known, true)]
  }

  function StepsOfAll(ds: seq<Delivery>): seq<Step> {
    if ds == [] then [] else StepsOfAll(ds[..|ds| - 1]) + StepsOf(ds[|ds| - 1])
  }

  lemma OneDelivery(inbox: seq<Row>, d: Delivery)
    ensures Runs(State(inbox, map[]), StepsOf(d))
    ensures Exec(State(inbox, map[]), StepsOf(d))
            == State(if Eligible(d) then Inserted(inbox, RowOf(d.event), true) else inbox, map[])
  {
    var s := State(inbox, map[]);
    var s1 := Apply(s, Deliver(0, d.event));
    if d.event.silent {
      assert StepsOf(d)[1..] == [];
    } else {
      var proceed := Proceed(0, d.known, true);
      var s2 := Apply(s1, proceed);
      assert StepsOf(d)[1..] == [proceed] && [proceed][1..] == [];
      assert s2.handlers == map[];
      assert Runs(s2, []) && Runs(s1, [proceed]) && Exec(s1, [proceed]) == s2;
    }
  }

  /** The protocol, run one delivery after the other, inserts what HandleAll says. */
  lemma {:induction false} SequentialRun(ds: seq<Delivery>)
    ensures Runs(INIT, StepsOfAll(ds)) && Exec(INIT, StepsOfAll(ds)) == State(HandleAll([], ds), map[])
  {
    if ds != [] {
      var init := ds[..|ds| - 1];
      SequentialRun(init);
      OneDelivery(HandleAll([], init), ds[|ds| - 1]);
      RunsConcat(INIT, StepsOfAll(init), StepsOf(ds[|ds| - 1]));
    }
  }

  /** An event delivered twice, at different clock readings, is recorded twice if and only if it has no reference. */
  lemma RecordedTwiceExactly(e: Event, clock: string)
    requires clock != e.clock && !e.silent
    ensures var ds := [Delivery(e, true), Delivery(e.(clock := clock), true)];
            && Runs(INIT, StepsOfAll(ds))
            && |Exec(INIT, StepsOfAll(ds)).inbox| == if HasReference(e) then 1 else 2
  {
    var ds := [Delivery(e, true), Delivery(e.(clock := clock), true)];
    SequentialRun(ds);
    RedeliveryKeepsKeyExactly(e, clock);
    assert ds[..1] == [ds[0]] && [ds[0]][..0] == [];
    assert HandleAll([], [ds[0]]) == [RowOf(e)];
    assert HasKey([RowOf(e)], Key(e.(clock := clock))) <==> Key(e.(clock := clock)) == Key(e) by {
      assert [RowOf(e)][0].key == Key(e);
    }
  }

  // ---- Delivery channels ----

  datatype Sent = Accepted | Refused | Threw

  datatype Preferences = Preferences(pushEnabled: Option<bool>, emailEnabled: Option<bool>)

  /** How far a handler got and what it sent. */
  datatype Outcome = Outcome(aborted: bool, pushAttempted: bool, pushSuccess: bool, emailed: bool)

  class Worker {
    var inbox: seq<Row>

    constructor ()
      ensures inbox == []
    {
      inbox := [];
    }

    /** One delivery handled without interference. `pushes` are the push service's answers, one per device. */
    method HandleEvent(d: Delivery, security: bool, prefs: Option<Preferences>, pushes: seq<Sent>, hasEmail: bool)
      returns (outcome: Option<Outcome>)
      modifies this
      ensures inbox == HandleAll(old(inbox), [d])
      ensures outcome.Some? <==> Eligible(d)
      ensures outcome.Some? ==> Routed(security, prefs, pushes, hasEmail, outcome.value)
    {
      assert [d][..0] == [];
      if d.event.silent { return None; }
      var existing := HasKey(inbox, Key(d.event));
      if !d.known { return None; }
      if !existing {
        inbox := inbox + [RowOf(d.event)];
      }
      var o := Route(security, prefs, pushes, hasEmail);
      outcome := Some(o);
    }
  }

  predicate PushAllowed(security: bool, prefs: Option<Preferences>) {
    security || !(prefs.Some? && prefs.value.pushEnabled == Some(false))
  }

  predicate EmailAllowed(prefs: Option<Preferences>) {
    !(prefs.Some? && prefs.value.emailEnabled == Some(false))
  }

  /** The routing rule: push to every device if allowed; e-mail security events, and others when no push got through. */
  predicate Routed(security: bool, prefs: Option<Preferences>, pushes: seq<Sent>, hasEmail: bool, o: Outcome) {
    var pushing := (security || prefs.None? || prefs.value.pushEnabled != Some(false)) && pushes != [];
    && o.pushAttempted == pushing
    && o.aborted == (pushing && Threw in pushes)
    && (!o.aborted ==> o.pushSuccess == (pushing && Accepted in pushes))
    && o.emailed == (!o.aborted && hasEmail && (
         security || ((prefs.None? || prefs.value.emailEnabled != Some(false)) && !o.pushSuccess)))
  }

  method Route(security: bool, prefs: Option<Preferences>, pushes: seq<Sent>, hasEmail: bool) returns (o: Outcome)
    ensures Routed(security, prefs, pushes, hasEmail, o)
  {
    var pushAttempted, pushSuccess := false, false;
    if PushAllowed(security, prefs) && |pushes| > 0 {
      pushAttempted := true;
      for i := 0 to |pushes|
        invariant pushSuccess == (Accepted in pushes[..i])
        invariant Threw !in pushes[..i]
      {
        assert pushes[..i + 1] == pushes[..i] + [pushes[i]];
        if pushes[i] == Threw {
          return Outcome(true, pushAttempted, pushSuccess, false);
        }
        if pushes[i] == Accepted {
          pushSuccess := true;
        }
      }
      assert pushes[..|pushes|] == pushes;
    }
    var shouldSendEmail := security
      || (pushAttempted && !pushSuccess && EmailAllowed(prefs))
      || (!pushAttempted && EmailAllowed(prefs));
    o := Outcome(false, pushAttempted, pushSuccess, shouldSendEmail && hasEmail);
  }
}
