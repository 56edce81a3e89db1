/**
 The admin console's in-memory rate limiter (lib/auth/rate-limit.ts): a
 fixed-window counter per identifier and a background sweep that deletes
 expired entries. The clock is the `now` of each event.
 */
module RateLimit {

  const MAX_ATTEMPTS: nat := 5
  const WINDOW_MS: nat := 60000

  datatype Entry = Entry(count: nat, resetTime: int)

  type Store = map<string, Entry>

  datatype Answer = Answer(allowed: bool, remaining: int)

  datatype Event =
    | Check(id: string, now: int)
    | Clear(id: string, now: int)
    | Sweep(now: int)

  predicate Live(store: Store, id: string, now: int) {
    id in store && now <= store[id].resetTime
  }

  function Checked(store: Store, id: string, now: int): Store {
    if !Live(store, id, now) then store[id := Entry(1, now + WINDOW_MS)]
    else if store[id].count >= MAX_ATTEMPTS then store
    else store[id := store[id].(count := store[id].count + 1)]
  }

  function AnswerTo(store: Store, id: string, now: int): Answer {
    if !Live(store, id, now) then Answer(true, MAX_ATTEMPTS - 1)
    else if store[id].count >= MAX_ATTEMPTS then Answer(false, 0)
    else Answer(true, MAX_ATTEMPTS - (store[id].count + 1))
  }

  function Swept(store: Store, now: int): Store {
    map k | k in store && now <= store[k].resetTime :: store[k]
  }

  function Next(store: Store, e: Event): Store {
    match e
    case Check(id, now) => Checked(store, id, now)
    case Clear(id, _) => store - {id}
    case Sweep(now) => Swept(store, now)
  }

  /** The answers of a run, one per Check event. */
  function Answers(store: Store, events: seq<Event>): seq<Answer>
    decreases |events|
  {
    if events == [] then []
    else (if events[0].Check? then [AnswerTo(store, events[0].id, events[0].now)] else [])
         + Answers(Next(store, events[0]), events[1..])
  }

  /** The clock never goes back. */
  predicate Ordered(events: seq<Event>, since: int) {
    events == [] || (since <= events[0].now && Ordered(events[1..], events[0].now))
  }

  // ---- The sweep is unobservable ----

  function WithoutSweeps(events: seq<Event>): seq<Event> {
    if events == [] then []
    else (if events[0].Sweep? then [] else [events[0]]) + WithoutSweeps(events[1..])
  }

  /** Two stores that differ only in expired entries. */
  ghost predicate SameLive(a: Store, b: Store, now: int) {
    forall id :: SameFor(a, b, id, now)
  }

  /** The same for one identifier. */
  predicate SameFor(a: Store, b: Store, id: string, now: int) {
    Live(a, id, now) == Live(b, id, now) && (Live(a, id, now) ==> a[id] == b[id])
  }

  lemma SameLiveNext(a: Store, b: Store, e: Event, since: int)
    requires SameLive(a, b, since) && since <= e.now
    ensures SameLive(Next(a, e), Next(b, e), e.now)
    ensures e.Sweep? ==> SameLive(Next(a, e), b, e.now)
    ensures e.Check? ==> AnswerTo(a, e.id, e.now) == AnswerTo(b, e.id, e.now)
  {
    forall id ensures SameFor(Next(a, e), Next(b, e), id, e.now) && (e.Sweep? ==> SameFor(Next(a, e), b, id, e.now)) {
      assert SameFor(a, b, id, since);
    }
    if e.Check? {
      assert SameFor(a, b, e.id, since);
    }
  }

  /**
   For every sequence of calls and clears, and every placement of sweeps in it,
   the swept store answers all calls exactly as a store that is never swept.
   */
  lemma {:induction false} SweepUnobservable(a: Store, b: Store, events: seq<Event>, since: int)
    requires SameLive(a, b, since) && Ordered(events, since)
    ensures Answers(a, events) == Answers(b, WithoutSweeps(events))
    decreases |events|
  {
    if events != [] {
      var e, rest := events[0], events[1..];
      SameLiveNext(a, b, e, since);
      if e.Sweep? {
        assert WithoutSweeps(events) == WithoutSweeps(rest);
        SweepUnobservable(Next(a, e), b, rest, e.now);
      } else {
        SweepUnobservable(Next(a, e), Next(b, e), rest, e.now);
        var kept := WithoutSweeps(events);
        assert kept[0] == e && kept[1..] == WithoutSweeps(rest);
      }
    }
  }

  // ---- Identifiers do not affect each other ----

  function For(events: seq<Event>, id: string): seq<Event> {
    if events == [] then []
    else (if !events[0].Sweep? && events[0].id == id then [events[0]] else []) + For(events[1..], id)
  }

  /** The answers given to one identifier. */
  function AnswersFor(store: Store, events: seq<Event>, id: string): seq<Answer>
    decreases |events|
  {
    if events == [] then []
    else (if events[0].Check? && events[0].id == id then [AnswerTo(store, id, events[0].now)] else [])
         + AnswersFor(Next(store, events[0]), events[1..], id)
  }

  lemma SameForNext(a: Store, b: Store, e: Event, id: string, since: int)
    requires SameFor(a, b, id, since) && since <= e.now
    ensures !e.Sweep? && e.id == id ==> SameFor(Next(a, e), Next(b, e), id, e.now)
    ensures e.Sweep? || e.id != id ==> SameFor(Next(a, e), b, id, e.now)
    ensures e.Check? && e.id == id ==> AnswerTo(a, id, e.now) == AnswerTo(b, id, e.now)
  {
  }

  /** An identifier's answers are those it would get alone, without other identifiers and without sweeps. */
  lemma {:induction false} Independent(a: Store, b: Store, events: seq<Event>, id: string, since: int)
    requires SameFor(a, b, id, since) && Ordered(events, since)
    ensures AnswersFor(a, events, id) == Answers(b, For(events, id))
    decreases |events|
  {
    if events != [] {
      var e, rest := events[0], events[1..];
      SameForNext(a, b, e, id, since);
      if !e.Sweep? && e.id == id {
        Independent(Next(a, e), Next(b, e), rest, id, e.now);
        var mine := For(events, id);
        assert mine[0] == e && mine[1..] == For(rest, id);
      } else {
        assert For(events, id) == For(rest, id);
        Independent(Next(a, e), b, rest, id, e.now);
      }
    }
  }

  // ---- How many calls are allowed ----

  /** Calls of `id` allowed at a time in [from, to]. */
  function AllowedIn(store: Store, events: seq<Event>, id: string, from: int, to: int): nat
    decreases |events|
  {
    if events == [] then 0
    else
      var e := events[0];
      (if e.Check? && e.id == id && from <= e.now <= to && AnswerTo(store, id, e.now).allowed then 1 else 0)
      + AllowedIn(Next(store, e), events[1..], id, from, to)
  }

  /** Calls of `id` made at a time in [from, to]. */
  function CallsIn(events: seq<Event>, id: string, from: int, to: int): nat {
    if events == [] then 0
    else
      var e := events[0];
      (if e.Check? && e.id == id && from <= e.now <= to then 1 else 0) + CallsIn(events[1..], id, from, to)
  }

  predicate NeverCleared(events: seq<Event>, id: string) {
    forall k :: 0 <= k < |events| && events[k].Clear? ==> events[k].id != id
  }

  predicate ValidStore(store: Store) {
    forall id :: id in store ==> 1 <= store[id].count <= MAX_ATTEMPTS
  }

  lemma ValidNext(store: Store, e: Event)
    requires ValidStore(store)
    ensures ValidStore(Next(store, e))
  {
  }

  /**
   Within a live window the limiter allows exactly the attempts left in it: of
   the calls made up to the reset time, as many as are left, whatever happens
   to other identifiers and whenever sweeps run.
   */
  lemma {:induction false} WindowAllows(store: Store, events: seq<Event>, id: string, since: int)
    requires ValidStore(store) && Live(store, id, since)
    requires Ordered(events, since) && NeverCleared(events, id)
    ensures var reset, left := store[id].resetTime, MAX_ATTEMPTS - store[id].count;
            var calls := CallsIn(events, id, since, reset);
            AllowedIn(store, events, id, since, reset) == if calls <= left then calls else left
    decreases |events|
  {
    if events != [] {
      var e, rest := events[0], events[1..];
      var reset := store[id].resetTime;
      ValidNext(store, e);
      if e.now <= reset {
        WindowAllows(Next(store, e), rest, id, e.now);
        NothingBefore(Next(store, e), rest, id, since, reset, e.now);
      } else {
        NothingAfter(Next(store, e), rest, id, since, reset, e.now);
      }
    }
  }

  /** Counting from an earlier bound makes no difference when nothing happened before `now`. */
  lemma {:induction false} NothingBefore(store: Store, events: seq<Event>, id: string, from: int, to: int, now: int)
    requires Ordered(events, now) && from <= now
    ensures AllowedIn(store, events, id, from, to) == AllowedIn(store, events, id, now, to)
    ensures CallsIn(events, id, from, to) == CallsIn(events, id, now, to)
    decreases |events|
  {
    if events != [] {
      var e := events[0];
      NothingBefore(Next(store, e), events[1..], id, from, to, e.now);
      NothingBefore(Next(store, e), events[1..], id, now, to, e.now);
    }
  }

  lemma {:induction false} NothingAfter(store: Store, events: seq<Event>, id: string, from: int, to: int, now: int)
    requires Ordered(events, now) && to < now
    ensures AllowedIn(store, events, id, from, to) == 0 && CallsIn(events, id, from, to) == 0
    decreases |events|
  {
    if events != [] {
      NothingAfter(Next(store, events[0]), events[1..], id, from, to, events[0].now);
    }
  }

  /** The `remaining` of an answer is exactly how many further calls of that window will be allowed. */
  lemma RemainingIsExact(store: Store, id: string, now: int, events: seq<Event>)
    requires ValidStore(store) && Ordered(events, now) && NeverCleared(events, id)
    ensures var after := Checked(store, id, now);
            var calls := CallsIn(events, id, now, after[id].resetTime);
            var remaining := AnswerTo(store, id, now).remaining;
            AllowedIn(after, events, id, now, after[id].resetTime) == if calls <= remaining then calls else remaining
  {
    ValidNext(store, Check(id, now));
    WindowAllows(Checked(store, id, now), events, id, now);
  }

  /** What can still be allowed up to time `to`, when `to` is at most one window past the current one. */
  function Budget(store: Store, id: string, now: int, to: int): int {
    if !Live(store, id, now) then MAX_ATTEMPTS
    else if to <= store[id].resetTime then MAX_ATTEMPTS - store[id].count
    else 2 * MAX_ATTEMPTS - store[id].count
  }

  lemma {:induction false} WithinBudget(store: Store, events: seq<Event>, id: string, now: int, to: int)
    requires ValidStore(store) && Ordered(events, now) && NeverCleared(events, id)
    requires to <= (if Live(store, id, now) then store[id].resetTime else now) + WINDOW_MS
    ensures AllowedIn(store, events, id, now, to) <= Budget(store, id, now, to)
    decreases |events|
  {
    if events != [] {
      var e, rest := events[0], events[1..];
      var next := Next(store, e);
      ValidNext(store, e);
      NothingBefore(next, rest, id, now, to, e.now);
      if e.now > to {
        NothingAfter(next, rest, id, now, to, e.now);
      } else {
        WithinBudget(next, rest, id, e.now, to);
      }
    }
  }

  /** No window allows more than five calls: from a call that opens one, at most four more up to its reset. */
  lemma FivePerWindow(store: Store, events: seq<Event>, id: string, now: int)
    requires ValidStore(store) && Ordered(events, now) && NeverCleared(events, id) && !Live(store, id, now)
    ensures AllowedIn(Checked(store, id, now), events, id, now, now + WINDOW_MS) <= MAX_ATTEMPTS - 1
  {
    ValidNext(store, Check(id, now));
    WithinBudget(Checked(store, id, now), events, id, now, now + WINDOW_MS);
  }

  /**
   In any closed interval of one window's length an identifier gets at most
   nine allowed calls: if two windows meet the interval, the first window's
   opening call lies before it.
   */
  lemma {:induction false} NinePerInterval(store: Store, events: seq<Event>, id: string, since: int, from: int)
    requires ValidStore(store) && Ordered(events, since) && NeverCleared(events, id)
    ensures AllowedIn(store, events, id, from, from + WINDOW_MS) <= 2 * MAX_ATTEMPTS - 1
    decreases |events|
  {
    if events != [] {
      var e, rest := events[0], events[1..];
      ValidNext(store, e);
      if e.now < from {
        NinePerInterval(Next(store, e), rest, id, e.now, from);
      } else {
        assert Ordered(events, e.now);
        NothingBefore(store, events, id, from, from + WINDOW_MS, e.now);
        WithinBudget(store, events, id, e.now, from + WINDOW_MS);
      }
    }
  }

  /** `n` calls of one identifier at one time. */
  function Burst(id: string, now: int, n: nat): seq<Event> {
    seq(n, _ => Check(id, now))
  }

  lemma {:induction false} BurstAllowed(entry: Entry, id: string, now: int, n: nat, rest: seq<Event>,
                                        from: int, to: int)
    requires now <= entry.resetTime && entry.count + n <= MAX_ATTEMPTS && from <= now <= to
    ensures AllowedIn(map[id := entry], Burst(id, now, n) + rest, id, from, to) ==
            n + AllowedIn(map[id := entry.(count := entry.count + n)], rest, id, from, to)
    decreases n
  {
    if n == 0 {
      assert Burst(id, now, n) + rest == rest;
    } else {
      var events := Burst(id, now, n) + rest;
      assert events[0] == Check(id, now) && events[1..] == Burst(id, now, n - 1) + rest;
      var next := entry.(count := entry.count + 1);
      assert map[id := entry][id := next] == map[id := next];
      BurstAllowed(next, id, now, n - 1, rest, from, to);
    }
  }

  lemma OpensWindow(store: Store, id: string, now: int, rest: seq<Event>, from: int, to: int)
    requires !Live(store, id, now) && store.Keys <= {id}
    ensures AllowedIn(store, [Check(id, now)] + rest, id, from, to) ==
            (if from <= now <= to then 1 else 0) + AllowedIn(map[id := Entry(1, now + WINDOW_MS)], rest, id, from, to)
  {
    assert ([Check(id, now)] + rest)[1..] == rest;
    assert store[id := Entry(1, now + WINDOW_MS)] == map[id := Entry(1, now + WINDOW_MS)];
  }

  /** Nine is attained: one early call, four at the last moment of its window and five a millisecond later. */
  lemma NineAttained(id: string)
    ensures var second := [Check(id, WINDOW_MS + 1)] + (Burst(id, WINDOW_MS + 1, 4) + []);
            AllowedIn(map[], [Check(id, 0)] + (Burst(id, WINDOW_MS, 4) + second), id, 1, 1 + WINDOW_MS)
            == 2 * MAX_ATTEMPTS - 1
  {
    var second := [Check(id, WINDOW_MS + 1)] + (Burst(id, WINDOW_MS + 1, 4) + []);
    OpensWindow(map[], id, 0, Burst(id, WINDOW_MS, 4) + second, 1, 1 + WINDOW_MS);
    BurstAllowed(Entry(1, WINDOW_MS), id, WINDOW_MS, 4, second, 1, 1 + WINDOW_MS);
    OpensWindow(map[id := Entry(5, WINDOW_MS)], id, WINDOW_MS + 1, Burst(id, WINDOW_MS + 1, 4) + [], 1, 1 + WINDOW_MS);
    BurstAllowed(Entry(1, 2 * WINDOW_MS + 1), id, WINDOW_MS + 1, 4, [], 1, 1 + WINDOW_MS);
  }

  /** After a clear the identifier starts afresh: its next call is allowed, with four more to go. */
  lemma ClearStartsAfresh(store: Store, id: string, cleared: int, now: int, events: seq<Event>)
    requires ValidStore(store) && Ordered(events, now) && NeverCleared(events, id)
    ensures var s := Next(store, Clear(id, cleared));
            && AnswerTo(s, id, now) == Answer(true, 4)
            && AllowedIn(Checked(s, id, now), events, id, now, now + 60000)
               == if CallsIn(events, id, now, now + 60000) < 4 then CallsIn(events, id, now, now + 60000) else 4
  {
    var s := Next(store, Clear(id, cleared));
    RemainingIsExact(s, id, now, events);
  }

  /** A clear is not seen by other identifiers, now or later. */
  lemma ClearIsPrivate(store: Store, id: string, cleared: int, other: string, events: seq<Event>, since: int)
    requires other != id && Ordered(events, since)
    ensures AnswersFor(Next(store, Clear(id, cleared)), events, other) == AnswersFor(store, events, other)
  {
    Independent(Next(store, Clear(id, cleared)), store, events, other, since);
    Independent(store, store, events, other, since);
  }

  /** The module state and its three operations. */
  class Limiter {
    var store: Store

    constructor ()
      ensures store == map[] && ValidStore(store)
    {
      store := map[];
    }

    method CheckRateLimit(id: string, now: int) returns (answer: Answer)
      modifies this
      ensures store == Next(old(store), Check(id, now)) && answer == AnswerTo(old(store), id, now)
    {
      if id !in store || now > store[id].resetTime {
        store := store[id := Entry(1, now + WINDOW_MS)];
        return Answer(true, MAX_ATTEMPTS - 1);
      }
      var entry := store[id];
      if entry.count >= MAX_ATTEMPTS {
        return Answer(false, 0);
      }
      entry := entry.(count := entry.count + 1);
      store := store[id := entry];
      answer := Answer(true, MAX_ATTEMPTS - entry.count);
    }

    method ClearRateLimit(id: string, now: int)
      modifies this
      ensures store == Next(old(store), Clear(id, now))
      ensures id !in store && forall other :: other != id ==>
                (other in store <==> other in old(store)) && (other in store ==> store[other] == old(store)[other])
    {
      store := store - {id};
    }

    /** The interval callback: a loop over the entries, deleting from the map it iterates. */
    method Cleanup(now: int)
      modifies this
      ensures store == Next(old(store), Sweep(now))
      ensures forall id :: id in store <==> id in old(store) && now <= old(store)[id].resetTime
      ensures forall id :: id in store ==> store[id] == old(store)[id]
    {
      var before := store;
      var keys := before.Keys;
      while keys != {}
        invariant keys <= before.Keys
        invariant store == map k | k in before && (k in keys || now <= before[k].resetTime) :: before[k]
        decreases |keys|
      {
        var key :| key in keys;
        keys := keys - {key};
        if now > before[key].resetTime {
          store := store - {key};
        }
      }
    }
  }
}
