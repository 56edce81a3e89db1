/**
 Invoice settlement (billing.service.ts, payInvoice) as a step protocol.

 Any number of payment attempts interleave at their awaits. An attempt looks
 the invoice up, reads the accounts, sends up to four transfers to the finance
 service, each under a deterministic idempotency key, and marks an invoice
 PAID. The finance service is foreign: a key is applied at most once, a call
 may fail before or after applying, and success means the key is applied.
 */
module Settlement {
  import opened Basics
  import opened Invoicing

  type Id = string
  type Account = string

  datatype Status = Pending | Paid | Overdue | Cancelled

  datatype Invoice = Invoice(id: Id, number: string, userId: string, partnered: bool,
                             amounts: Amounts, status: Status, referenceId: Option<string>)

  /** What payInvoice was called with; `resolved` is the reference a TXN identifier led to in the finance service. */
  datatype Query = Query(id: string, userId: string, resolved: Option<string>)

  /** What one attempt read: the customer's wallet and the partner's and the system's accounts. */
  datatype View = View(wallet: Account, pending: Option<Account>, vat: Option<Account>,
                       revenue: Option<Account>, vatPayable: Option<Account>)

  /** An idempotency key; KeysInjective shows that its string determines it. */
  datatype Key = Key(leg: Leg, invoice: Id)

  datatype Transfer = Transfer(key: Key, from: Account, to: Option<Account>, amount: int)

  /** An attempt past its reads: `next` of its `legs` have succeeded. */
  datatype Attempt = Attempt(callerId: Id, invoice: Id, view: View, legs: seq<Leg>, next: nat)

  /** The invoice table, the finance service's journal of applied transfers and the attempts in flight. */
  datatype State = State(invoices: map<Id, Invoice>, journal: seq<Transfer>, attempts: map<nat, Attempt>)

  // ---- Keys and legs ----

  function KeyPrefix(leg: Leg): string {
    match leg
    case Net => "pay_leg_net_"
    case Vat => "pay_leg_vat_"
    case Fee => "pay_leg_fee_"
    case FeeVat => "pay_leg_svat_"
  }

  /** The idempotency key as it is sent. */
  function KeyString(key: Key): string {
    KeyPrefix(key.leg) + key.invoice
  }

  function Destination(view: View, leg: Leg): Option<Account> {
    match leg
    case Net => view.pending
    case Vat => view.vat
    case Fee => view.revenue
    case FeeVat => view.vatPayable
  }

  /** The net leg is always sent; the others only when positive and their account exists. */
  predicate Sent(a: Amounts, view: View, leg: Leg) {
    leg.Net? || (LegAmount(a, leg) > 0 && Destination(view, leg).Some?)
  }

  function LegIfSent(a: Amounts, view: View, leg: Leg): seq<Leg> {
    if Sent(a, view, leg) then [leg] else []
  }

  function Required(inv: Invoice, view: View): seq<Leg> {
    if !inv.partnered then []
    else [Net] + LegIfSent(inv.amounts, view, Vat) + LegIfSent(inv.amounts, view, Fee)
         + LegIfSent(inv.amounts, view, FeeVat)
  }

  function LegTransfer(inv: Invoice, view: View, leg: Leg): Transfer {
    Transfer(Key(leg, inv.id), view.wallet, Destination(view, leg), LegAmount(inv.amounts, leg))
  }

  /** The transfers one complete payment of the invoice consists of, in order. */
  function Plan(inv: Invoice, view: View): seq<Transfer> {
    var legs := Required(inv, view);
    seq(|legs|, k requires 0 <= k < |legs| => LegTransfer(inv, view, legs[k]))
  }

  predicate HasKey(journal: seq<Transfer>, key: Key) {
    exists k :: 0 <= k < |journal| && journal[k].key == key
  }

  /** The part of the journal that belongs to one invoice. */
  function JournalOf(journal: seq<Transfer>, id: Id): seq<Transfer> {
    if journal == [] then []
    else
      var last := journal[|journal| - 1];
      JournalOf(journal[..|journal| - 1], id) + if last.key.invoice == id then [last] else []
  }

  // ---- Steps ----

  datatype Step =
    | Create(invoice: Invoice)
    | Begin(attempt: nat, query: Query, found: Id, view: View)
    | Call(attempt: nat, applied: bool, ok: bool)
    | Finish(attempt: nat, applied: bool)
    | Crash(attempt: nat)

  predicate RefersTo(inv: Invoice, reference: string) {
    inv.referenceId == Some(reference) || (inv.referenceId.Some? && reference == "PAY-" + inv.referenceId.value)
  }

  /** The conditions of the lookup, which returns any one match. */
  predicate Matches(q: Query, inv: Invoice) {
    && inv.userId == q.userId
    && (|| inv.id == q.id
        || inv.number == q.id
        || RefersTo(inv, q.id)
        || ("TXN" <= q.id && q.resolved.Some? && (
              || RefersTo(inv, q.resolved.value)
              || (!("PAY-" <= q.resolved.value) && inv.referenceId == Some("PAY-" + q.resolved.value)))))
  }

  predicate Enabled(s: State, step: Step) {
    match step
    case Create(inv) => inv.id !in s.invoices && inv.status == Pending
    case Begin(a, q, i, view) =>
      a !in s.attempts && i in s.invoices && Matches(q, s.invoices[i]) && s.invoices[i].status != Paid
    case Call(a, applied, ok) =>
      && a in s.attempts && s.attempts[a].invoice in s.invoices && s.attempts[a].next < |s.attempts[a].legs|
      && (ok ==> applied || HasKey(s.journal, Key(s.attempts[a].legs[s.attempts[a].next], s.attempts[a].invoice)))
    case Finish(a, _) => a in s.attempts && s.attempts[a].next == |s.attempts[a].legs|
    case Crash(a) => a in s.attempts
  }

  /** performTransfer: a key that is already in the journal moves nothing. */
  function Record(journal: seq<Transfer>, t: Transfer, applied: bool): seq<Transfer> {
    if applied && !HasKey(journal, t.key) then journal + [t] else journal
  }

  function MarkPaid(inv: Invoice, settled: Id): Invoice {
    inv.(status := Paid, referenceId := Some("SPLIT_PAY_" + settled))
  }

  function Apply(s: State, step: Step): State
    requires Enabled(s, step)
  {
    match step
    case Create(inv) => s.(invoices := s.invoices[inv.id := inv])
    case Begin(a, q, i, view) =>
      s.(attempts := s.attempts[a := Attempt(q.id, i, view, Required(s.invoices[i], view), 0)])
    case Call(a, applied, ok) =>
      var att := s.attempts[a];
      var t := LegTransfer(s.invoices[att.invoice], att.view, att.legs[att.next]);
      State(s.invoices, Record(s.journal, t, applied),
            if ok then s.attempts[a := att.(next := att.next + 1)] else s.attempts - {a})
    case Finish(a, applied) =>
      var att := s.attempts[a];
      // The update is by the caller's identifier; when no row has it the update throws.
      State(if applied && att.callerId in s.invoices
            then s.invoices[att.callerId := MarkPaid(s.invoices[att.callerId], att.invoice)] else s.invoices,
            s.journal, s.attempts - {a})
    case Crash(a) => s.(attempts := s.attempts - {a})
  }

  /** Rows are stored under their id, and attempts refer to stored invoices. */
  predicate Wellformed(s: State) {
    && (forall i :: i in s.invoices ==> s.invoices[i].id == i)
    && (forall a :: a in s.attempts ==>
          && s.attempts[a].invoice in s.invoices
          && s.attempts[a].next <= |s.attempts[a].legs|
          && s.attempts[a].legs == Required(s.invoices[s.attempts[a].invoice], s.attempts[a].view))
  }

  const INIT: State := State(map[], [], map[])

  lemma StepKeepsWellformed(s: State, step: Step)
    requires Wellformed(s) && Enabled(s, step)
    ensures Wellformed(Apply(s, step))
  {
  }

  predicate Runs(s: State, steps: seq<Step>)
    decreases |steps|
  {
    steps == [] || (Enabled(s, steps[0]) && Runs(Apply(s, steps[0]), steps[1..]))
  }

  function Exec(s: State, steps: seq<Step>): State
    requires Runs(s, steps)
    decreases |steps|
  {
    if steps == [] then s else Exec(Apply(s, steps[0]), steps[1..])
  }

  lemma {:induction false} RunKeepsWellformed(s: State, steps: seq<Step>)
    requires Wellformed(s) && Runs(s, steps)
    ensures Wellformed(Exec(s, steps))
    decreases |steps|
  {
    if steps != [] {
      StepKeepsWellformed(s, steps[0]);
      RunKeepsWellformed(Apply(s, steps[0]), steps[1..]);
    }
  }

  lemma RunsCons(s: State, step: Step, rest: seq<Step>)
    requires Enabled(s, step) && Runs(Apply(s, step), rest)
    ensures Runs(s, [step] + rest) && Exec(s, [step] + rest) == Exec(Apply(s, step), rest)
  {
    assert ([step] + rest)[1..] == rest;
  }

  lemma {:induction false} RunsSnoc(s: State, steps: seq<Step>, step: Step)
    requires Runs(s, steps) && Enabled(Exec(s, steps), step)
    ensures Runs(s, steps + [step]) && Exec(s, steps + [step]) == Apply(Exec(s, steps), step)
    decreases |steps|
  {
    if steps == [] {
      RunsCons(s, step, []);
      assert steps + [step] == [step] + [];
    } else {
      RunsSnoc(Apply(s, steps[0]), steps[1..], step);
      assert (steps + [step])[1..] == steps[1..] + [step];
    }
  }

  lemma {:induction false} RunsConcat(s: State, xs: seq<Step>, ys: seq<Step>)
    requires Runs(s, xs) && Runs(Exec(s, xs), ys)
    ensures Runs(s, xs + ys) && Exec(s, xs + ys) == Exec(Exec(s, xs), ys)
    decreases |xs|
  {
    if xs == [] {
      assert xs + ys == ys;
    } else {
      RunsConcat(Apply(s, xs[0]), xs[1..], ys);
      RunsCons(s, xs[0], xs[1..] + ys);
      assert xs + ys == [xs[0]] + (xs[1..] + ys);
    }
  }

  // ---- Keys never collide ----

  /** The eighth character tells the four kinds apart, and equal kinds leave the id. */
  lemma KeysInjective(key: Key, key': Key)
    requires KeyString(key) == KeyString(key')
    ensures key == key'
  {
    assert KeyString(key)[8] == KeyString(key')[8];
    assert key.leg == key'.leg;
    var n := |KeyPrefix(key.leg)|;
    assert KeyString(key)[n..] == key.invoice && KeyString(key')[n..] == key'.invoice;
  }

  /** The keys as the finance service sees them. */
  lemma KeysAsSent(i: Id)
    ensures KeyString(Key(Net, i)) == "pay_leg_net_" + i && KeyString(Key(Vat, i)) == "pay_leg_vat_" + i
    ensures KeyString(Key(Fee, i)) == "pay_leg_fee_" + i && KeyString(Key(FeeVat, i)) == "pay_leg_svat_" + i
  {
  }

  /** So a finance service that compares key strings drops exactly the repeated legs. */
  lemma StringsDecideRepeats(journal: seq<Transfer>, key: Key)
    ensures HasKey(journal, key) <==> exists k :: 0 <= k < |journal| && KeyString(journal[k].key) == KeyString(key)
  {
    forall k | 0 <= k < |journal| && KeyString(journal[k].key) == KeyString(key) ensures journal[k].key == key {
      KeysInjective(journal[k].key, key);
    }
  }

  lemma RequiredDistinct(inv: Invoice, view: View)
    ensures var legs := Required(inv, view);
            forall j, k :: 0 <= j < k < |legs| ==> legs[j] != legs[k]
  {
  }

  lemma PlanKeysDistinct(inv: Invoice, view: View)
    ensures DistinctKeys(Plan(inv, view))
  {
    RequiredDistinct(inv, view);
  }

  // ---- The journal of one invoice ----

  lemma JournalOfAppend(journal: seq<Transfer>, t: Transfer, id: Id)
    ensures JournalOf(journal + [t], id) == JournalOf(journal, id) + if t.key.invoice == id then [t] else []
  {
    assert (journal + [t])[..|journal|] == journal;
  }

  /** A leg's key is in the journal exactly when it is in the invoice's part of it. */
  lemma {:induction false} KeyInJournalOf(journal: seq<Transfer>, id: Id, leg: Leg)
    ensures HasKey(journal, Key(leg, id)) <==> HasKey(JournalOf(journal, id), Key(leg, id))
  {
    var key := Key(leg, id);
    if journal != [] {
      var init, last := journal[..|journal| - 1], journal[|journal| - 1];
      assert journal == init + [last];
      KeyInJournalOf(init, id, leg);
      HasKeyAppend(init, last, key);
      HasKeyAppend(JournalOf(init, id), last, key);
      assert JournalOf(init, id) + [] == JournalOf(init, id);
    }
  }

  lemma HasKeyAppend(journal: seq<Transfer>, t: Transfer, key: Key)
    ensures HasKey(journal + [t], key) <==> HasKey(journal, key) || t.key == key
  {
    var j := journal + [t];
    if t.key == key {
      assert j[|journal|].key == key;
    }
    if HasKey(journal, key) {
      var k :| 0 <= k < |journal| && journal[k].key == key;
      assert j[k].key == key;
    }
  }

  /** The legs of an invoice that were applied, in order. */
  function AppliedLegs(journal: seq<Transfer>, i: Id): seq<Leg> {
    if journal == [] then []
    else
      var last := journal[|journal| - 1];
      AppliedLegs(journal[..|journal| - 1], i) + if last.key.invoice == i then [last.key.leg] else []
  }

  lemma {:induction false} LegIsApplied(journal: seq<Transfer>, i: Id, leg: Leg)
    ensures HasKey(journal, Key(leg, i)) <==> leg in AppliedLegs(journal, i)
  {
    if journal != [] {
      var init, last := journal[..|journal| - 1], journal[|journal| - 1];
      assert journal == init + [last];
      LegIsApplied(init, i, leg);
      HasKeyAppend(init, last, Key(leg, i));
    }
  }

  lemma AppliedLegsAppend(journal: seq<Transfer>, t: Transfer, i: Id)
    ensures AppliedLegs(journal + [t], i) == AppliedLegs(journal, i) + if t.key.invoice == i then [t.key.leg] else []
  {
    assert (journal + [t])[..|journal|] == journal;
  }

  function LegsOf(transfers: seq<Transfer>): seq<Leg> {
    if transfers == [] then []
    else LegsOf(transfers[..|transfers| - 1]) + [transfers[|transfers| - 1].key.leg]
  }

  lemma {:induction false} AppliedLegsOfJournal(journal: seq<Transfer>, i: Id)
    ensures AppliedLegs(journal, i) == LegsOf(JournalOf(journal, i))
  {
    if journal != [] {
      var init := journal[..|journal| - 1];
      AppliedLegsOfJournal(init, i);
      assert JournalOf(init, i) + [] == JournalOf(init, i);
      assert forall t :: (JournalOf(init, i) + [t])[..|JournalOf(init, i)|] == JournalOf(init, i);
    }
  }

  // ---- Every run: no key moves money twice, and every entry is a leg of a stored invoice ----

  predicate DistinctKeys(journal: seq<Transfer>) {
    forall j, k :: 0 <= j < k < |journal| ==> journal[j].key != journal[k].key
  }

  /**
   The entry is a leg of a stored invoice, at that leg's amount; only a net leg may be
   empty or lack a destination.
   */
  predicate Explained(s: State, t: Transfer) {
    && t.key.invoice in s.invoices && t.amount == LegAmount(s.invoices[t.key.invoice].amounts, t.key.leg)
    && (t.key.leg != Net ==> t.amount > 0 && t.to.Some?)
  }

  predicate SoundJournal(s: State) {
    && DistinctKeys(s.journal)
    && forall k :: 0 <= k < |s.journal| ==> Explained(s, s.journal[k])
  }

  lemma StepKeepsSoundJournal(s: State, step: Step)
    requires Wellformed(s) && Enabled(s, step) && SoundJournal(s)
    ensures SoundJournal(Apply(s, step))
  {
    var s' := Apply(s, step);
    if step.Call? {
      var att := s.attempts[step.attempt];
      RequiredIsSent(s.invoices[att.invoice], att.view, att.legs[att.next]);
    }
    forall k | 0 <= k < |s'.journal| ensures Explained(s', s'.journal[k]) {
      assert k < |s.journal| ==> Explained(s, s.journal[k]);
    }
  }

  /** In every run the journal holds each key at most once, and only legs at the amounts of their invoice. */
  lemma {:induction false} EachLegMovesOnce(s: State, steps: seq<Step>)
    requires Wellformed(s) && SoundJournal(s) && Runs(s, steps)
    ensures SoundJournal(Exec(s, steps))
    decreases |steps|
  {
    if steps != [] {
      StepKeepsSoundJournal(s, steps[0]);
      EachLegMovesOnce(Apply(s, steps[0]), steps[1..]);
    }
  }

  // ---- Every run: an attempt never gets past a leg that is not journalled ----

  predicate Backed(journal: seq<Transfer>, att: Attempt) {
    forall k :: 0 <= k < att.next && k < |att.legs| ==> HasKey(journal, Key(att.legs[k], att.invoice))
  }

  predicate AttemptsBacked(s: State) {
    forall a :: a in s.attempts ==> Backed(s.journal, s.attempts[a])
  }

  lemma RecordKeepsKeys(journal: seq<Transfer>, t: Transfer, applied: bool, key: Key)
    requires HasKey(journal, key) || (applied && t.key == key)
    ensures HasKey(Record(journal, t, applied), key)
  {
    HasKeyAppend(journal, t, key);
  }

  lemma RecordKeepsBacked(journal: seq<Transfer>, t: Transfer, applied: bool, att: Attempt)
    requires Backed(journal, att)
    ensures Backed(Record(journal, t, applied), att)
  {
    forall k | 0 <= k < att.next && k < |att.legs|
      ensures HasKey(Record(journal, t, applied), Key(att.legs[k], att.invoice))
    {
      RecordKeepsKeys(journal, t, applied, Key(att.legs[k], att.invoice));
    }
  }

  lemma RecordBacksNext(journal: seq<Transfer>, t: Transfer, applied: bool, att: Attempt)
    requires Backed(journal, att) && att.next < |att.legs| && t.key == Key(att.legs[att.next], att.invoice)
    requires applied || HasKey(journal, t.key)
    ensures Backed(Record(journal, t, applied), att.(next := att.next + 1))
  {
    RecordKeepsBacked(journal, t, applied, att);
    RecordKeepsKeys(journal, t, applied, t.key);
  }

  lemma StepKeepsBacked(s: State, step: Step)
    requires Wellformed(s) && Enabled(s, step) && AttemptsBacked(s)
    ensures AttemptsBacked(Apply(s, step))
  {
    if step.Call? {
      var att := s.attempts[step.attempt];
      var t := LegTransfer(s.invoices[att.invoice], att.view, att.legs[att.next]);
      forall a | a in s.attempts ensures Backed(Record(s.journal, t, step.applied), s.attempts[a]) {
        RecordKeepsBacked(s.journal, t, step.applied, s.attempts[a]);
      }
      if step.ok {
        RecordBacksNext(s.journal, t, step.applied, att);
      }
    }
  }

  /** In every run, whichever accounts each attempt saw, an attempt's finished legs are in the journal. */
  lemma {:induction false} RunKeepsBacked(s: State, steps: seq<Step>)
    requires Wellformed(s) && AttemptsBacked(s) && Runs(s, steps)
    ensures Wellformed(Exec(s, steps)) && AttemptsBacked(Exec(s, steps))
    decreases |steps|
  {
    if steps != [] {
      StepKeepsWellformed(s, steps[0]);
      StepKeepsBacked(s, steps[0]);
      RunKeepsBacked(Apply(s, steps[0]), steps[1..]);
    }
  }

  // ---- Exactly-once settlement ----

  /** The same accounts exist in both, so they require the same legs; the account ids may differ. */
  predicate Alike(view: View, view': View) {
    view.vat.Some? == view'.vat.Some? && view.revenue.Some? == view'.revenue.Some?
    && view.vatPayable.Some? == view'.vatPayable.Some?
  }

  /**
   An attempt that names row `i` finds it, and attempts that find it, under
   whatever identifier, see the same accounts present.
   */
  predicate Direct(step: Step, i: Id, view: View) {
    step.Begin? ==> (step.query.id == i ==> step.found == i) && (step.found == i ==> Alike(step.view, view))
  }

  predicate AllDirect(steps: seq<Step>, i: Id, view: View) {
    forall k :: 0 <= k < |steps| ==> Direct(steps[k], i, view)
  }

  lemma AlikeRequires(inv: Invoice, view: View, view': View)
    requires Alike(view, view')
    ensures Required(inv, view) == Required(inv, view')
  {
  }

  /** The legs applied for invoice `i` are the first of its required ones, and no attempt on it is ahead of them. */
  predicate InOrder(s: State, i: Id, view: View) {
    var done := AppliedLegs(s.journal, i);
    && (if i !in s.invoices then done == []
        else && done <= Required(s.invoices[i], view)
             && (s.invoices[i].status == Paid ==> done == Required(s.invoices[i], view)))
    && forall a :: a in s.attempts ==>
         && (s.attempts[a].callerId == i ==> s.attempts[a].invoice == i)
         && (s.attempts[a].invoice == i ==> Alike(s.attempts[a].view, view) && s.attempts[a].next <= |done|)
  }

  /** Sending leg `n` when the first `n` are applied: it is applied already, or is exactly the next one. */
  lemma RecordStaysInOrder(journal: seq<Transfer>, i: Id, legs: seq<Leg>, n: nat, t: Transfer, applied: bool)
    requires forall j, k :: 0 <= j < k < |legs| ==> legs[j] != legs[k]
    requires AppliedLegs(journal, i) <= legs && n <= |AppliedLegs(journal, i)| && n < |legs| && t.key == Key(legs[n], i)
    ensures var done, done' := AppliedLegs(journal, i), AppliedLegs(Record(journal, t, applied), i);
            done <= done' <= legs && (applied || HasKey(journal, t.key) ==> n < |done'|)
  {
    LegIsApplied(journal, i, legs[n]);
    AppliedLegsAppend(journal, t, i);
    var done := AppliedLegs(journal, i);
    assert n < |done| ==> done[n] == legs[n];
  }

  lemma CallStaysInOrder(s: State, step: Step, i: Id, view: View)
    requires Wellformed(s) && Enabled(s, step) && InOrder(s, i, view) && step.Call?
    ensures var att := s.attempts[step.attempt];
            var done, done' := AppliedLegs(s.journal, i), AppliedLegs(Apply(s, step).journal, i);
            if att.invoice == i
            then done <= done' <= Required(s.invoices[i], view) && (step.ok ==> att.next < |done'|)
            else done' == done
  {
    var att := s.attempts[step.attempt];
    var t := LegTransfer(s.invoices[att.invoice], att.view, att.legs[att.next]);
    if att.invoice == i {
      AlikeRequires(s.invoices[i], att.view, view);
      RequiredDistinct(s.invoices[i], view);
      RecordStaysInOrder(s.journal, i, att.legs, att.next, t, step.applied);
    } else {
      AppliedLegsAppend(s.journal, t, i);
    }
  }

  lemma FinishStaysInOrder(s: State, step: Step, i: Id, view: View)
    requires Wellformed(s) && Enabled(s, step) && InOrder(s, i, view) && step.Finish?
    ensures InOrder(Apply(s, step), i, view)
  {
    var att := s.attempts[step.attempt];
    if att.callerId == i {
      AlikeRequires(s.invoices[i], att.view, view);
      assert Required(MarkPaid(s.invoices[i], i), view) == Required(s.invoices[i], view);
    }
  }

  lemma CallKeepsInOrder(s: State, step: Step, i: Id, view: View)
    requires Wellformed(s) && Enabled(s, step) && InOrder(s, i, view) && step.Call?
    ensures InOrder(Apply(s, step), i, view)
  {
    CallStaysInOrder(s, step, i, view);
  }

  lemma OtherStepsKeepInOrder(s: State, step: Step, i: Id, view: View)
    requires Wellformed(s) && Enabled(s, step) && InOrder(s, i, view) && Direct(step, i, view)
    requires !step.Call? && !step.Finish?
    ensures InOrder(Apply(s, step), i, view)
  {
    assert Apply(s, step).journal == s.journal;
  }

  lemma StepKeepsInOrder(s: State, step: Step, i: Id, view: View)
    requires Wellformed(s) && Enabled(s, step) && InOrder(s, i, view) && Direct(step, i, view)
    ensures Wellformed(Apply(s, step)) && InOrder(Apply(s, step), i, view)
  {
    StepKeepsWellformed(s, step);
    if step.Call? {
      CallKeepsInOrder(s, step, i, view);
    } else if step.Finish? {
      FinishStaysInOrder(s, step, i, view);
    } else {
      OtherStepsKeepInOrder(s, step, i, view);
    }
  }

  lemma {:induction false} RunKeepsInOrder(s: State, steps: seq<Step>, i: Id, view: View)
    requires Wellformed(s) && Runs(s, steps) && InOrder(s, i, view) && AllDirect(steps, i, view)
    ensures InOrder(Exec(s, steps), i, view)
    decreases |steps|
  {
    if steps != [] {
      assert Direct(steps[0], i, view);
      StepKeepsInOrder(s, steps[0], i, view);
      RunKeepsInOrder(Apply(s, steps[0]), steps[1..], i, view);
    }
  }

  /**
   Over every run of interleaved, failing and retried attempts, the legs the
   finance service has applied for an invoice are a prefix of its required legs
   in order, and all of them once the invoice is PAID.
   */
  lemma ExactlyOnce(steps: seq<Step>, i: Id, view: View)
    requires Runs(INIT, steps) && AllDirect(steps, i, view)
    ensures var s := Exec(INIT, steps);
            i in s.invoices ==>
              && AppliedLegs(s.journal, i) <= Required(s.invoices[i], view)
              && (s.invoices[i].status == Paid ==> AppliedLegs(s.journal, i) == Required(s.invoices[i], view))
  {
    RunKeepsInOrder(INIT, steps, i, view);
  }

  // ---- The same down to wallets and destinations, when the attempts read identical accounts ----

  predicate Identical(step: Step, i: Id, view: View) {
    step.Begin? ==> (step.query.id == i ==> step.found == i) && (step.found == i ==> step.view == view)
  }

  predicate OnPlan(s: State, i: Id, view: View) {
    var done := JournalOf(s.journal, i);
    && (if i in s.invoices
        then done <= Plan(s.invoices[i], view) && (s.invoices[i].status == Paid ==> done == Plan(s.invoices[i], view))
        else done == [])
    && forall a :: a in s.attempts ==>
         && (s.attempts[a].callerId == i ==> s.attempts[a].invoice == i)
         && (s.attempts[a].invoice == i ==> s.attempts[a].view == view && s.attempts[a].next <= |done|)
  }

  /** Only an invoice's status and reference ever change. */
  predicate SameTerms(inv: Invoice, inv': Invoice) {
    inv' == inv.(status := inv'.status, referenceId := inv'.referenceId)
  }

  lemma PlanOfSameTerms(inv: Invoice, inv': Invoice, view: View)
    requires SameTerms(inv, inv')
    ensures Plan(inv', view) == Plan(inv, view)
  {
    assert Required(inv', view) == Required(inv, view);
  }

  /**
   Sending leg `n` of a plan whose first `n` legs are journalled: it is journalled
   already, or is exactly the next one.
   */
  lemma RecordStaysOnPlan(journal: seq<Transfer>, i: Id, plan: seq<Transfer>, n: nat, leg: Leg, applied: bool)
    requires DistinctKeys(plan) && JournalOf(journal, i) <= plan
    requires n <= |JournalOf(journal, i)| && n < |plan| && plan[n].key == Key(leg, i)
    ensures var done, done' := JournalOf(journal, i), JournalOf(Record(journal, plan[n], applied), i);
            && done <= done' <= plan
            && (applied || HasKey(journal, plan[n].key) ==> n < |done'|)
  {
    var done, t := JournalOf(journal, i), plan[n];
    KeyInJournalOf(journal, i, leg);
    if n < |done| {
      assert done[n].key == t.key;
    } else {
      assert !HasKey(done, t.key);
      JournalOfAppend(journal, t, i);
      assert done + [t] == plan[..n + 1];
    }
  }

  /** A call's effect on the journal of invoice `i`, whichever invoice the attempt is for. */
  lemma CallStaysOnPlan(s: State, step: Step, i: Id, view: View)
    requires Wellformed(s) && Enabled(s, step) && OnPlan(s, i, view) && step.Call?
    ensures var att := s.attempts[step.attempt];
            var done, done' := JournalOf(s.journal, i), JournalOf(Apply(s, step).journal, i);
            if att.invoice == i then done <= done' <= Plan(s.invoices[i], view) && (step.ok ==> att.next < |done'|)
            else done' == done
  {
    var att := s.attempts[step.attempt];
    var leg := att.legs[att.next];
    if att.invoice == i {
      var plan := Plan(s.invoices[i], view);
      PlanKeysDistinct(s.invoices[i], view);
      assert plan[att.next] == LegTransfer(s.invoices[i], view, leg);
      RecordStaysOnPlan(s.journal, i, plan, att.next, leg, step.applied);
    } else {
      JournalOfAppend(s.journal, LegTransfer(s.invoices[att.invoice], att.view, leg), i);
    }
  }

  lemma CallKeepsOnPlan(s: State, step: Step, i: Id, view: View)
    requires Wellformed(s) && Enabled(s, step) && OnPlan(s, i, view) && step.Call?
    ensures OnPlan(Apply(s, step), i, view)
  {
    CallStaysOnPlan(s, step, i, view);
  }

  lemma FinishKeepsOnPlan(s: State, step: Step, i: Id, view: View)
    requires Wellformed(s) && Enabled(s, step) && OnPlan(s, i, view) && step.Finish?
    ensures OnPlan(Apply(s, step), i, view)
  {
    var att := s.attempts[step.attempt];
    if att.callerId == i {
      PlanOfSameTerms(s.invoices[i], MarkPaid(s.invoices[i], i), view);
      assert |Plan(s.invoices[i], view)| == att.next;
    }
  }

  lemma StepKeepsOnPlan(s: State, step: Step, i: Id, view: View)
    requires Wellformed(s) && Enabled(s, step) && OnPlan(s, i, view) && Identical(step, i, view)
    ensures Wellformed(Apply(s, step)) && OnPlan(Apply(s, step), i, view)
  {
    StepKeepsWellformed(s, step);
    match step
    case Create(_) =>
    case Begin(_, _, _, _) =>
    case Crash(_) =>
    case Call(_, _, _) => CallKeepsOnPlan(s, step, i, view);
    case Finish(_, _) => FinishKeepsOnPlan(s, step, i, view);
  }

  lemma {:induction false} RunKeepsOnPlan(s: State, steps: seq<Step>, i: Id, view: View)
    requires Wellformed(s) && Runs(s, steps) && OnPlan(s, i, view)
    requires forall k :: 0 <= k < |steps| ==> Identical(steps[k], i, view)
    ensures OnPlan(Exec(s, steps), i, view)
    decreases |steps|
  {
    if steps != [] {
      StepKeepsOnPlan(s, steps[0], i, view);
      RunKeepsOnPlan(Apply(s, steps[0]), steps[1..], i, view);
    }
  }

  /** Then the applied transfers themselves are a prefix of the invoice's plan, and all of it once PAID. */
  lemma ExactTransfers(steps: seq<Step>, i: Id, view: View)
    requires Runs(INIT, steps) && forall k :: 0 <= k < |steps| ==> Identical(steps[k], i, view)
    ensures var s := Exec(INIT, steps);
            i in s.invoices ==>
              && JournalOf(s.journal, i) <= Plan(s.invoices[i], view)
              && (s.invoices[i].status == Paid ==> JournalOf(s.journal, i) == Plan(s.invoices[i], view))
  {
    RunKeepsOnPlan(INIT, steps, i, view);
  }

  // ---- When accounts appear or vanish between attempts ----

  /** An attempt that names row `i` finds it, and reads accounts among `views`. */
  predicate DirectAmong(step: Step, i: Id, views: set<View>) {
    step.Begin? && step.query.id == i ==> step.found == i && step.view in views
  }

  /** Every leg that a payment with these accounts requires is in the journal. */
  predicate Covered(journal: seq<Transfer>, inv: Invoice, view: View) {
    forall leg :: leg in Required(inv, view) ==> HasKey(journal, Key(leg, inv.id))
  }

  predicate PaidCovered(s: State, i: Id, views: set<View>) {
    && AttemptsBacked(s)
    && (forall a :: a in s.attempts && s.attempts[a].callerId == i ==>
          s.attempts[a].invoice == i && s.attempts[a].view in views)
    && (i in s.invoices && s.invoices[i].status == Paid ==>
          exists view :: view in views && Covered(s.journal, s.invoices[i], view))
  }

  /** A covered invoice stays covered: journals only grow, and terms do not change. */
  lemma StepKeepsCovered(s: State, step: Step, i: Id, view: View)
    requires Wellformed(s) && Enabled(s, step) && i in s.invoices && Covered(s.journal, s.invoices[i], view)
    ensures i in Apply(s, step).invoices && Covered(Apply(s, step).journal, Apply(s, step).invoices[i], view)
  {
    var s' := Apply(s, step);
    assert SameTerms(s.invoices[i], s'.invoices[i]);
    assert Required(s'.invoices[i], view) == Required(s.invoices[i], view);
    forall leg | leg in Required(s.invoices[i], view) ensures HasKey(s'.journal, Key(leg, i)) {
      if step.Call? {
        var att := s.attempts[step.attempt];
        var t := LegTransfer(s.invoices[att.invoice], att.view, att.legs[att.next]);
        RecordKeepsKeys(s.journal, t, step.applied, Key(leg, i));
      }
    }
  }

  lemma FinishCovers(s: State, a: nat, i: Id)
    requires Wellformed(s) && Enabled(s, Finish(a, true)) && AttemptsBacked(s)
    requires s.attempts[a].callerId == i && s.attempts[a].invoice == i
    ensures Covered(s.journal, s.invoices[i], s.attempts[a].view)
  {
    assert Backed(s.journal, s.attempts[a]);
  }

  /** A row that is PAID after a step was PAID before it, or a finishing attempt of its own marked it. */
  lemma PaidStepCovers(s: State, step: Step, i: Id, views: set<View>)
    requires Wellformed(s) && Enabled(s, step) && PaidCovered(s, i, views)
    requires i in s.invoices && Apply(s, step).invoices[i].status == Paid
    ensures exists view :: view in views && Covered(Apply(s, step).journal, Apply(s, step).invoices[i], view)
  {
    var view: View;
    if s.invoices[i].status == Paid {
      view :| view in views && Covered(s.journal, s.invoices[i], view);
    } else {
      view := s.attempts[step.attempt].view;
      FinishCovers(s, step.attempt, i);
    }
    StepKeepsCovered(s, step, i, view);
  }

  lemma StepKeepsPaidCovered(s: State, step: Step, i: Id, views: set<View>)
    requires Wellformed(s) && Enabled(s, step) && PaidCovered(s, i, views) && DirectAmong(step, i, views)
    ensures Wellformed(Apply(s, step)) && PaidCovered(Apply(s, step), i, views)
  {
    StepKeepsWellformed(s, step);
    StepKeepsBacked(s, step);
    if i in s.invoices && Apply(s, step).invoices[i].status == Paid {
      PaidStepCovers(s, step, i, views);
    }
  }

  lemma {:induction false} RunKeepsPaidCovered(s: State, steps: seq<Step>, i: Id, views: set<View>)
    requires Wellformed(s) && Runs(s, steps) && PaidCovered(s, i, views)
    requires forall k :: 0 <= k < |steps| ==> DirectAmong(steps[k], i, views)
    ensures PaidCovered(Exec(s, steps), i, views)
    decreases |steps|
  {
    if steps != [] {
      StepKeepsPaidCovered(s, steps[0], i, views);
      RunKeepsPaidCovered(Apply(s, steps[0]), steps[1..], i, views);
    }
  }

  /**
   When accounts appear or disappear between attempts, a PAID invoice still
   has, each exactly once, every leg required under the accounts that one of
   its attempts read.
   */
  lemma PaidIsCovered(steps: seq<Step>, i: Id, views: set<View>)
    requires Runs(INIT, steps) && forall k :: 0 <= k < |steps| ==> DirectAmong(steps[k], i, views)
    requires i in Exec(INIT, steps).invoices && Exec(INIT, steps).invoices[i].status == Paid
    ensures var s := Exec(INIT, steps);
            DistinctKeys(s.journal) && exists view :: view in views && Covered(s.journal, s.invoices[i], view)
  {
    EachLegMovesOnce(INIT, steps);
    RunKeepsPaidCovered(INIT, steps, i, views);
  }

  /** Stored invoices keep their terms, and a PAID one stays PAID. */
  lemma {:induction false} RunKeepsTerms(s: State, steps: seq<Step>, i: Id)
    requires Wellformed(s) && Runs(s, steps) && i in s.invoices
    ensures var s' := Exec(s, steps);
            && i in s'.invoices && SameTerms(s.invoices[i], s'.invoices[i])
            && (s.invoices[i].status == Paid ==> s'.invoices[i].status == Paid)
    decreases |steps|
  {
    if steps != [] {
      StepKeepsWellformed(s, steps[0]);
      RunKeepsTerms(Apply(s, steps[0]), steps[1..], i);
    }
  }

  // ---- When a PAID invoice causes no further moves ----

  /** Every attempt under way on the invoice has its remaining legs in the journal already. */
  predicate Quiet(s: State, i: Id) {
    forall a, k :: a in s.attempts && s.attempts[a].invoice == i && s.attempts[a].next <= k < |s.attempts[a].legs| ==>
      HasKey(s.journal, Key(s.attempts[a].legs[k], i))
  }

  predicate PaidQuiet(s: State, i: Id) {
    i in s.invoices && s.invoices[i].status == Paid && Quiet(s, i)
  }

  /** A call for a quiet invoice, or for another one, adds nothing to the invoice's journal. */
  lemma QuietCall(s: State, step: Step, i: Id)
    requires Wellformed(s) && Enabled(s, step) && Quiet(s, i) && step.Call?
    ensures JournalOf(Apply(s, step).journal, i) == JournalOf(s.journal, i)
    ensures forall key :: HasKey(s.journal, key) ==> HasKey(Apply(s, step).journal, key)
  {
    var att := s.attempts[step.attempt];
    var t := LegTransfer(s.invoices[att.invoice], att.view, att.legs[att.next]);
    JournalOfAppend(s.journal, t, i);
    forall key | HasKey(s.journal, key) ensures HasKey(Apply(s, step).journal, key) {
      RecordKeepsKeys(s.journal, t, step.applied, key);
    }
  }

  lemma AttemptAfterCall(s: State, step: Step, a: nat)
    requires Enabled(s, step) && step.Call? && a in Apply(s, step).attempts
    ensures a in s.attempts
    ensures var att, att' := s.attempts[a], Apply(s, step).attempts[a];
            att'.invoice == att.invoice && att'.legs == att.legs && att'.next >= att.next
  {
  }

  lemma QuietAfterCall(s: State, step: Step, i: Id)
    requires Wellformed(s) && Enabled(s, step) && Quiet(s, i) && step.Call?
    ensures Quiet(Apply(s, step), i)
  {
    QuietCall(s, step, i);
    var attempts, journal := Apply(s, step).attempts, Apply(s, step).journal;
    forall a, k | a in attempts && attempts[a].invoice == i && attempts[a].next <= k < |attempts[a].legs|
      ensures HasKey(journal, Key(attempts[a].legs[k], i))
    {
      AttemptAfterCall(s, step, a);
      assert HasKey(s.journal, Key(s.attempts[a].legs[k], i));
    }
  }

  lemma StepKeepsQuiet(s: State, step: Step, i: Id)
    requires Wellformed(s) && Enabled(s, step) && PaidQuiet(s, i)
    ensures PaidQuiet(Apply(s, step), i) && JournalOf(Apply(s, step).journal, i) == JournalOf(s.journal, i)
  {
    if step.Call? {
      QuietCall(s, step, i);
      QuietAfterCall(s, step, i);
    } else {
      assert Apply(s, step).journal == s.journal;
    }
  }

  lemma {:induction false} RunKeepsQuiet(s: State, steps: seq<Step>, i: Id)
    requires Wellformed(s) && Runs(s, steps) && PaidQuiet(s, i)
    ensures JournalOf(Exec(s, steps).journal, i) == JournalOf(s.journal, i)
    decreases |steps|
  {
    if steps != [] {
      StepKeepsWellformed(s, steps[0]);
      StepKeepsQuiet(s, steps[0], i);
      RunKeepsQuiet(Apply(s, steps[0]), steps[1..], i);
    }
  }

  /** Attempt `a` on invoice `i` has leg `k` ahead of it, and that leg is not journalled. */
  predicate Ahead(s: State, a: nat, k: nat, i: Id) {
    && Wellformed(s) && a in s.attempts && s.attempts[a].invoice == i
    && s.attempts[a].next <= k < |s.attempts[a].legs| && !HasKey(s.journal, Key(s.attempts[a].legs[k], i))
  }

  /** A call whose leg is journalled brings the attempt nearer and moves nothing; any other moves one leg. */
  lemma CallMoves(s: State, a: nat, k: nat, i: Id) returns (s1: State, moved: bool)
    requires Ahead(s, a, k, i)
    ensures Enabled(s, Call(a, true, true)) && s1 == Apply(s, Call(a, true, true))
    ensures if moved then |JournalOf(s1.journal, i)| > |JournalOf(s.journal, i)|
            else s1.journal == s.journal && Ahead(s1, a, k, i) && s1.attempts[a].next > s.attempts[a].next
  {
    var att := s.attempts[a];
    s1 := Apply(s, Call(a, true, true));
    moved := !HasKey(s.journal, Key(att.legs[att.next], i));
    StepKeepsWellformed(s, Call(a, true, true));
    JournalOfAppend(s.journal, LegTransfer(s.invoices[i], att.view, att.legs[att.next]), i);
  }

  /** The run adds a transfer for the invoice. */
  predicate Moves(s: State, steps: seq<Step>, i: Id) {
    Runs(s, steps) && |JournalOf(Exec(s, steps).journal, i)| > |JournalOf(s.journal, i)|
  }

  lemma MovesCons(s: State, step: Step, s1: State, rest: seq<Step>, i: Id)
    requires Enabled(s, step) && s1 == Apply(s, step) && Runs(s1, rest)
    requires if rest == [] then |JournalOf(s1.journal, i)| > |JournalOf(s.journal, i)|
             else s1.journal == s.journal && Moves(s1, rest, i)
    ensures Moves(s, [step] + rest, i)
  {
    RunsCons(s, step, rest);
  }

  /** An attempt with an unjournalled leg ahead, left to make its calls, moves money. */
  lemma {:induction false} LateLegMoves(s: State, a: nat, k: nat, i: Id) returns (steps: seq<Step>)
    requires Ahead(s, a, k, i)
    ensures steps != [] && Moves(s, steps, i)
    decreases k - s.attempts[a].next
  {
    var rest := [];
    var s1, moved := CallMoves(s, a, k, i);
    if !moved {
      rest := LateLegMoves(s1, a, k, i);
    }
    MovesCons(s, Call(a, true, true), s1, rest, i);
    steps := [Call(a, true, true)] + rest;
  }

  /** From any state with the invoice PAID, no run moves money for it if and only if Quiet holds. */
  lemma NoMovesExactly(s: State, i: Id)
    requires Wellformed(s) && i in s.invoices && s.invoices[i].status == Paid
    ensures (forall steps :: Runs(s, steps) ==> JournalOf(Exec(s, steps).journal, i) == JournalOf(s.journal, i))
            <==> Quiet(s, i)
  {
    if Quiet(s, i) {
      forall steps | Runs(s, steps) ensures JournalOf(Exec(s, steps).journal, i) == JournalOf(s.journal, i) {
        RunKeepsQuiet(s, steps, i);
      }
    } else {
      var a, k :| && a in s.attempts && s.attempts[a].invoice == i
                  && s.attempts[a].next <= k < |s.attempts[a].legs|
                  && !HasKey(s.journal, Key(s.attempts[a].legs[k], i));
      var steps := LateLegMoves(s, a, k, i);
      assert Runs(s, steps) && JournalOf(Exec(s, steps).journal, i) != JournalOf(s.journal, i);
    }
  }

  lemma InOrderIsQuiet(s: State, i: Id, view: View)
    requires Wellformed(s) && InOrder(s, i, view) && i in s.invoices && s.invoices[i].status == Paid
    ensures Quiet(s, i)
  {
    forall a, k | && a in s.attempts && s.attempts[a].invoice == i
                  && s.attempts[a].next <= k < |s.attempts[a].legs|
      ensures HasKey(s.journal, Key(s.attempts[a].legs[k], i))
    {
      AlikeRequires(s.invoices[i], s.attempts[a].view, view);
      LegIsApplied(s.journal, i, s.attempts[a].legs[k]);
    }
  }

  /** When the attempts so far saw the same accounts, a PAID invoice causes no further moves in any continuation. */
  lemma NoMovesAfterPaid(steps: seq<Step>, more: seq<Step>, i: Id, view: View)
    requires Runs(INIT, steps) && Runs(Exec(INIT, steps), more) && AllDirect(steps, i, view)
    requires i in Exec(INIT, steps).invoices && Exec(INIT, steps).invoices[i].status == Paid
    ensures var s := Exec(INIT, steps);
            JournalOf(Exec(s, more).journal, i) == JournalOf(s.journal, i)
  {
    var s := Exec(INIT, steps);
    RunKeepsWellformed(INIT, steps);
    RunKeepsInOrder(INIT, steps, i, view);
    InOrderIsQuiet(s, i, view);
    RunKeepsQuiet(s, more, i);
  }

  // ---- How much the customer is debited ----

  function Sum(journal: seq<Transfer>): int {
    if journal == [] then 0 else Sum(journal[..|journal| - 1]) + journal[|journal| - 1].amount
  }

  function SumLegs(a: Amounts, legs: seq<Leg>): int {
    if legs == [] then 0 else SumLegs(a, legs[..|legs| - 1]) + LegAmount(a, legs[|legs| - 1])
  }

  function AppliedAmount(journal: seq<Transfer>, i: Id, a: Amounts, leg: Leg): int {
    if HasKey(journal, Key(leg, i)) then LegAmount(a, leg) else 0
  }

  function AppliedTotal(journal: seq<Transfer>, i: Id, a: Amounts): int {
    AppliedAmount(journal, i, a, Net) + AppliedAmount(journal, i, a, Vat)
    + AppliedAmount(journal, i, a, Fee) + AppliedAmount(journal, i, a, FeeVat)
  }

  lemma AppliedAmountAppend(journal: seq<Transfer>, t: Transfer, i: Id, a: Amounts, leg: Leg)
    requires !HasKey(journal, t.key) && (t.key == Key(leg, i) ==> t.amount == LegAmount(a, leg))
    ensures AppliedAmount(journal + [t], i, a, leg) ==
            AppliedAmount(journal, i, a, leg) + if t.key == Key(leg, i) then t.amount else 0
  {
    HasKeyAppend(journal, t, Key(leg, i));
  }

  predicate PricedAs(t: Transfer, i: Id, a: Amounts) {
    t.key.invoice == i ==> t.amount == LegAmount(a, t.key.leg)
  }

  lemma AppliedTotalAppend(journal: seq<Transfer>, t: Transfer, i: Id, a: Amounts)
    requires !HasKey(journal, t.key) && PricedAs(t, i, a)
    ensures AppliedTotal(journal + [t], i, a)
            == AppliedTotal(journal, i, a) + if t.key.invoice == i then t.amount else 0
  {
    AppliedAmountAppend(journal, t, i, a, Net);
    AppliedAmountAppend(journal, t, i, a, Vat);
    AppliedAmountAppend(journal, t, i, a, Fee);
    AppliedAmountAppend(journal, t, i, a, FeeVat);
  }

  lemma NothingApplied(i: Id, a: Amounts)
    ensures AppliedTotal([], i, a) == 0
  {
  }

  predicate AllPricedAs(journal: seq<Transfer>, i: Id, a: Amounts) {
    forall k :: 0 <= k < |journal| ==> PricedAs(journal[k], i, a)
  }

  /** What an invoice has cost so far. */
  function Debited(journal: seq<Transfer>, i: Id): int {
    if journal == [] then 0
    else
      var last := journal[|journal| - 1];
      Debited(journal[..|journal| - 1], i) + if last.key.invoice == i then last.amount else 0
  }

  /** What was moved for an invoice is the sum of its applied legs, each counted once. */
  lemma {:induction false} DebitIsAppliedLegs(journal: seq<Transfer>, i: Id, a: Amounts)
    requires DistinctKeys(journal) && AllPricedAs(journal, i, a)
    ensures Debited(journal, i) == AppliedTotal(journal, i, a)
  {
    if journal == [] {
      NothingApplied(i, a);
    } else {
      var init, last := journal[..|journal| - 1], journal[|journal| - 1];
      DebitIsAppliedLegs(init, i, a);
      assert init + [last] == journal;
      AppliedTotalAppend(init, last, i, a);
    }
  }

  lemma DebitedInRun(steps: seq<Step>, i: Id)
    requires Runs(INIT, steps) && i in Exec(INIT, steps).invoices
    ensures var s := Exec(INIT, steps);
            Debited(s.journal, i) == AppliedTotal(s.journal, i, s.invoices[i].amounts)
  {
    EachLegMovesOnce(INIT, steps);
    var s := Exec(INIT, steps);
    var a := s.invoices[i].amounts;
    forall k | 0 <= k < |s.journal| ensures PricedAs(s.journal[k], i, a) {
      assert Explained(s, s.journal[k]);
    }
    DebitIsAppliedLegs(s.journal, i, a);
  }

  /** A leg of the invoice is applied only after its net leg. */
  predicate NetFirst(journal: seq<Transfer>, i: Id) {
    forall leg :: HasKey(journal, Key(leg, i)) ==> HasKey(journal, Key(Net, i))
  }

  lemma StepKeepsNetFirst(s: State, step: Step, i: Id)
    requires Wellformed(s) && Enabled(s, step) && AttemptsBacked(s) && NetFirst(s.journal, i)
    ensures NetFirst(Apply(s, step).journal, i)
  {
    if step.Call? {
      var att := s.attempts[step.attempt];
      var t := LegTransfer(s.invoices[att.invoice], att.view, att.legs[att.next]);
      assert att.legs[0] == Net;
      assert Backed(s.journal, att);
      forall leg
        ensures HasKey(s.journal + [t], Key(leg, i)) <==> HasKey(s.journal, Key(leg, i)) || t.key == Key(leg, i)
      {
        HasKeyAppend(s.journal, t, Key(leg, i));
      }
    }
  }

  lemma {:induction false} RunKeepsNetFirst(s: State, steps: seq<Step>, i: Id)
    requires Wellformed(s) && Runs(s, steps) && AttemptsBacked(s) && NetFirst(s.journal, i)
    ensures NetFirst(Exec(s, steps).journal, i)
    decreases |steps|
  {
    if steps != [] {
      StepKeepsWellformed(s, steps[0]);
      StepKeepsBacked(s, steps[0]);
      StepKeepsNetFirst(s, steps[0], i);
      RunKeepsNetFirst(Apply(s, steps[0]), steps[1..], i);
    }
  }

  lemma AppliedWithinTotal(journal: seq<Transfer>, i: Id, a: Amounts)
    requires NetFirst(journal, i) && a.total >= 0 && forall leg :: leg != Net ==> LegAmount(a, leg) >= 0
    ensures AppliedTotal(journal, i, a) <= a.total
  {
    assert LegAmount(a, Net) + LegAmount(a, Vat) + LegAmount(a, Fee) + LegAmount(a, FeeVat) == a.total;
    assert HasKey(journal, Key(Vat, i)) || HasKey(journal, Key(Fee, i)) || HasKey(journal, Key(FeeVat, i))
      ==> HasKey(journal, Key(Net, i));
  }

  /**
   In every run, whichever accounts each attempt saw, an invoice whose recorded
   legs and total are not negative never costs more than its total. The
   residual may be negative: it is always applied first.
   */
  lemma NeverOvercharged(steps: seq<Step>, i: Id)
    requires Runs(INIT, steps) && i in Exec(INIT, steps).invoices
    requires Exec(INIT, steps).invoices[i].amounts.total >= 0
    requires forall leg :: leg != Net ==> LegAmount(Exec(INIT, steps).invoices[i].amounts, leg) >= 0
    ensures var s := Exec(INIT, steps);
            Debited(s.journal, i) <= s.invoices[i].amounts.total
  {
    RunKeepsNetFirst(INIT, steps, i);
    DebitedInRun(steps, i);
    AppliedWithinTotal(Exec(INIT, steps).journal, i, Exec(INIT, steps).invoices[i].amounts);
  }

  lemma {:induction false} SumLegsAppend(a: Amounts, xs: seq<Leg>, ys: seq<Leg>)
    ensures SumLegs(a, xs + ys) == SumLegs(a, xs) + SumLegs(a, ys)
  {
    if ys == [] {
      assert xs + ys == xs;
    } else {
      SumLegsAppend(a, xs, ys[..|ys| - 1]);
      assert (xs + ys)[..|xs + ys| - 1] == xs + ys[..|ys| - 1];
    }
  }

  lemma {:induction false} SumOfTransfers(inv: Invoice, view: View, legs: seq<Leg>)
    ensures Sum(seq(|legs|, k requires 0 <= k < |legs| => LegTransfer(inv, view, legs[k])))
            == SumLegs(inv.amounts, legs)
  {
    var ts := seq(|legs|, k requires 0 <= k < |legs| => LegTransfer(inv, view, legs[k]));
    if legs != [] {
      var init := legs[..|legs| - 1];
      SumOfTransfers(inv, view, init);
      assert ts[..|ts| - 1] == seq(|init|, k requires 0 <= k < |init| => LegTransfer(inv, view, init[k]));
    }
  }

  /** A positive recorded leg that is dropped because its destination account is missing. */
  function Withheld(a: Amounts, view: View, leg: Leg): int {
    if LegAmount(a, leg) > 0 && Destination(view, leg).None? then LegAmount(a, leg) else 0
  }

  lemma SumIfSent(a: Amounts, view: View, leg: Leg)
    requires leg != Net && LegAmount(a, leg) >= 0
    ensures SumLegs(a, LegIfSent(a, view, leg)) == LegAmount(a, leg) - Withheld(a, view, leg)
  {
    assert SumLegs(a, [leg]) == LegAmount(a, leg);
  }

  /** The total less the positive legs whose destination account is missing. */
  function Due(a: Amounts, view: View): int {
    a.total - Withheld(a, view, Vat) - Withheld(a, view, Fee) - Withheld(a, view, FeeVat)
  }

  lemma PlanTotal(inv: Invoice, view: View)
    requires inv.partnered && forall leg :: leg != Net ==> LegAmount(inv.amounts, leg) >= 0
    ensures Sum(Plan(inv, view)) == Due(inv.amounts, view)
  {
    var a := inv.amounts;
    var x, y, z := LegIfSent(a, view, Vat), LegIfSent(a, view, Fee), LegIfSent(a, view, FeeVat);
    SumOfTransfers(inv, view, Required(inv, view));
    SumLegsAppend(a, [Net] + x + y, z);
    SumLegsAppend(a, [Net] + x, y);
    SumLegsAppend(a, [Net], x);
    SumIfSent(a, view, Vat);
    SumIfSent(a, view, Fee);
    SumIfSent(a, view, FeeVat);
    assert SumLegs(a, [Net]) == LegAmount(a, Net);
  }

  lemma RequiredIsSent(inv: Invoice, view: View, leg: Leg)
    ensures leg in Required(inv, view) <==> inv.partnered && Sent(inv.amounts, view, leg)
  {
  }

  /** A leg that is applied when it is sent costs at least its amount less what is withheld; exactly, if only then. */
  lemma AppliedWhenSent(journal: seq<Transfer>, i: Id, a: Amounts, view: View, leg: Leg)
    requires leg != Net ==> LegAmount(a, leg) >= 0
    requires Sent(a, view, leg) ==> HasKey(journal, Key(leg, i))
    ensures var due := LegAmount(a, leg) - if leg == Net then 0 else Withheld(a, view, leg);
            && AppliedAmount(journal, i, a, leg) >= due
            && ((HasKey(journal, Key(leg, i)) ==> Sent(a, view, leg)) ==> AppliedAmount(journal, i, a, leg) == due)
  {
  }

  /** The legs sent under a view being applied, the invoice has cost what is due; exactly, if no others are. */
  lemma AppliedIsDue(journal: seq<Transfer>, i: Id, a: Amounts, view: View)
    requires forall leg :: leg != Net ==> LegAmount(a, leg) >= 0
    requires forall leg :: Sent(a, view, leg) ==> HasKey(journal, Key(leg, i))
    ensures AppliedTotal(journal, i, a) >= Due(a, view)
    ensures (forall leg :: HasKey(journal, Key(leg, i)) ==> Sent(a, view, leg)) ==>
              AppliedTotal(journal, i, a) == Due(a, view)
  {
    AppliedWhenSent(journal, i, a, view, Net);
    AppliedWhenSent(journal, i, a, view, Vat);
    AppliedWhenSent(journal, i, a, view, Fee);
    AppliedWhenSent(journal, i, a, view, FeeVat);
    assert LegAmount(a, Net) + LegAmount(a, Vat) + LegAmount(a, Fee) + LegAmount(a, FeeVat) == a.total;
  }

  /**
   Once PAID, the customer has paid the total less exactly the positive legs without an
   account; without a partner, nothing.
   */
  lemma PaidDebit(steps: seq<Step>, i: Id, view: View)
    requires Runs(INIT, steps) && AllDirect(steps, i, view)
    requires i in Exec(INIT, steps).invoices && Exec(INIT, steps).invoices[i].status == Paid
    requires forall leg :: leg != Net ==> LegAmount(Exec(INIT, steps).invoices[i].amounts, leg) >= 0
    ensures var s := Exec(INIT, steps);
            Debited(s.journal, i) == if s.invoices[i].partnered then Due(s.invoices[i].amounts, view) else 0
  {
    var s := Exec(INIT, steps);
    ExactlyOnce(steps, i, view);
    DebitedInRun(steps, i);
    forall leg
      ensures HasKey(s.journal, Key(leg, i)) <==> s.invoices[i].partnered && Sent(s.invoices[i].amounts, view, leg)
    {
      LegIsApplied(s.journal, i, leg);
      RequiredIsSent(s.invoices[i], view, leg);
    }
    if s.invoices[i].partnered {
      AppliedIsDue(s.journal, i, s.invoices[i].amounts, view);
    }
  }

  /**
   When accounts appear or vanish between attempts: a PAID partnered invoice has
   cost at most its total, and at least what is due under the accounts that an
   attempt naming it read.
   */
  lemma PaidDebitRange(steps: seq<Step>, i: Id, views: set<View>)
    requires Runs(INIT, steps) && forall k :: 0 <= k < |steps| ==> DirectAmong(steps[k], i, views)
    requires i in Exec(INIT, steps).invoices && Exec(INIT, steps).invoices[i].status == Paid
    requires Exec(INIT, steps).invoices[i].partnered && Exec(INIT, steps).invoices[i].amounts.total >= 0
    requires forall leg :: leg != Net ==> LegAmount(Exec(INIT, steps).invoices[i].amounts, leg) >= 0
    ensures var s := Exec(INIT, steps);
            var a := s.invoices[i].amounts;
            exists view :: view in views && Due(a, view) <= Debited(s.journal, i) <= a.total
  {
    var s := Exec(INIT, steps);
    RunKeepsWellformed(INIT, steps);
    PaidIsCovered(steps, i, views);
    NeverOvercharged(steps, i);
    DebitedInRun(steps, i);
    var view :| view in views && Covered(s.journal, s.invoices[i], view);
    forall leg | Sent(s.invoices[i].amounts, view, leg) ensures HasKey(s.journal, Key(leg, i)) {
      RequiredIsSent(s.invoices[i], view, leg);
    }
    AppliedIsDue(s.journal, i, s.invoices[i].amounts, view);
  }

  /**
   Split conservation from creation to settlement: for every item list, rates
   and rounding, an invoice created with the resulting amounts never costs more
   than its total in any run; and once PAID, when its attempts saw the same
   accounts, exactly the total less the positive legs without an account.
   */
  lemma CreatedInvoiceConserved(items: seq<Item>, partner: Partner, settings: Settings, round: real -> int,
                                steps: seq<Step>, i: Id, view: View)
    requires Nearest(round) && NonNegativeItems(items) && NonNegativeRates(partner, settings)
    requires CreateAmounts(items, partner, settings, round).Ok?
    requires Runs(INIT, steps) && i in Exec(INIT, steps).invoices
    requires var inv := Exec(INIT, steps).invoices[i];
             inv.amounts == CreateAmounts(items, partner, settings, round).value && inv.partnered == !partner.NoPartner?
    ensures var s := Exec(INIT, steps);
            var a := s.invoices[i].amounts;
            && Debited(s.journal, i) <= a.total
            && (s.invoices[i].status == Paid && AllDirect(steps, i, view) ==>
                  Debited(s.journal, i) == if partner.NoPartner? then 0 else Due(a, view))
  {
    RecordedLegsNonNegative(items, partner, settings, round);
    TotalNonNegative(items, partner, settings, round);
    NeverOvercharged(steps, i);
    if Exec(INIT, steps).invoices[i].status == Paid && AllDirect(steps, i, view) {
      PaidDebit(steps, i, view);
    }
  }

  // ---- Whose accounts the money moves between ----

  /** What the transfers pay into an account. */
  function Credited(transfers: seq<Transfer>, account: Account): int {
    if transfers == [] then 0
    else
      var last := transfers[|transfers| - 1];
      Credited(transfers[..|transfers| - 1], account) + if last.to == Some(account) then last.amount else 0
  }

  /** What the transfers take from an account. */
  function Drawn(transfers: seq<Transfer>, account: Account): int {
    if transfers == [] then 0
    else
      var last := transfers[|transfers| - 1];
      Drawn(transfers[..|transfers| - 1], account) + if last.from == account then last.amount else 0
  }

  lemma {:induction false} CreditedConcat(xs: seq<Transfer>, ys: seq<Transfer>, account: Account)
    ensures Credited(xs + ys, account) == Credited(xs, account) + Credited(ys, account)
    ensures Drawn(xs + ys, account) == Drawn(xs, account) + Drawn(ys, account)
  {
    if ys == [] {
      assert xs + ys == xs;
    } else {
      CreditedConcat(xs, ys[..|ys| - 1], account);
      assert (xs + ys)[..|xs + ys| - 1] == xs + ys[..|ys| - 1];
    }
  }

  /** The five accounts of a payment, no two of them the same. */
  predicate Apart(view: View) {
    var others := [view.pending, view.vat, view.revenue, view.vatPayable];
    && (forall j :: 0 <= j < |others| ==> others[j] != Some(view.wallet))
    && (forall j, k :: 0 <= j < k < |others| && others[j].Some? ==> others[j] != others[k])
  }

  function TransferIfSent(inv: Invoice, view: View, leg: Leg): seq<Transfer> {
    if Sent(inv.amounts, view, leg) then [LegTransfer(inv, view, leg)] else []
  }

  lemma PlanByLeg(inv: Invoice, view: View)
    requires inv.partnered
    ensures Plan(inv, view) == (TransferIfSent(inv, view, Net) + TransferIfSent(inv, view, Vat))
                               + (TransferIfSent(inv, view, Fee) + TransferIfSent(inv, view, FeeVat))
  {
  }

  /**
   What the transfers of a paid invoice amount to: the wallet pays what is due
   and receives nothing; the merchant's pending account gets what is left of the
   total, the merchant's VAT account the tax, and the system's accounts the fee
   and the fee's VAT, as far as these accounts exist.
   */
  predicate Distributed(transfers: seq<Transfer>, a: Amounts, wallet: Account, pending: Option<Account>,
                        vat: Option<Account>, revenue: Option<Account>, vatPayable: Option<Account>) {
    var fee, feeTax := if a.fee.Some? then a.fee.value else 0, if a.feeTax.Some? then a.feeTax.value else 0;
    && Credited(transfers, wallet) == 0
    && Drawn(transfers, wallet) == a.total - (if vat.None? then a.tax else 0) - (if revenue.None? then fee else 0)
                                   - (if vatPayable.None? then feeTax else 0)
    && (pending.Some? ==> Credited(transfers, pending.value) == a.total - a.tax - fee - feeTax)
    && (vat.Some? ==> Credited(transfers, vat.value) == a.tax)
    && (revenue.Some? ==> Credited(transfers, revenue.value) == fee)
    && (vatPayable.Some? ==> Credited(transfers, vatPayable.value) == feeTax)
  }

  lemma LegMoves(inv: Invoice, view: View, leg: Leg, account: Account)
    requires leg != Net ==> LegAmount(inv.amounts, leg) >= 0
    ensures Credited(TransferIfSent(inv, view, leg), account)
            == if Destination(view, leg) == Some(account) then LegAmount(inv.amounts, leg) else 0
    ensures Drawn(TransferIfSent(inv, view, leg), account)
            == if view.wallet == account && (leg == Net || Destination(view, leg).Some?)
               then LegAmount(inv.amounts, leg) else 0
  {
    var ts := TransferIfSent(inv, view, leg);
    if ts != [] {
      assert ts[..0] == [];
    }
  }

  lemma PlanMoves(inv: Invoice, view: View, account: Account)
    requires inv.partnered && forall leg :: leg != Net ==> LegAmount(inv.amounts, leg) >= 0
    ensures Credited(Plan(inv, view), account) ==
            Credited(TransferIfSent(inv, view, Net), account) + Credited(TransferIfSent(inv, view, Vat), account)
            + Credited(TransferIfSent(inv, view, Fee), account) + Credited(TransferIfSent(inv, view, FeeVat), account)
    ensures Drawn(Plan(inv, view), account) ==
            Drawn(TransferIfSent(inv, view, Net), account) + Drawn(TransferIfSent(inv, view, Vat), account)
            + Drawn(TransferIfSent(inv, view, Fee), account) + Drawn(TransferIfSent(inv, view, FeeVat), account)
  {
    var n, v, f, g := TransferIfSent(inv, view, Net), TransferIfSent(inv, view, Vat),
      TransferIfSent(inv, view, Fee), TransferIfSent(inv, view, FeeVat);
    PlanByLeg(inv, view);
    CreditedConcat(n + v, f + g, account);
    CreditedConcat(n, v, account);
    CreditedConcat(f, g, account);
  }

  lemma AccountMoves(inv: Invoice, view: View, account: Account)
    requires inv.partnered && forall leg :: leg != Net ==> LegAmount(inv.amounts, leg) >= 0
    ensures var a := inv.amounts;
            Credited(Plan(inv, view), account) ==
              (if Destination(view, Net) == Some(account) then LegAmount(a, Net) else 0)
              + (if Destination(view, Vat) == Some(account) then LegAmount(a, Vat) else 0)
              + (if Destination(view, Fee) == Some(account) then LegAmount(a, Fee) else 0)
              + (if Destination(view, FeeVat) == Some(account) then LegAmount(a, FeeVat) else 0)
  {
    PlanMoves(inv, view, account);
    LegMoves(inv, view, Net, account);
    LegMoves(inv, view, Vat, account);
    LegMoves(inv, view, Fee, account);
    LegMoves(inv, view, FeeVat, account);
  }

  lemma WalletPays(inv: Invoice, view: View)
    requires inv.partnered && forall leg :: leg != Net ==> LegAmount(inv.amounts, leg) >= 0
    ensures var a := inv.amounts;
            Drawn(Plan(inv, view), view.wallet) ==
              LegAmount(a, Net) + (if Destination(view, Vat).Some? then LegAmount(a, Vat) else 0)
              + (if Destination(view, Fee).Some? then LegAmount(a, Fee) else 0)
              + (if Destination(view, FeeVat).Some? then LegAmount(a, FeeVat) else 0)
  {
    PlanMoves(inv, view, view.wallet);
    LegMoves(inv, view, Net, view.wallet);
    LegMoves(inv, view, Vat, view.wallet);
    LegMoves(inv, view, Fee, view.wallet);
    LegMoves(inv, view, FeeVat, view.wallet);
  }

  lemma PlanDistributes(inv: Invoice, view: View)
    requires inv.partnered && Apart(view) && forall leg :: leg != Net ==> LegAmount(inv.amounts, leg) >= 0
    ensures Distributed(Plan(inv, view), inv.amounts,
                        view.wallet, view.pending, view.vat, view.revenue, view.vatPayable)
  {
    var others := [view.pending, view.vat, view.revenue, view.vatPayable];
    assert others[0] == view.pending && others[1] == view.vat;
    assert others[2] == view.revenue && others[3] == view.vatPayable;
    WalletPays(inv, view);
    AccountMoves(inv, view, view.wallet);
    if view.pending.Some? { AccountMoves(inv, view, view.pending.value); }
    if view.vat.Some? { AccountMoves(inv, view, view.vat.value); }
    if view.revenue.Some? { AccountMoves(inv, view, view.revenue.value); }
    if view.vatPayable.Some? { AccountMoves(inv, view, view.vatPayable.value); }
  }

  /** The journal after a successful call for the leg, if it is sent at all. */
  function Booked(journal: seq<Transfer>, inv: Invoice, view: View, leg: Leg): seq<Transfer> {
    if Sent(inv.amounts, view, leg) then Record(journal, LegTransfer(inv, view, leg), true) else journal
  }

  function BookedAll(journal: seq<Transfer>, inv: Invoice, view: View): seq<Transfer> {
    Booked(Booked(Booked(Booked(journal, inv, view, Net), inv, view, Vat), inv, view, Fee), inv, view, FeeVat)
  }

  predicate Lacks(transfers: seq<Transfer>, leg: Leg) {
    forall k :: 0 <= k < |transfers| ==> transfers[k].key.leg != leg
  }

  lemma BookedAppends(journal: seq<Transfer>, inv: Invoice, view: View, leg: Leg)
    requires Lacks(JournalOf(journal, inv.id), leg)
    ensures JournalOf(Booked(journal, inv, view, leg), inv.id)
            == JournalOf(journal, inv.id) + TransferIfSent(inv, view, leg)
    ensures forall other :: other != leg && Lacks(JournalOf(journal, inv.id), other) ==>
              Lacks(JournalOf(Booked(journal, inv, view, leg), inv.id), other)
  {
    KeyInJournalOf(journal, inv.id, leg);
    JournalOfAppend(journal, LegTransfer(inv, view, leg), inv.id);
  }

  lemma BookedPair(journal: seq<Transfer>, inv: Invoice, view: View, first: Leg, second: Leg)
    requires first != second
    requires Lacks(JournalOf(journal, inv.id), first) && Lacks(JournalOf(journal, inv.id), second)
    ensures var j := Booked(Booked(journal, inv, view, first), inv, view, second);
            && JournalOf(j, inv.id)
               == JournalOf(journal, inv.id) + (TransferIfSent(inv, view, first) + TransferIfSent(inv, view, second))
            && forall other :: other != first && other != second && Lacks(JournalOf(journal, inv.id), other) ==>
                 Lacks(JournalOf(j, inv.id), other)
  {
    BookedAppends(journal, inv, view, first);
    BookedAppends(Booked(journal, inv, view, first), inv, view, second);
  }

  /** A first payment books exactly the plan. */
  lemma BookedIsPlan(journal: seq<Transfer>, inv: Invoice, view: View)
    requires inv.partnered && JournalOf(journal, inv.id) == []
    ensures JournalOf(BookedAll(journal, inv, view), inv.id) == Plan(inv, view)
  {
    BookedPair(journal, inv, view, Net, Vat);
    BookedPair(Booked(Booked(journal, inv, view, Net), inv, view, Vat), inv, view, Fee, FeeVat);
    PlanByLeg(inv, view);
    NothingPlus(TransferIfSent(inv, view, Net) + TransferIfSent(inv, view, Vat));
  }

  lemma NothingPlus(transfers: seq<Transfer>)
    ensures [] + transfers == transfers
  {
  }

  /** Over every run in which the attempts read identical, different accounts: once PAID, every party got its share. */
  lemma PaidIsDistributed(steps: seq<Step>, i: Id, view: View)
    requires Runs(INIT, steps) && forall k :: 0 <= k < |steps| ==> Identical(steps[k], i, view)
    requires i in Exec(INIT, steps).invoices && Exec(INIT, steps).invoices[i].status == Paid
    requires Exec(INIT, steps).invoices[i].partnered && Apart(view)
    requires forall leg :: leg != Net ==> LegAmount(Exec(INIT, steps).invoices[i].amounts, leg) >= 0
    ensures var s := Exec(INIT, steps);
            Distributed(JournalOf(s.journal, i), s.invoices[i].amounts,
                        view.wallet, view.pending, view.vat, view.revenue, view.vatPayable)
  {
    ExactTransfers(steps, i, view);
    PlanDistributes(Exec(INIT, steps).invoices[i], view);
  }

  // ---- The order in which legs are applied ----

  /** Sends the legs from index `k` on, one after the other, where a repeated one changes nothing. */
  function SendInOrder(done: seq<Leg>, legs: seq<Leg>, k: nat): seq<Leg>
    decreases |legs| - k
  {
    if k >= |legs| then done
    else SendInOrder(if legs[k] in done then done else done + [legs[k]], legs, k + 1)
  }

  lemma {:induction false} SendInOrderExtends(done: seq<Leg>, legs: seq<Leg>, k: nat)
    ensures done <= SendInOrder(done, legs, k)
    decreases |legs| - k
  {
    if k < |legs| {
      SendInOrderExtends(if legs[k] in done then done else done + [legs[k]], legs, k + 1);
    }
  }

  lemma {:induction false} SendInOrderCompletes(done: seq<Leg>, legs: seq<Leg>, k: nat)
    requires forall i, j :: 0 <= i < j < |legs| ==> legs[i] != legs[j]
    requires done <= legs && k <= |done|
    ensures SendInOrder(done, legs, k) == legs
    decreases |legs| - k
  {
    if k < |legs| {
      assert k < |done| ==> done[k] == legs[k];
      SendInOrderCompletes(if legs[k] in done then done else done + [legs[k]], legs, k + 1);
    }
  }

  /** The legs that will be applied for the attempt's invoice once the attempt has completed. */
  function Outlook(s: State, a: nat): seq<Leg>
    requires a in s.attempts
  {
    var att := s.attempts[a];
    SendInOrder(AppliedLegs(s.journal, att.invoice), att.legs, att.next)
  }

  // ---- A fresh attempt can always finish, and which row it settles ----

  function RestOfAttempt(a: nat, n: nat): seq<Step> {
    seq(n + 1, k => if k < n then Call(a, true, true) else Finish(a, true))
  }

  /** Attempt `a`, with `n` calls to go, is for a stored invoice. */
  predicate ToGo(s: State, a: nat, n: nat) {
    && a in s.attempts && s.attempts[a].next + n == |s.attempts[a].legs|
    && s.attempts[a].invoice in s.invoices && s.invoices[s.attempts[a].invoice].id == s.attempts[a].invoice
  }

  lemma CallAdvances(s: State, a: nat, n: nat, other: Id) returns (s': State)
    requires n > 0 && ToGo(s, a, n) && other != s.attempts[a].invoice
    ensures Enabled(s, Call(a, true, true)) && s' == Apply(s, Call(a, true, true)) && s'.invoices == s.invoices
    ensures ToGo(s', a, n - 1) && s'.attempts[a] == s.attempts[a].(next := s.attempts[a].next + 1)
    ensures JournalOf(s'.journal, other) == JournalOf(s.journal, other)
  {
    var att := s.attempts[a];
    s' := Apply(s, Call(a, true, true));
    JournalOfAppend(s.journal, LegTransfer(s.invoices[att.invoice], att.view, att.legs[att.next]), other);
  }

  lemma CallKeepsOutlook(s: State, a: nat, n: nat)
    requires n > 0 && ToGo(s, a, n)
    ensures Outlook(Apply(s, Call(a, true, true)), a) == Outlook(s, a)
  {
    var att := s.attempts[a];
    var t := LegTransfer(s.invoices[att.invoice], att.view, att.legs[att.next]);
    LegIsApplied(s.journal, att.invoice, t.key.leg);
    assert (s.journal + [t])[..|s.journal|] == s.journal;
  }

  /** Attempt `a` makes its last `n` calls without failing and updates the row: from `s` to `s'`. */
  predicate Completes(s: State, a: nat, n: nat, s': State)
    decreases n
  {
    if n == 0 then Enabled(s, Finish(a, true)) && s' == Apply(s, Finish(a, true))
    else Enabled(s, Call(a, true, true)) && Completes(Apply(s, Call(a, true, true)), a, n - 1, s')
  }

  lemma {:induction false} CompletesRuns(s: State, a: nat, n: nat, s': State)
    requires Completes(s, a, n, s')
    ensures Runs(s, RestOfAttempt(a, n)) && Exec(s, RestOfAttempt(a, n)) == s'
    decreases n
  {
    var step := RestOfAttempt(a, n)[0];
    if n == 0 {
      RunsCons(s, step, []);
      assert RestOfAttempt(a, 0) == [step] + [];
    } else {
      CompletesRuns(Apply(s, step), a, n - 1, s');
      RunsCons(s, step, RestOfAttempt(a, n - 1));
      assert RestOfAttempt(a, n) == [step] + RestOfAttempt(a, n - 1);
    }
  }

  /** What an attempt leaves behind for the row it named and for an invoice it does not touch. */
  predicate Ends(s: State, s': State, q: Id, other: Id) {
    && (q in s.invoices ==> q in s'.invoices && s'.invoices[q].status == Paid)
    && JournalOf(s'.journal, other) == JournalOf(s.journal, other)
  }

  lemma {:induction false} RestCompletes(s: State, a: nat, n: nat, other: Id) returns (s': State)
    requires ToGo(s, a, n) && other != s.attempts[a].invoice
    ensures Completes(s, a, n, s') && Ends(s, s', s.attempts[a].callerId, other)
    ensures AppliedLegs(s'.journal, s.attempts[a].invoice) == Outlook(s, a)
    decreases n
  {
    if n == 0 {
      s' := Apply(s, Finish(a, true));
    } else {
      var s1 := CallAdvances(s, a, n, other);
      CallKeepsOutlook(s, a, n);
      s' := RestCompletes(s1, a, n - 1, other);
    }
  }

  function WholeAttempt(s: State, a: nat, q: Query, i: Id, view: View): seq<Step>
    requires i in s.invoices
  {
    [Begin(a, q, i, view)] + RestOfAttempt(a, |Required(s.invoices[i], view)|)
  }

  lemma WholeAttemptRuns(s: State, a: nat, q: Query, i: Id, view: View, other: Id) returns (s': State)
    requires Wellformed(s) && Enabled(s, Begin(a, q, i, view)) && other != i
    ensures Runs(s, WholeAttempt(s, a, q, i, view)) && Exec(s, WholeAttempt(s, a, q, i, view)) == s'
    ensures Ends(s, s', q.id, other)
    ensures AppliedLegs(s'.journal, i) == SendInOrder(AppliedLegs(s.journal, i), Required(s.invoices[i], view), 0)
  {
    var step, n := Begin(a, q, i, view), |Required(s.invoices[i], view)|;
    StepKeepsWellformed(s, step);
    s' := RestCompletes(Apply(s, step), a, n, other);
    CompletesRuns(Apply(s, step), a, n, s');
    RunsCons(s, step, RestOfAttempt(a, n));
  }

  /**
   Whatever ran before, and whatever accounts earlier attempts saw: a complete
   attempt leaves exactly its required legs applied, in order, if and only if
   those applied before are a prefix of them. An account that appears between
   two attempts breaks that condition.
   */
  lemma SettledInOrderExactly(s: State, a: nat, q: Query, i: Id, view: View)
    requires Wellformed(s) && Enabled(s, Begin(a, q, i, view))
    ensures Runs(s, WholeAttempt(s, a, q, i, view))
    ensures var legs := Required(s.invoices[i], view);
            AppliedLegs(Exec(s, WholeAttempt(s, a, q, i, view)).journal, i) == legs
            <==> AppliedLegs(s.journal, i) <= legs
  {
    var done, legs := AppliedLegs(s.journal, i), Required(s.invoices[i], view);
    var s' := WholeAttemptRuns(s, a, q, i, view, i + "'");
    SendInOrderExtends(done, legs, 0);
    if done <= legs {
      RequiredDistinct(s.invoices[i], view);
      SendInOrderCompletes(done, legs, 0);
    }
  }

  /** An unpaid invoice of the caller is found under its id, its number and its reference, with or without PAY-. */
  lemma LookupFinds(s: State, a: nat, i: Id, view: View, resolved: Option<string>)
    requires Wellformed(s) && a !in s.attempts && i in s.invoices && s.invoices[i].status != Paid
    ensures var inv := s.invoices[i];
            && Enabled(s, Begin(a, Query(i, inv.userId, resolved), i, view))
            && Enabled(s, Begin(a, Query(inv.number, inv.userId, resolved), i, view))
            && (inv.referenceId.Some? ==>
                  && Enabled(s, Begin(a, Query(inv.referenceId.value, inv.userId, resolved), i, view))
                  && Enabled(s, Begin(a, Query("PAY-" + inv.referenceId.value, inv.userId, resolved), i, view)))
  {
  }

  /** A transaction id leads to the invoice that carries the resolved reference, with or without PAY- on either side. */
  lemma LookupResolves(s: State, a: nat, i: Id, view: View, rest: string, r: string)
    requires a !in s.attempts && i in s.invoices && s.invoices[i].status != Paid
    requires s.invoices[i].referenceId == Some(r)
    ensures var user := s.invoices[i].userId;
            && Enabled(s, Begin(a, Query("TXN" + rest, user, Some(r)), i, view))
            && Enabled(s, Begin(a, Query("TXN" + rest, user, Some("PAY-" + r)), i, view))
            && ("PAY-" <= r && !("PAY-" <= r[4..]) ==>
                  Enabled(s, Begin(a, Query("TXN" + rest, user, Some(r[4..])), i, view)))
  {
    if "PAY-" <= r {
      assert r == "PAY-" + r[4..];
    }
  }

  /** No one pays another user's invoice, and no attempt starts on a PAID one. */
  lemma LookupIsOwn(s: State, a: nat, q: Query, i: Id, view: View)
    requires Enabled(s, Begin(a, q, i, view))
    ensures s.invoices[i].userId == q.userId && s.invoices[i].status != Paid
    ensures q.id == i || s.invoices[i].id == q.id || s.invoices[i].number == q.id || s.invoices[i].referenceId.Some?
  {
  }

  // ---- Which row an attempt settles ----

  /** The attempt leaves invoice `i` PAID with exactly its required legs applied, in order. */
  predicate Settles(s: State, a: nat, q: Query, found: Id, view: View, i: Id)
    requires found in s.invoices && i in s.invoices
  {
    && Runs(s, WholeAttempt(s, a, q, found, view))
    && var s' := Exec(s, WholeAttempt(s, a, q, found, view));
       && i in s'.invoices && s'.invoices[i].status == Paid
       && AppliedLegs(s'.journal, i) == Required(s.invoices[i], view)
  }

  /** After any run, however many attempts failed, one undisturbed attempt pays an unpaid invoice in full. */
  lemma RetrySettles(steps: seq<Step>, a: nat, q: Query, view: View)
    requires Runs(INIT, steps) && AllDirect(steps, q.id, view)
    requires Enabled(Exec(INIT, steps), Begin(a, q, q.id, view))
    ensures Settles(Exec(INIT, steps), a, q, q.id, view, q.id)
  {
    var s := Exec(INIT, steps);
    RunKeepsWellformed(INIT, steps);
    RunKeepsInOrder(INIT, steps, q.id, view);
    SettledInOrderExactly(s, a, q, q.id, view);
    var s' := WholeAttemptRuns(s, a, q, q.id, view, q.id + "'");
  }

  /** No unpaid row but the named one answers the query. */
  predicate SoleMatch(s: State, q: Query) {
    forall i :: i in s.invoices && Matches(q, s.invoices[i]) && s.invoices[i].status != Paid ==> i == q.id
  }

  lemma MisdirectedSettles(s: State, a: nat, q: Query, i: Id, view: View)
    requires Wellformed(s) && q.id in s.invoices && i in s.invoices && i != q.id && Enabled(s, Begin(a, q, i, view))
    ensures Settles(s, a, q, i, view, q.id) <==> AppliedLegs(s.journal, q.id) == Required(s.invoices[q.id], view)
  {
    var s' := WholeAttemptRuns(s, a, q, i, view, q.id);
    AppliedLegsOfJournal(s.journal, q.id);
    AppliedLegsOfJournal(s'.journal, q.id);
  }

  /**
   The update goes to the row the caller named, the transfers to the row the
   lookup found. Whichever matching row the lookup returns, a complete attempt
   leaves the named row PAID and settled, if and only if its legs were all
   applied already or no other unpaid row matches the query.
   */
  lemma PaidIsSettledExactly(steps: seq<Step>, a: nat, q: Query, view: View)
    requires Runs(INIT, steps) && AllDirect(steps, q.id, view)
    requires a !in Exec(INIT, steps).attempts && q.id in Exec(INIT, steps).invoices
    ensures var s := Exec(INIT, steps);
            (forall i :: i in s.invoices && Enabled(s, Begin(a, q, i, view)) ==> Settles(s, a, q, i, view, q.id))
            <==> AppliedLegs(s.journal, q.id) == Required(s.invoices[q.id], view) || SoleMatch(s, q)
  {
    var s := Exec(INIT, steps);
    RunKeepsWellformed(INIT, steps);
    forall i | i in s.invoices && Enabled(s, Begin(a, q, i, view))
      ensures Settles(s, a, q, i, view, q.id)
              <==> i == q.id || AppliedLegs(s.journal, q.id) == Required(s.invoices[q.id], view)
    {
      if i == q.id {
        RetrySettles(steps, a, q, view);
      } else {
        MisdirectedSettles(s, a, q, i, view);
      }
    }
  }

  /** Such a lookup exists: a second invoice of the customer whose reference is the first one's id. */
  lemma MisdirectedPayment(a: Amounts, view: View)
    ensures var first := Invoice("A", "INV-1", "u", true, a, Pending, None);
            var second := Invoice("B", "INV-2", "u", false, a, Pending, Some("A"));
            var steps := [Create(first), Create(second), Begin(0, Query("A", "u", None), "B", view), Finish(0, true)];
            && Runs(INIT, steps)
            && var s := Exec(INIT, steps);
               "A" in s.invoices && s.invoices["A"].status == Paid && s.journal == []
  {
    var first := Invoice("A", "INV-1", "u", true, a, Pending, None);
    var second := Invoice("B", "INV-2", "u", false, a, Pending, Some("A"));
    var begin, finish := Begin(0, Query("A", "u", None), "B", view), Finish(0, true);
    var s1 := Apply(INIT, Create(first));
    var s2 := Apply(s1, Create(second));
    var s3 := Apply(s2, begin);
    RunsCons(s3, finish, []);
    RunsCons(s2, begin, [finish] + []);
    RunsCons(s1, Create(second), [begin] + ([finish] + []));
    RunsCons(INIT, Create(first), [Create(second)] + ([begin] + ([finish] + [])));
    assert [Create(first), Create(second), begin, finish]
        == [Create(first)] + ([Create(second)] + ([begin] + ([finish] + [])));
  }

  // ---- An account that appears between two attempts ----

  const ASKED: Query := Query("A", "u", None)
  const LATE_VAT: View := View("w", Some("p"), None, Some("r"), Some("x"))
  const ALL_ACCOUNTS: View := View("w", Some("p"), Some("v"), Some("r"), Some("x"))
  const NET_ONLY: View := View("w", Some("p"), None, None, None)

  function Sample(): Invoice {
    Invoice("A", "INV-1", "u", true, Amounts(1000, 70, 1070, Some(20), Some(1)), Pending, None)
  }

  function Applied(view: View, leg: Leg): Transfer {
    LegTransfer(Sample(), view, leg)
  }

  /** The sample invoice, the journal and the attempts in flight. */
  function SampleState(journal: seq<Transfer>, attempts: map<nat, Attempt>): State {
    State(map["A" := Sample()], journal, attempts)
  }

  function SampleAttempt(view: View, next: nat): Attempt {
    Attempt("A", "A", view, Required(Sample(), view), next)
  }

  lemma SampleLegs()
    ensures Required(Sample(), ALL_ACCOUNTS) == [Net, Vat, Fee, FeeVat]
    ensures Required(Sample(), LATE_VAT) == [Net, Fee, FeeVat] && Required(Sample(), NET_ONLY) == [Net]
  {
  }

  /** A successful call of the sample attempt `a` whose leg is new appends the leg. */
  lemma SampleCall(journal: seq<Transfer>, attempts: map<nat, Attempt>, a: nat, view: View, n: nat, s': State)
    requires a in attempts && attempts[a] == SampleAttempt(view, n) && n < |Required(Sample(), view)|
    requires !HasKey(journal, Key(Required(Sample(), view)[n], "A"))
    requires s' == SampleState(journal + [Applied(view, Required(Sample(), view)[n])],
                               attempts[a := SampleAttempt(view, n + 1)])
    ensures var s := SampleState(journal, attempts);
            Enabled(s, Call(a, true, true)) && Apply(s, Call(a, true, true)) == s'
  {
  }

  lemma SampleBegins(view: View)
    ensures var steps := [Create(Sample()), Begin(0, ASKED, "A", view)];
            Runs(INIT, steps) && Exec(INIT, steps) == SampleState([], map[0 := SampleAttempt(view, 0)])
  {
    var s1 := SampleState([], map[]);
    var begin := Begin(0, ASKED, "A", view);
    assert Apply(INIT, Create(Sample())) == s1;
    RunsCons(s1, begin, []);
    RunsCons(INIT, Create(Sample()), [begin] + []);
    assert [Create(Sample()), begin] == [Create(Sample())] + ([begin] + []);
  }

  function UntilCrash(): seq<Step> {
    [Create(Sample()), Begin(0, ASKED, "A", LATE_VAT)] + [Call(0, true, true)] + [Call(0, true, true)] + [Crash(0)]
  }

  lemma TwoLegsThenCrash() returns (s: State)
    ensures Runs(INIT, UntilCrash()) && Exec(INIT, UntilCrash()) == s
    ensures s == SampleState([Applied(LATE_VAT, Net), Applied(LATE_VAT, Fee)], map[])
  {
    SampleLegs();
    SampleBegins(LATE_VAT);
    var begun := [Create(Sample()), Begin(0, ASKED, "A", LATE_VAT)];
    var net, fee := Applied(LATE_VAT, Net), Applied(LATE_VAT, Fee);
    var s1 := SampleState([] + [net], map[0 := SampleAttempt(LATE_VAT, 1)]);
    var s2 := SampleState([net] + [fee], map[0 := SampleAttempt(LATE_VAT, 2)]);
    SampleCall([], map[0 := SampleAttempt(LATE_VAT, 0)], 0, LATE_VAT, 0, s1);
    RunsSnoc(INIT, begun, Call(0, true, true));
    SampleCall([net], map[0 := SampleAttempt(LATE_VAT, 1)], 0, LATE_VAT, 1, s2);
    RunsSnoc(INIT, begun + [Call(0, true, true)], Call(0, true, true));
    RunsSnoc(INIT, begun + [Call(0, true, true)] + [Call(0, true, true)], Crash(0));
    s := Apply(s2, Crash(0));
  }

  /**
   Two legs are applied before the VAT account exists; the attempt that finds
   it completes the payment, out of order.
   */
  lemma LateAccountReorders()
    ensures Runs(INIT, UntilCrash())
    ensures var s := Exec(INIT, UntilCrash());
            && "A" in s.invoices
            && var again := WholeAttempt(s, 1, ASKED, "A", ALL_ACCOUNTS);
               Runs(s, again) && AppliedLegs(Exec(s, again).journal, "A") == [Net, Fee, Vat, FeeVat]
  {
    SampleLegs();
    var s3 := TwoLegsThenCrash();
    var s' := WholeAttemptRuns(s3, 1, ASKED, "A", ALL_ACCOUNTS, "B");
    AppliedPair(Applied(LATE_VAT, Net), Applied(LATE_VAT, Fee), "A");
    LateVatOrder(Required(Sample(), ALL_ACCOUNTS));
  }

  lemma AppliedPair(first: Transfer, second: Transfer, i: Id)
    requires first.key.invoice == i && second.key.invoice == i
    ensures AppliedLegs([first, second], i) == [first.key.leg, second.key.leg]
  {
    assert [first, second][..1] == [first] && [first][..0] == [];
    assert AppliedLegs([first], i) == [first.key.leg];
  }

  lemma LateVatOrder(legs: seq<Leg>)
    requires legs == [Net, Vat, Fee, FeeVat]
    ensures SendInOrder([Net, Fee], legs, 0) == [Net, Fee, Vat, FeeVat]
  {
    var three, four := [Net, Fee] + [Vat], [Net, Fee] + [Vat] + [FeeVat];
    assert three[1] == Fee;
    assert SendInOrder(three, legs, 3) == SendInOrder(four, legs, 4) == four;
    assert SendInOrder([Net, Fee], legs, 1) == SendInOrder(three, legs, 2) == four;
  }

  lemma FirstAttemptPays(s: State) returns (s': State)
    requires s == SampleState([], map[0 := SampleAttempt(NET_ONLY, 0), 1 := SampleAttempt(ALL_ACCOUNTS, 0)])
    ensures Runs(s, RestOfAttempt(0, 1)) && Exec(s, RestOfAttempt(0, 1)) == s'
    ensures "A" in s'.invoices && s'.invoices["A"].status == Paid && !HasKey(s'.journal, Key(Vat, "A"))
    ensures 1 in s'.attempts && s'.attempts[1] == SampleAttempt(ALL_ACCOUNTS, 0)
  {
    SampleLegs();
    var net, all := Applied(NET_ONLY, Net), SampleAttempt(ALL_ACCOUNTS, 0);
    var s1 := SampleState([] + [net], map[0 := SampleAttempt(NET_ONLY, 1), 1 := all]);
    SampleCall([], s.attempts, 0, NET_ONLY, 0, s1);
    s' := Apply(s1, Finish(0, true));
    assert s'.journal == [net];
    CompletesRuns(s, 0, 1, s');
  }

  /** An attempt under way when the invoice became PAID, and that had seen more accounts, still moves a leg. */
  lemma PaidStillMoves() returns (more: seq<Step>)
    ensures var steps := [Create(Sample()), Begin(0, ASKED, "A", NET_ONLY)] + [Begin(1, ASKED, "A", ALL_ACCOUNTS)]
                         + RestOfAttempt(0, 1);
            && Runs(INIT, steps)
            && var s := Exec(INIT, steps);
               && "A" in s.invoices && s.invoices["A"].status == Paid && Runs(s, more)
               && |JournalOf(Exec(s, more).journal, "A")| > |JournalOf(s.journal, "A")|
  {
    SampleLegs();
    SampleBegins(NET_ONLY);
    var begins := [Create(Sample()), Begin(0, ASKED, "A", NET_ONLY)];
    RunsSnoc(INIT, begins, Begin(1, ASKED, "A", ALL_ACCOUNTS));
    begins := begins + [Begin(1, ASKED, "A", ALL_ACCOUNTS)];
    var s := FirstAttemptPays(Exec(INIT, begins));
    RunsConcat(INIT, begins, RestOfAttempt(0, 1));
    RunKeepsWellformed(INIT, begins + RestOfAttempt(0, 1));
    more := LateLegMoves(s, 1, 1, "A");
  }
}
