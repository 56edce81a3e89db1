/**
 The billing service as its code is written (billing.service.ts): one object
 whose methods update the invoice table and, through the finance service, the
 journal. Every call of PayInvoice, with every pattern of failures, is a run of
 the Settlement protocol, so the results there hold of it.
 */
module BillingService {
  import opened Basics
  import opened Invoicing
  import opened Settlement

  datatype PayError = NotFound | AlreadyPaid | NoCustomerWallet | NoMerchantAccounts | NoSystemAccounts
                    | TransferFailed | UpdateFailed

  datatype MerchantAccounts = MerchantAccounts(pending: Option<Account>, vat: Option<Account>)

  datatype SystemAccounts = SystemAccounts(revenue: Option<Account>, vatPayable: Option<Account>)

  /** How the finance service answers one transfer. */
  datatype Reply = FailBefore | FailAfter | Success

  /** The replies to the four transfers and whether the database accepts the update. */
  datatype Replies = Replies(net: Reply, vat: Reply, fee: Reply, feeVat: Reply, updated: bool)

  function ReplyTo(replies: Replies, leg: Leg): Reply {
    match leg
    case Net => replies.net
    case Vat => replies.vat
    case Fee => replies.fee
    case FeeVat => replies.feeVat
  }

  predicate AllSucceed(replies: Replies, legs: seq<Leg>) {
    forall leg :: leg in legs ==> ReplyTo(replies, leg).Success?
  }

  lemma AllSucceedByLeg(inv: Invoice, view: View, replies: Replies)
    requires inv.partnered
    ensures AllSucceed(replies, Required(inv, view)) <==>
            && replies.net.Success? && (Sent(inv.amounts, view, Vat) ==> replies.vat.Success?)
            && (Sent(inv.amounts, view, Fee) ==> replies.fee.Success?)
            && (Sent(inv.amounts, view, FeeVat) ==> replies.feeVat.Success?)
  {
    assert forall leg :: leg in Required(inv, view) <==> Sent(inv.amounts, view, leg);
    assert ReplyTo(replies, Net) == replies.net && ReplyTo(replies, Vat) == replies.vat;
    assert ReplyTo(replies, Fee) == replies.fee && ReplyTo(replies, FeeVat) == replies.feeVat;
  }

  /** How many required legs come before this one. */
  function Before(inv: Invoice, view: View, leg: Leg): nat {
    match leg
    case Net => 0
    case Vat => 1
    case Fee => 1 + |LegIfSent(inv.amounts, view, Vat)|
    case FeeVat => 1 + |LegIfSent(inv.amounts, view, Vat)| + |LegIfSent(inv.amounts, view, Fee)|
  }

  lemma RequiredAt(inv: Invoice, view: View, leg: Leg)
    requires inv.partnered && Sent(inv.amounts, view, leg)
    ensures Before(inv, view, leg) < |Required(inv, view)| && Required(inv, view)[Before(inv, view, leg)] == leg
  {
  }

  lemma RequiredLength(inv: Invoice, view: View)
    requires inv.partnered
    ensures |Required(inv, view)| == Before(inv, view, FeeVat) + |LegIfSent(inv.amounts, view, FeeVat)|
    ensures Required(inv, view)[0] == Net
  {
  }

  predicate AccountsFound(inv: Invoice, wallet: Option<Account>, merchant: Option<MerchantAccounts>,
                          system: Option<SystemAccounts>) {
    inv.partnered ==> wallet.Some? && merchant.Some? && system.Some?
  }

  /** The accounts a payment works with; an invoice without a partner reads none. */
  function ReadAccounts(inv: Invoice, wallet: Option<Account>, merchant: Option<MerchantAccounts>,
                        system: Option<SystemAccounts>): View
    requires AccountsFound(inv, wallet, merchant, system)
  {
    if inv.partnered
    then View(wallet.value, merchant.value.pending, merchant.value.vat, system.value.revenue, system.value.vatPayable)
    else View("", None, None, None, None)
  }

  /** The invoice found is unpaid and has a partner, so accounts are needed. */
  predicate Payable(invoices: map<Id, Invoice>, found: Option<Id>) {
    found.Some? && found.value in invoices && invoices[found.value].status != Paid && invoices[found.value].partnered
  }

  /** No two of the payment's accounts are the same. */
  predicate Different(wallet: Account, merchant: MerchantAccounts, system: SystemAccounts) {
    var others := [merchant.pending, merchant.vat, system.revenue, system.vatPayable];
    && (forall j :: 0 <= j < |others| ==> others[j] != Some(wallet))
    && (forall j, k :: 0 <= j < k < |others| && others[j].Some? ==> others[j] != others[k])
  }

  predicate NonNegativeLegs(a: Amounts) {
    a.tax >= 0 && (a.fee.Some? ==> a.fee.value >= 0) && (a.feeTax.Some? ==> a.feeTax.value >= 0)
  }

  /**
   If nothing was applied for the invoice before and the accounts differ, then
   now the customer's wallet has paid, and the merchant's and the system's
   accounts have received, exactly their shares.
   */
  predicate Shared(before: seq<Transfer>, after: seq<Transfer>, inv: Invoice,
                   wallet: Account, merchant: MerchantAccounts, system: SystemAccounts) {
    JournalOf(before, inv.id) == [] && Different(wallet, merchant, system) && NonNegativeLegs(inv.amounts) ==>
      Distributed(JournalOf(after, inv.id), inv.amounts,
                  wallet, merchant.pending, merchant.vat, system.revenue, system.vatPayable)
  }

  lemma FirstPayment(journal: seq<Transfer>, inv: Invoice, wallet: Account, merchant: MerchantAccounts,
                     system: SystemAccounts)
    requires inv.partnered
    ensures var view := ReadAccounts(inv, Some(wallet), Some(merchant), Some(system));
            Shared(journal, BookedAll(journal, inv, view), inv, wallet, merchant, system)
  {
    var view := ReadAccounts(inv, Some(wallet), Some(merchant), Some(system));
    if JournalOf(journal, inv.id) == [] && Different(wallet, merchant, system) && NonNegativeLegs(inv.amounts) {
      BookedIsPlan(journal, inv, view);
      PlanDistributes(inv, view);
    }
  }

  class Service {
    var invoices: map<Id, Invoice>
    var journal: seq<Transfer>

    ghost function Idle(): State
      reads this
    {
      State(invoices, journal, map[])
    }

    /** The protocol, run from `s0` along `trace`, is now in this object's state with attempt `att` under way. */
    ghost predicate At(s0: State, trace: seq<Step>, att: Attempt)
      reads this
    {
      && Wellformed(s0) && Runs(s0, trace)
      && Exec(s0, trace) == State(invoices, journal, map[0 := att])
    }

    ghost predicate Ended(s0: State, trace: seq<Step>)
      reads this
    {
      Wellformed(s0) && Runs(s0, trace) && Exec(s0, trace) == Idle()
    }

    constructor ()
      ensures Idle() == INIT
    {
      invoices, journal := map[], [];
    }

    /** The arithmetic of createInvoice, in its order. */
    method ComputeAmounts(items: seq<Item>, partner: Partner, settings: Settings, round: real -> int)
      returns (r: Result<Amounts, Rejection>)
      ensures r == CreateAmounts(items, partner, settings, round)
    {
      var vatRate := if partner.NoPartner? then 0.0 else Setting(settings.vatRate, 0.07);
      var minAmount := Setting(settings.minMerchantPayment, 5.0) * 100.0;
      var subtotal := SumItems(items);
      var tax := 0;
      if !partner.NoPartner? {
        tax := Portion(round, subtotal, vatRate);
      }
      var total := subtotal + tax;
      if !partner.NoPartner? && (total as real) < minAmount {
        return Err(BelowMinimum);
      }
      var fee, feeTax := None, None;
      if partner.KnownPartner? {
        var feeAmount := Portion(round, total, partner.feeRate);
        fee, feeTax := Some(feeAmount), Some(Portion(round, feeAmount, vatRate));
      }
      r := Ok(Amounts(subtotal, tax, total, fee, feeTax));
    }

    method CreateInvoice(id: Id, number: string, userId: string, referenceId: Option<string>, items: seq<Item>,
                         partner: Partner, settings: Settings, round: real -> int)
      returns (r: Result<Invoice, Rejection>)
      requires Wellformed(Idle()) && id !in invoices
      modifies this
      ensures Wellformed(Idle()) && journal == old(journal)
      ensures r.Ok? <==> CreateAmounts(items, partner, settings, round).Ok?
      ensures r.Ok? ==> r.value == Invoice(id, number, userId, !partner.NoPartner?,
                                           CreateAmounts(items, partner, settings, round).value, Pending, referenceId)
      ensures Idle() == if r.Ok? then Apply(old(Idle()), Create(r.value)) else old(Idle())
    {
      var amounts := ComputeAmounts(items, partner, settings, round);
      if amounts.Err? {
        return Err(amounts.error);
      }
      var invoice := Invoice(id, number, userId, !partner.NoPartner?, amounts.value, Pending, referenceId);
      invoices := invoices[id := invoice];
      r := Ok(invoice);
    }

    /** One awaited performTransfer of an attempt. */
    method SendLeg(ghost s0: State, ghost trace: seq<Step>, ghost att: Attempt,
                   inv: Invoice, view: View, leg: Leg, reply: Reply)
      returns (ok: bool, ghost trace': seq<Step>)
      requires At(s0, trace, att) && att.next < |att.legs| && att.legs[att.next] == leg
      requires att.invoice in invoices && invoices[att.invoice] == inv && att.view == view
      modifies this`journal
      ensures journal == Record(old(journal), LegTransfer(inv, view, leg), !reply.FailBefore?)
      ensures journal == if reply.FailBefore? || HasKey(old(journal), Key(leg, inv.id)) then old(journal)
                         else old(journal) + [LegTransfer(inv, view, leg)]
      ensures ok == reply.Success?
      ensures if ok then At(s0, trace', att.(next := att.next + 1)) else Ended(s0, trace')
    {
      var transfer := LegTransfer(inv, view, leg);
      ok := reply.Success?;
      ghost var step := Call(0, !reply.FailBefore?, ok);
      ghost var s := Exec(s0, trace);
      RunsSnoc(s0, trace, step);
      trace' := trace + [step];
      journal := Record(journal, transfer, !reply.FailBefore?);
      if ok {
        assert s.attempts[0 := att.(next := att.next + 1)] == map[0 := att.(next := att.next + 1)];
      } else {
        assert s.attempts - {0} == map[];
      }
    }

    /** An attempt on the stored, partnered invoice is under way, with `n` of its required legs done. */
    ghost predicate Paying(s0: State, trace: seq<Step>, att: Attempt, inv: Invoice, n: nat)
      reads this
    {
      && At(s0, trace, att.(next := n)) && att.legs == Required(inv, att.view) && inv.partnered
      && att.invoice in invoices && invoices[att.invoice] == inv
    }

    /** One of the transfers that are guarded by a positive amount and an existing account. */
    method SendGuarded(ghost s0: State, ghost trace: seq<Step>, ghost att: Attempt,
                       inv: Invoice, view: View, leg: Leg, reply: Reply)
      returns (ok: bool, ghost trace': seq<Step>)
      requires att.view == view && Paying(s0, trace, att, inv, Before(inv, view, leg))
      modifies this`journal
      ensures ok <==> (Sent(inv.amounts, view, leg) ==> reply.Success?)
      ensures ok ==> journal == Booked(old(journal), inv, view, leg)
      ensures if ok then Paying(s0, trace', att, inv, Before(inv, view, leg) + |LegIfSent(inv.amounts, view, leg)|)
              else Ended(s0, trace')
    {
      ok, trace' := true, trace;
      if Sent(inv.amounts, view, leg) {
        RequiredAt(inv, view, leg);
        ok, trace' := SendLeg(s0, trace, att.(next := Before(inv, view, leg)), inv, view, leg, reply);
      }
    }

    /** The transfers to the merchant: the net amount, then the VAT. */
    method SendMerchantLegs(ghost s0: State, ghost trace: seq<Step>, ghost att: Attempt,
                            inv: Invoice, view: View, replies: Replies)
      returns (ok: bool, ghost trace': seq<Step>)
      requires att.view == view && Paying(s0, trace, att, inv, 0)
      modifies this`journal
      ensures ok <==> replies.net.Success? && (Sent(inv.amounts, view, Vat) ==> replies.vat.Success?)
      ensures ok ==> journal == Booked(Booked(old(journal), inv, view, Net), inv, view, Vat)
      ensures if ok then Paying(s0, trace', att, inv, Before(inv, view, Fee)) else Ended(s0, trace')
    {
      ok, trace' := SendGuarded(s0, trace, att, inv, view, Net, replies.net);
      if ok {
        ok, trace' := SendGuarded(s0, trace', att, inv, view, Vat, replies.vat);
      }
    }

    /** The transfers to the system: the fee, then its VAT. */
    method SendSystemLegs(ghost s0: State, ghost trace: seq<Step>, ghost att: Attempt,
                          inv: Invoice, view: View, replies: Replies)
      returns (ok: bool, ghost trace': seq<Step>)
      requires att.view == view && Paying(s0, trace, att, inv, Before(inv, view, Fee))
      modifies this`journal
      ensures ok <==> && (Sent(inv.amounts, view, Fee) ==> replies.fee.Success?)
                      && (Sent(inv.amounts, view, FeeVat) ==> replies.feeVat.Success?)
      ensures ok ==> journal == Booked(Booked(old(journal), inv, view, Fee), inv, view, FeeVat)
      ensures if ok then Paying(s0, trace', att, inv, |Required(inv, view)|) else Ended(s0, trace')
    {
      RequiredLength(inv, view);
      ok, trace' := SendGuarded(s0, trace, att, inv, view, Fee, replies.fee);
      if ok {
        ok, trace' := SendGuarded(s0, trace', att, inv, view, FeeVat, replies.feeVat);
      }
    }

    /** The transfers of a partnered invoice, in the order the service sends them. */
    method SendLegs(ghost s0: State, ghost trace: seq<Step>, ghost att: Attempt,
                    inv: Invoice, view: View, replies: Replies)
      returns (ok: bool, ghost trace': seq<Step>)
      requires att.view == view && Paying(s0, trace, att, inv, 0)
      modifies this`journal
      ensures if ok then Paying(s0, trace', att, inv, |att.legs|) else Ended(s0, trace')
      ensures ok <==> AllSucceed(replies, att.legs)
      ensures ok ==> journal == BookedAll(old(journal), inv, view)
    {
      AllSucceedByLeg(inv, view, replies);
      ok, trace' := SendMerchantLegs(s0, trace, att, inv, view, replies);
      if ok {
        ok, trace' := SendSystemLegs(s0, trace', att, inv, view, replies);
      }
    }

    /**
     Every payment, under every failure pattern, is a run of the protocol; a successful
     one leaves the named row PAID.
     */
    method PayInvoice(q: Query, found: Option<Id>, wallet: Option<Account>, merchant: Option<MerchantAccounts>,
                      system: Option<SystemAccounts>, replies: Replies)
      returns (r: Result<Invoice, PayError>, ghost trace: seq<Step>)
      requires Wellformed(Idle())
      requires found.Some? ==> found.value in invoices && Matches(q, invoices[found.value])
      modifies this
      ensures Ended(old(Idle()), trace)
      // Which error, if any.
      ensures r == Err(NotFound) <==> found.None?
      ensures r == Err(AlreadyPaid) <==> found.Some? && old(invoices)[found.value].status == Paid
      ensures r == Err(NoCustomerWallet) <==> Payable(old(invoices), found) && wallet.None?
      ensures r == Err(NoMerchantAccounts) <==> Payable(old(invoices), found) && wallet.Some? && merchant.None?
      ensures r == Err(NoSystemAccounts) <==>
              Payable(old(invoices), found) && wallet.Some? && merchant.Some? && system.None?
      ensures r.Ok? <==>
              && found.Some? && old(invoices)[found.value].status != Paid
              && AccountsFound(old(invoices)[found.value], wallet, merchant, system)
              && (var inv := old(invoices)[found.value];
                  AllSucceed(replies, Required(inv, ReadAccounts(inv, wallet, merchant, system))))
              && replies.updated && q.id in old(invoices)
      // What changes.
      ensures r.Ok? ==> invoices == old(invoices)[q.id := r.value]
      ensures r.Ok? ==> r.value == old(invoices)[q.id].(status := Paid, referenceId := Some("SPLIT_PAY_" + found.value))
      ensures r.Err? ==> invoices == old(invoices)
      ensures r.Err? && !r.error.TransferFailed? && !r.error.UpdateFailed? ==> journal == old(journal)
      ensures r.Ok? && !old(invoices)[found.value].partnered ==> journal == old(journal)
      ensures r.Ok? ==> var inv := old(invoices)[found.value];
                        Covered(journal, inv, ReadAccounts(inv, wallet, merchant, system))
      // A first successful payment gives every party its share.
      ensures r.Ok? && Payable(old(invoices), found) ==>
                Shared(old(journal), journal, old(invoices)[found.value], wallet.value, merchant.value, system.value)
    {
      trace := [];
      if found.None? { return Err(NotFound), trace; }
      var i := found.value;
      var inv := invoices[i];
      if inv.status == Paid { return Err(AlreadyPaid), trace; }
      if inv.partnered {
        if wallet.None? { return Err(NoCustomerWallet), trace; }
        if merchant.None? { return Err(NoMerchantAccounts), trace; }
        if system.None? { return Err(NoSystemAccounts), trace; }
        FirstPayment(journal, inv, wallet.value, merchant.value, system.value);
      }
      r, trace := Settle(q, i, ReadAccounts(inv, wallet, merchant, system), replies);
    }

    /** The transfers and the update, once the accounts are read. */
    method Settle(q: Query, i: Id, view: View, replies: Replies)
      returns (r: Result<Invoice, PayError>, ghost trace: seq<Step>)
      requires Wellformed(Idle()) && Enabled(Idle(), Begin(0, q, i, view))
      modifies this
      ensures Ended(old(Idle()), trace)
      ensures r.Ok? <==>
              AllSucceed(replies, Required(old(invoices)[i], view)) && replies.updated && q.id in old(invoices)
      ensures r.Err? ==> invoices == old(invoices) && (r.error.TransferFailed? || r.error.UpdateFailed?)
      ensures r == Err(TransferFailed) <==> !AllSucceed(replies, Required(old(invoices)[i], view))
      ensures r.Ok? ==> r.value == old(invoices)[q.id].(status := Paid, referenceId := Some("SPLIT_PAY_" + i))
      ensures r.Ok? ==> invoices == old(invoices)[q.id := r.value] && Covered(journal, old(invoices)[i], view)
      ensures r.Ok? ==> journal == if old(invoices)[i].partnered then BookedAll(old(journal), old(invoices)[i], view)
                                   else old(journal)
    {
      ghost var s0 := Idle();
      var inv := invoices[i];
      ghost var att := Attempt(q.id, i, view, Required(inv, view), 0);
      trace := Started(q, i, view);
      if inv.partnered {
        var ok;
        ok, trace := SendLegs(s0, trace, att, inv, view, replies);
        if !ok { return Err(TransferFailed), trace; }
        att := att.(next := |att.legs|);
      }
      LegsCovered(s0, trace, att, inv);
      ghost var step := Finish(0, replies.updated);
      RunsSnoc(s0, trace, step);
      assert Exec(s0, trace).attempts - {0} == map[];
      trace := trace + [step];
      if !replies.updated || q.id !in invoices { return Err(UpdateFailed), trace; }
      invoices := invoices[q.id := MarkPaid(invoices[q.id], i)];
      r := Ok(invoices[q.id]);
    }

    lemma LegsCovered(s0: State, trace: seq<Step>, att: Attempt, inv: Invoice)
      requires At(s0, trace, att) && s0.attempts == map[] && att.next == |att.legs|
      requires att.invoice in invoices && invoices[att.invoice] == inv && att.legs == Required(inv, att.view)
      ensures Covered(journal, inv, att.view)
    {
      RunKeepsBacked(s0, trace);
      assert Backed(journal, Exec(s0, trace).attempts[0]);
    }

    lemma Started(q: Query, i: Id, view: View) returns (trace: seq<Step>)
      requires Wellformed(Idle()) && Enabled(Idle(), Begin(0, q, i, view))
      ensures At(Idle(), trace, Attempt(q.id, i, view, Required(invoices[i], view), 0))
    {
      trace := [] + [Begin(0, q, i, view)];
      RunsSnoc(Idle(), [], Begin(0, q, i, view));
    }
  }
}
