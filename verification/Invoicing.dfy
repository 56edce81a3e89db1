/**
 The amounts of an invoice (billing.service.ts, createInvoice). Money is in
 integer satang and rates are reals. `toFixed(2)` is any function that rounds
 to a nearest integer, so every result here holds however ties are broken.
 */
module Invoicing {
  import opened Basics

  datatype Item = Item(unitPrice: int, quantity: int)

  /** The system settings read from the finance service; the minimum is in baht. */
  datatype Settings = Settings(vatRate: Option<real>, minMerchantPayment: Option<real>)

  /** `dto.partnerId` and what looking the partner up returned. */
  datatype Partner = NoPartner | UnknownPartner | KnownPartner(feeRate: real)

  /** The amounts stored with an invoice. */
  datatype Amounts = Amounts(subtotal: int, tax: int, total: int, fee: Option<int>, feeTax: Option<int>)

  datatype Rejection = BelowMinimum

  ghost predicate Nearest(round: real -> int) {
    forall x: real :: -0.5 <= round(x) as real - x <= 0.5
  }

  /** A rate applied to an amount of satang, rounded to whole satang. */
  function Portion(round: real -> int, amount: int, rate: real): int {
    round(amount as real * rate)
  }

  lemma PortionNear(round: real -> int, amount: int, rate: real)
    requires Nearest(round)
    ensures -0.5 <= Portion(round, amount, rate) as real - amount as real * rate <= 0.5
  {
    var x := amount as real * rate;
    assert -0.5 <= round(x) as real - x <= 0.5;
  }

  /** A JavaScript `setting || fallback` on a numeric setting: zero is falsy. */
  function Setting(value: Option<real>, fallback: real): real {
    if value.Some? && value.value != 0.0 then value.value else fallback
  }

  function VatRate(settings: Settings, partner: Partner): real {
    if partner.NoPartner? then 0.0 else Setting(settings.vatRate, 0.07)
  }

  function Subtotal(items: seq<Item>): int {
    if items == [] then 0
    else Subtotal(items[..|items| - 1]) + items[|items| - 1].unitPrice * items[|items| - 1].quantity
  }

  function CreateAmounts(items: seq<Item>, partner: Partner, settings: Settings, round: real -> int)
    : Result<Amounts, Rejection>
  {
    var vatRate := VatRate(settings, partner);
    var minAmount := Setting(settings.minMerchantPayment, 5.0) * 100.0;
    var subtotal := Subtotal(items);
    var tax := if partner.NoPartner? then 0 else Portion(round, subtotal, vatRate);
    var total := subtotal + tax;
    if !partner.NoPartner? && (total as real) < minAmount then Err(BelowMinimum)
    else if partner.KnownPartner? then
      var fee := Portion(round, total, partner.feeRate);
      var feeTax := Portion(round, fee, vatRate);
      Ok(Amounts(subtotal, tax, total, Some(fee), Some(feeTax)))
    else Ok(Amounts(subtotal, tax, total, None, None))
  }

  // ---- What the subtotal is: these laws leave only one function ----

  lemma {:induction false} SubtotalConcat(xs: seq<Item>, ys: seq<Item>)
    ensures Subtotal(xs + ys) == Subtotal(xs) + Subtotal(ys)
  {
    if ys == [] {
      assert xs + ys == xs;
    } else {
      SubtotalConcat(xs, ys[..|ys| - 1]);
      assert (xs + ys)[..|xs + ys| - 1] == xs + ys[..|ys| - 1];
    }
  }

  /** One piece costs its price, and a line can be split by quantity. */
  lemma SubtotalByPiece(price: int, q1: int, q2: int)
    ensures Subtotal([Item(price, 1)]) == price
    ensures Subtotal([Item(price, q1 + q2)]) == Subtotal([Item(price, q1), Item(price, q2)])
  {
    var two := [Item(price, q1), Item(price, q2)];
    assert two[..1] == [Item(price, q1)] && [Item(price, q1)][..0] == [];
    assert price * (q1 + q2) == price * q1 + price * q2;
  }

  /** `items.reduce((sum, item) => sum + item.unitPrice * item.quantity, 0)` */
  method SumItems(items: seq<Item>) returns (sum: int)
    ensures sum == Subtotal(items)
  {
    sum := 0;
    for i := 0 to |items|
      invariant sum + Subtotal(items[i..]) == Subtotal(items)
    {
      var item := items[i];
      assert items[i..] == [item] + items[i + 1..];
      SubtotalConcat([item], items[i + 1..]);
      assert [item][..0] == [];
      sum := sum + item.unitPrice * item.quantity;
    }
  }

  /** Who pays VAT and a fee, and when an invoice is rejected. */
  lemma AmountsByPartner(items: seq<Item>, settings: Settings, feeRate: real, round: real -> int)
    ensures CreateAmounts(items, NoPartner, settings, round)
            == Ok(Amounts(Subtotal(items), 0, Subtotal(items), None, None))
    ensures var r, r' := CreateAmounts(items, UnknownPartner, settings, round),
                         CreateAmounts(items, KnownPartner(feeRate), settings, round);
            && (r.Ok? <==> r'.Ok?)
            && (r.Ok? ==> && r.value == r'.value.(fee := None, feeTax := None)
                          && r'.value.fee.Some? && r'.value.feeTax.Some?)
  {
  }

  /**
   With VAT and minimum missing or zero, they are 7 % and 5.00; a partnered invoice
   passes exactly from the minimum on.
   */
  lemma AcceptedExactly(items: seq<Item>, partner: Partner, settings: Settings, round: real -> int)
    requires !partner.NoPartner?
    requires settings.minMerchantPayment in {None, Some(0.0)} && settings.vatRate in {None, Some(0.0)}
    ensures CreateAmounts(items, partner, settings, round).Ok?
            <==> Subtotal(items) + Portion(round, Subtotal(items), 0.07) >= 500
  {
  }

  /** Settings that are stated count as stated. */
  lemma AcceptedAsStated(items: seq<Item>, partner: Partner, vat: real, minimum: real, round: real -> int)
    requires !partner.NoPartner? && vat != 0.0 && minimum != 0.0
    ensures CreateAmounts(items, partner, Settings(Some(vat), Some(minimum)), round).Ok?
            <==> (Subtotal(items) + Portion(round, Subtotal(items), vat)) as real >= minimum * 100.0
  {
    var settings := Settings(Some(vat), Some(minimum));
    assert VatRate(settings, partner) == vat && Setting(settings.minMerchantPayment, 5.0) == minimum;
  }

  // ---- The four-way split (payInvoice) ----

  datatype Leg = Net | Vat | Fee | FeeVat

  function OrZero(amount: Option<int>): int {
    if amount.Some? then amount.value else 0
  }

  function LegAmount(a: Amounts, leg: Leg): int {
    match leg
    case Net => a.total - a.tax - OrZero(a.fee) - OrZero(a.feeTax)
    case Vat => a.tax
    case Fee => OrZero(a.fee)
    case FeeVat => OrZero(a.feeTax)
  }

  predicate NonNegativeItems(items: seq<Item>) {
    forall i :: 0 <= i < |items| ==> items[i].unitPrice >= 0 && items[i].quantity >= 0
  }

  predicate NonNegativeRates(partner: Partner, settings: Settings) {
    && (settings.vatRate.Some? ==> settings.vatRate.value >= 0.0)
    && (partner.KnownPartner? ==> partner.feeRate >= 0.0)
  }

  lemma {:induction false} SubtotalNonNegative(items: seq<Item>)
    requires NonNegativeItems(items)
    ensures Subtotal(items) >= 0
  {
    if items != [] {
      SubtotalNonNegative(items[..|items| - 1]);
    }
  }

  lemma PortionNonNegative(round: real -> int, amount: int, rate: real)
    requires Nearest(round) && amount >= 0 && rate >= 0.0
    ensures Portion(round, amount, rate) >= 0
  {
    PortionNear(round, amount, rate);
    assert amount as real * rate >= 0.0;
  }

  /** Non-negative prices and rates give three non-negative recorded legs; only the residual can be negative. */
  lemma RecordedLegsNonNegative(items: seq<Item>, partner: Partner, settings: Settings, round: real -> int)
    requires Nearest(round) && NonNegativeItems(items) && NonNegativeRates(partner, settings)
    requires CreateAmounts(items, partner, settings, round).Ok?
    ensures var a := CreateAmounts(items, partner, settings, round).value;
            forall leg :: leg != Net ==> LegAmount(a, leg) >= 0
  {
    var v := VatRate(settings, partner);
    SubtotalNonNegative(items);
    PortionNonNegative(round, Subtotal(items), v);
    var a := CreateAmounts(items, partner, settings, round).value;
    if partner.KnownPartner? {
      PortionNonNegative(round, a.total, partner.feeRate);
      PortionNonNegative(round, a.fee.value, v);
    }
  }

  lemma TotalNonNegative(items: seq<Item>, partner: Partner, settings: Settings, round: real -> int)
    requires Nearest(round) && NonNegativeItems(items) && NonNegativeRates(partner, settings)
    requires CreateAmounts(items, partner, settings, round).Ok?
    ensures CreateAmounts(items, partner, settings, round).value.total >= 0
  {
    SubtotalNonNegative(items);
    PortionNonNegative(round, Subtotal(items), VatRate(settings, partner));
  }

  // ---- The rounding bound on the merchant's residual ----

  lemma ScaledError(c: real, e: real)
    requires c >= 0.0 && -0.5 <= e <= 0.5
    ensures -(c * 0.5) <= c * e <= c * 0.5
  {
    assert c * (0.5 - e) >= 0.0;
    assert c * (0.5 + e) >= 0.0;
  }

  /** The residual as a polynomial in the three rounding errors. */
  lemma ResidualIdentity(s: real, v: real, f: real, t: real, total: real, fee: real, feeTax: real,
                         e1: real, e2: real, e3: real)
    requires t == s * v + e1
    requires total == s + t && fee == total * f + e2
    requires feeTax == fee * v + e3
    ensures s - fee - feeTax == s * (1.0 - f * (1.0 + v) * (1.0 + v)) - ((1.0 + v) * f) * e1 - (1.0 + v) * e2 - e3
  {
    var w := 1.0 + v;
    assert total == s * w + e1;
    assert total * f == s * (f * w) + f * e1;
    assert fee + feeTax == fee * w + e3;
    assert fee * w == (s * (f * w) + f * e1 + e2) * w;
    assert (s * (f * w) + f * e1 + e2) * w == s * (f * w * w) + (w * f) * e1 + w * e2 by {
      assert (s * (f * w)) * w == s * (f * w * w);
      assert (f * e1) * w == (w * f) * e1;
    }
  }

  /** The half-width of the interval the residual lies in. */
  function RoundingSlack(v: real, f: real): real {
    (1.0 + v) * (1.0 + f) * 0.5 + 0.5
  }

  function IdealNet(subtotal: real, v: real, f: real): real {
    subtotal * (1.0 - f * (1.0 + v) * (1.0 + v))
  }

  lemma SlackSplits(v: real, f: real)
    ensures RoundingSlack(v, f) == ((1.0 + v) * f) * 0.5 + (1.0 + v) * 0.5 + 0.5
  {
  }

  lemma SumOfErrors(slack: real, ideal: real, net: real, x1: real, h1: real, x2: real, h2: real, e3: real)
    requires -h1 <= x1 <= h1 && -h2 <= x2 <= h2 && -0.5 <= e3 <= 0.5
    requires slack == h1 + h2 + 0.5 && net == ideal - x1 - x2 - e3
    ensures ideal - slack <= net <= ideal + slack
  {
  }

  lemma ResidualBound(c1: real, c2: real, slack: real, ideal: real, e1: real, e2: real, e3: real)
    requires c1 >= 0.0 && c2 >= 0.0 && slack == c1 * 0.5 + c2 * 0.5 + 0.5
    requires -0.5 <= e1 <= 0.5 && -0.5 <= e2 <= 0.5 && -0.5 <= e3 <= 0.5
    ensures ideal - slack <= ideal - c1 * e1 - c2 * e2 - e3 <= ideal + slack
  {
    ScaledError(c1, e1);
    ScaledError(c2, e2);
    SumOfErrors(slack, ideal, ideal - c1 * e1 - c2 * e2 - e3, c1 * e1, c1 * 0.5, c2 * e2, c2 * 0.5, e3);
  }

  lemma CreatedAmountsShape(items: seq<Item>, partner: Partner, settings: Settings, round: real -> int)
    requires partner.KnownPartner? && CreateAmounts(items, partner, settings, round).Ok?
    ensures var a := CreateAmounts(items, partner, settings, round).value;
            && a.subtotal == Subtotal(items) && a.total == a.subtotal + a.tax && a.fee.Some? && a.feeTax.Some?
            && a.tax == Portion(round, a.subtotal, VatRate(settings, partner))
            && a.fee.value == Portion(round, a.total, partner.feeRate)
            && a.feeTax.value == Portion(round, a.fee.value, VatRate(settings, partner))
  {
  }

  lemma PortionError(round: real -> int, amount: int, rate: real) returns (e: real)
    requires Nearest(round)
    ensures -0.5 <= e <= 0.5 && Portion(round, amount, rate) as real == amount as real * rate + e
  {
    PortionNear(round, amount, rate);
    e := Portion(round, amount, rate) as real - amount as real * rate;
  }

  lemma ResidualFromErrors(s: real, v: real, f: real, t: real, total: real, fee: real, feeTax: real,
                           e1: real, e2: real, e3: real)
    requires v >= 0.0 && f >= 0.0
    requires -0.5 <= e1 <= 0.5 && -0.5 <= e2 <= 0.5 && -0.5 <= e3 <= 0.5
    requires t == s * v + e1
    requires total == s + t && fee == total * f + e2
    requires feeTax == fee * v + e3
    ensures IdealNet(s, v, f) - RoundingSlack(v, f) <= s - fee - feeTax <= IdealNet(s, v, f) + RoundingSlack(v, f)
  {
    ResidualIdentity(s, v, f, t, total, fee, feeTax, e1, e2, e3);
    SlackSplits(v, f);
    ResidualBound((1.0 + v) * f, 1.0 + v, RoundingSlack(v, f), IdealNet(s, v, f), e1, e2, e3);
  }

  lemma SplitResidual(round: real -> int, s: int, v: real, f: real, t: int, fee: int, feeTax: int)
    requires v >= 0.0 && f >= 0.0 && Nearest(round)
    requires t == Portion(round, s, v) && fee == Portion(round, s + t, f) && feeTax == Portion(round, fee, v)
    ensures var net := s as real - fee as real - feeTax as real;
            IdealNet(s as real, v, f) - RoundingSlack(v, f) <= net <= IdealNet(s as real, v, f) + RoundingSlack(v, f)
  {
    var e1 := PortionError(round, s, v);
    var e2 := PortionError(round, s + t, f);
    var e3 := PortionError(round, fee, v);
    ResidualFromErrors(s as real, v, f, t as real, (s + t) as real, fee as real, feeTax as real, e1, e2, e3);
  }

  /** Through the three chained roundings the merchant's residual stays within RoundingSlack of the unrounded one. */
  lemma NetRoundingBound(items: seq<Item>, partner: Partner, settings: Settings, round: real -> int)
    requires Nearest(round) && partner.KnownPartner? && NonNegativeRates(partner, settings)
    requires CreateAmounts(items, partner, settings, round).Ok?
    ensures var net := LegAmount(CreateAmounts(items, partner, settings, round).value, Net) as real;
            var v := VatRate(settings, partner);
            var ideal := IdealNet(Subtotal(items) as real, v, partner.feeRate);
            var slack := RoundingSlack(v, partner.feeRate);
            ideal - slack <= net <= ideal + slack
  {
    var a := CreateAmounts(items, partner, settings, round).value;
    CreatedAmountsShape(items, partner, settings, round);
    var v, f := VatRate(settings, partner), partner.feeRate;
    var s, t, fee, feeTax := a.subtotal, a.tax, a.fee.value, a.feeTax.value;
    SplitResidual(round, s, v, f, t, fee, feeTax);
  }

  predicate Within(x: real, ideal: real, slack: real) {
    ideal - slack <= x <= ideal + slack
  }

  /** A rate applied to an approximate amount, and rounded: the amount's error is scaled and a half added. */
  lemma PortionOfApproximate(round: real -> int, amount: int, ideal: real, slack: real, rate: real)
    requires Nearest(round) && Within(amount as real, ideal, slack) && rate >= 0.0
    ensures Within(Portion(round, amount, rate) as real, ideal * rate, slack * rate + 0.5)
  {
    var d := amount as real - ideal;
    assert rate * (slack - d) >= 0.0 && rate * (slack + d) >= 0.0;
    assert amount as real * rate == ideal * rate + d * rate;
    PortionNear(round, amount, rate);
  }

  /** The VAT and the total are near the unrounded ones. */
  predicate VatNear(tax: int, total: int, s: real, v: real) {
    Within(tax as real, s * v, 0.5) && Within(total as real, s + s * v, 0.5)
  }

  /** The fee is near the rate's share of the unrounded total. */
  predicate FeeNear(fee: int, gross: real, f: real) {
    Within(fee as real, gross * f, 0.5 * f + 0.5)
  }

  predicate FeeVatNear(feeTax: int, gross: real, f: real, v: real) {
    Within(feeTax as real, gross * f * v, (0.5 * f + 0.5) * v + 0.5)
  }

  lemma RecordedVatNear(round: real -> int, s: int, v: real)
    requires Nearest(round)
    ensures VatNear(Portion(round, s, v), s + Portion(round, s, v), s as real, v)
  {
    PortionNear(round, s, v);
  }

  lemma RecordedFeeNear(round: real -> int, total: int, gross: real, f: real)
    requires Nearest(round) && Within(total as real, gross, 0.5) && f >= 0.0
    ensures FeeNear(Portion(round, total, f), gross, f)
  {
    PortionOfApproximate(round, total, gross, 0.5, f);
  }

  lemma RecordedFeeVatNear(round: real -> int, fee: int, gross: real, f: real, v: real)
    requires Nearest(round) && FeeNear(fee, gross, f) && v >= 0.0
    ensures FeeVatNear(Portion(round, fee, v), gross, f, v)
  {
    PortionOfApproximate(round, fee, gross * f, 0.5 * f + 0.5, v);
  }

  /** What RecordedLegsNearIdeal says of the amounts, with `gross` the unrounded total. */
  predicate NearIdeal(a: Amounts, s: real, gross: real, v: real, f: real) {
    && a.fee.Some? && a.feeTax.Some?
    && VatNear(a.tax, a.total, s, v)
    && FeeNear(a.fee.value, gross, f)
    && FeeVatNear(a.feeTax.value, gross, f, v)
  }

  lemma ChainNear(round: real -> int, a: Amounts, gross: real, v: real, f: real)
    requires Nearest(round) && v >= 0.0 && f >= 0.0
    requires a.total == a.subtotal + a.tax && a.tax == Portion(round, a.subtotal, v)
    requires Within(a.total as real, gross, 0.5)
    requires a.fee == Some(Portion(round, a.total, f)) && a.feeTax == Some(Portion(round, a.fee.value, v))
    ensures NearIdeal(a, a.subtotal as real, gross, v, f)
  {
    RecordedVatNear(round, a.subtotal, v);
    RecordedFeeNear(round, a.total, gross, f);
    RecordedFeeVatNear(round, a.fee.value, gross, f, v);
  }

  function Gross(s: real, v: real): real {
    s + s * v
  }

  lemma SplitNear(round: real -> int, a: Amounts, v: real, f: real)
    requires Nearest(round) && v >= 0.0 && f >= 0.0
    requires a.total == a.subtotal + a.tax && a.tax == Portion(round, a.subtotal, v)
    requires a.fee == Some(Portion(round, a.total, f)) && a.feeTax == Some(Portion(round, a.fee.value, v))
    ensures NearIdeal(a, a.subtotal as real, Gross(a.subtotal as real, v), v, f)
  {
    var gross := Gross(a.subtotal as real, v);
    assert Within(a.total as real, gross, 0.5) by {
      RecordedVatNear(round, a.subtotal, v);
    }
    ChainNear(round, a, gross, v, f);
  }

  /** Through the three chained roundings no recorded amount drifts further than this from its unrounded value. */
  lemma RecordedLegsNearIdeal(items: seq<Item>, partner: Partner, settings: Settings, round: real -> int)
    requires Nearest(round) && partner.KnownPartner? && NonNegativeRates(partner, settings)
    requires CreateAmounts(items, partner, settings, round).Ok?
    ensures var s, v := Subtotal(items) as real, VatRate(settings, partner);
            NearIdeal(CreateAmounts(items, partner, settings, round).value, s, Gross(s, v), v, partner.feeRate)
  {
    CreatedAmountsShape(items, partner, settings, round);
    SplitNear(round, CreateAmounts(items, partner, settings, round).value, VatRate(settings, partner), partner.feeRate);
  }

  lemma IdealNetAtDefaults(s: int, f: real)
    requires s >= 467 && 0.0 <= f <= 0.03
    ensures IdealNet(s as real, 0.07, f) - RoundingSlack(0.07, f) > 0.0
  {
    var keep := 1.0 - f * 1.07 * 1.07;
    assert keep >= 0.96;
    assert (s as real - 467.0) * keep >= 0.0;
    assert s as real * keep >= 467.0 * keep;
  }

  /**
   With VAT at 7 %, a minimum of at least 5.00 and any fee rate up to 3 %, an accepted
   invoice has a positive net leg.
   */
  lemma NetPositiveAtDefaults(items: seq<Item>, settings: Settings, feeRate: real, round: real -> int)
    requires Nearest(round) && 0.0 <= feeRate <= 0.03
    requires VatRate(settings, KnownPartner(feeRate)) == 0.07 && Setting(settings.minMerchantPayment, 5.0) >= 5.0
    requires CreateAmounts(items, KnownPartner(feeRate), settings, round).Ok?
    ensures LegAmount(CreateAmounts(items, KnownPartner(feeRate), settings, round).value, Net) > 0
  {
    var s := Subtotal(items);
    NetRoundingBound(items, KnownPartner(feeRate), settings, round);
    PortionNear(round, s, 0.07);
    assert s >= 467;
    IdealNetAtDefaults(s, feeRate);
  }

  /** The residual is not positive for every fee rate: a partner charged the whole total is left owing the fee's VAT. */
  lemma NetCanBeNegative(round: real -> int)
    requires Nearest(round)
    ensures var r := CreateAmounts([Item(1000, 1)], KnownPartner(1.0), Settings(None, None), round);
            r.Ok? && LegAmount(r.value, Net) < 0
  {
    assert Subtotal([Item(1000, 1)]) == 1000;
    PortionNear(round, 1000, 0.07);
    PortionNear(round, 1070, 1.0);
    PortionNear(round, 1070, 0.07);
  }
}
