/**
 The admin dashboard's charts (admin-dashboard.controller.ts): transactions are
 counted into labelled bins, and the balance and revenue trends are rebuilt
 backwards from the current total. A record's bin label is given; money is in
 integer satang.
 */
module Dashboard {
  import opened Basics

  type Label = string

  datatype Transaction = Transaction(bin: Label, kind: string, amount: int)

  /** What a record adds to its bin. */
  datatype Entry = Entry(bin: Label, change: int)

  /** A chart point; hours that have not come yet have no value. */
  datatype Point = Point(time: Label, value: Option<int>)

  predicate Distinct<T(==)>(xs: seq<T>) {
    forall i, j :: 0 <= i < j < |xs| ==> xs[i] != xs[j]
  }

  function Max0(x: int): int {
    if x < 0 then 0 else x
  }

  // ---- Net change per bin ----

  /**
   A transaction's effect on the system balance; the entries of the revenue account are
   credits and add their amount.
   */
  function BalanceEntry(tx: Transaction): Entry {
    Entry(tx.bin,
          if tx.kind == "TOPUP" || tx.kind == "TRANSFER" then tx.amount
          else if tx.kind == "WITHDRAWAL" then -tx.amount
          else 0)
  }

  /** The sum of the effects of the entries labelled with one of `labels`. */
  function NetIn(entries: seq<Entry>, labels: set<Label>): int {
    if entries == [] then 0
    else
      var last := entries[|entries| - 1];
      NetIn(entries[..|entries| - 1], labels) + if last.bin in labels then last.change else 0
  }

  lemma {:induction false} NetInUnion(entries: seq<Entry>, a: set<Label>, b: set<Label>)
    requires a !! b
    ensures NetIn(entries, a + b) == NetIn(entries, a) + NetIn(entries, b)
  {
    if entries != [] {
      NetInUnion(entries[..|entries| - 1], a, b);
    }
  }

  lemma {:induction false} NetInNone(entries: seq<Entry>)
    ensures NetIn(entries, {}) == 0
  {
    if entries != [] {
      NetInNone(entries[..|entries| - 1]);
    }
  }

  lemma {:induction false} NetInNonNegative(entries: seq<Entry>, labels: set<Label>)
    requires forall k :: 0 <= k < |entries| ==> entries[k].change >= 0
    ensures NetIn(entries, labels) >= 0
  {
    if entries != [] {
      NetInNonNegative(entries[..|entries| - 1], labels);
    }
  }

  function ToSet(labels: seq<Label>): set<Label> {
    set l | l in labels
  }

  method NetChanges(entries: seq<Entry>, labels: seq<Label>) returns (net: map<Label, int>)
    ensures net.Keys == ToSet(labels)
    ensures forall l :: l in net ==> net[l] == NetIn(entries, {l})
  {
    net := map l | l in labels :: 0;
    for i := 0 to |entries|
      invariant net.Keys == ToSet(labels)
      invariant forall l :: l in net ==> net[l] == NetIn(entries[..i], {l})
    {
      var e := entries[i];
      assert entries[..i + 1][..i] == entries[..i];
      if e.bin in net {
        net := net[e.bin := net[e.bin] + e.change];
      }
    }
    assert entries[..|entries|] == entries;
  }

  // ---- Backward reconstruction ----

  /** The value the trend shows at bin `i`: the final total less everything that happened in later bins. */
  function ValueAt(entries: seq<Entry>, labels: seq<Label>, total: int, i: nat): int
    requires i < |labels|
  {
    total - NetIn(entries, ToSet(labels[i + 1..]))
  }

  predicate IsTrend(entries: seq<Entry>, labels: seq<Label>, total: int, hidden: seq<bool>, points: seq<Point>) {
    && |points| == |labels| == |hidden|
    && forall i :: 0 <= i < |labels| ==>
         points[i] == Point(labels[i], if hidden[i] then None else Some(Max0(ValueAt(entries, labels, total, i))))
  }

  lemma NextBinBack(entries: seq<Entry>, labels: seq<Label>, i: nat)
    requires Distinct(labels) && i < |labels|
    ensures NetIn(entries, ToSet(labels[i..])) == NetIn(entries, {labels[i]}) + NetIn(entries, ToSet(labels[i + 1..]))
  {
    assert labels[i..] == [labels[i]] + labels[i + 1..];
    assert ToSet(labels[i..]) == {labels[i]} + ToSet(labels[i + 1..]);
    NetInUnion(entries, {labels[i]}, ToSet(labels[i + 1..]));
  }

  /** The backward loop rebuilds every bin's value from the final total. */
  method Trend(entries: seq<Entry>, labels: seq<Label>, total: int, hidden: seq<bool>) returns (points: seq<Point>)
    requires Distinct(labels) && |hidden| == |labels|
    ensures IsTrend(entries, labels, total, hidden, points)
  {
    var net := NetChanges(entries, labels);
    points := [];
    var current := total;
    NetInNone(entries);
    assert ToSet(labels[|labels|..]) == {};
    for i := |labels| downto 0
      invariant current == total - NetIn(entries, ToSet(labels[i..]))
      invariant |points| == |labels| - i
      invariant forall j :: i <= j < |labels| ==>
        points[j - i] == Point(labels[j], if hidden[j] then None else Some(Max0(ValueAt(entries, labels, total, j))))
    {
      var time := labels[i];
      points := [Point(time, if hidden[i] then None else Some(Max0(current)))] + points;
      NextBinBack(entries, labels, i);
      current := current - net[time];
    }
  }

  function BalanceEntries(txs: seq<Transaction>): seq<Entry> {
    seq(|txs|, k requires 0 <= k < |txs| => BalanceEntry(txs[k]))
  }

  /** The balance trend is the trend of the transactions' effects: top-ups and transfers in, withdrawals out. */
  method BalanceTrend(txs: seq<Transaction>, labels: seq<Label>, total: int, hidden: seq<bool>)
    returns (points: seq<Point>)
    requires Distinct(labels) && |hidden| == |labels|
    ensures IsTrend(BalanceEntries(txs), labels, total, hidden, points)
  {
    points := Trend(BalanceEntries(txs), labels, total, hidden);
  }

  /** What transactions of one kind move in one bin. */
  function AmountIn(txs: seq<Transaction>, bin: Label, kind: string): int {
    if txs == [] then 0
    else
      var last := txs[|txs| - 1];
      AmountIn(txs[..|txs| - 1], bin, kind) + if last.bin == bin && last.kind == kind then last.amount else 0
  }

  /** The balance changes in a bin by its top-ups and transfers less its withdrawals; other kinds do not count. */
  lemma {:induction false} BalanceByKind(txs: seq<Transaction>, bin: Label)
    ensures NetIn(BalanceEntries(txs), {bin})
            == AmountIn(txs, bin, "TOPUP") + AmountIn(txs, bin, "TRANSFER") - AmountIn(txs, bin, "WITHDRAWAL")
  {
    if txs != [] {
      var n := |txs| - 1;
      BalanceByKind(txs[..n], bin);
      assert BalanceEntries(txs)[..n] == BalanceEntries(txs[..n]);
      KindsDiffer();
    }
  }

  lemma KindsDiffer()
    ensures "TOPUP" != "TRANSFER" && "TOPUP" != "WITHDRAWAL" && "TRANSFER" != "WITHDRAWAL"
  {
    assert |"TOPUP"| == 5 && |"TRANSFER"| == 8 && |"WITHDRAWAL"| == 10;
  }

  /**
   The newest bin shows the total, the one before it the total less what the newest bin
   changed; nothing is below zero.
   */
  lemma TrendEnds(entries: seq<Entry>, labels: seq<Label>, total: int, hidden: seq<bool>, points: seq<Point>)
    requires Distinct(labels) && IsTrend(entries, labels, total, hidden, points) && |labels| >= 2
    ensures var n := |labels|;
            && (points[n - 1].value.Some? ==> points[n - 1].value.value == if total < 0 then 0 else total)
            && (points[n - 2].value.Some? ==>
                  var before := total - NetIn(entries, {labels[n - 1]});
                  points[n - 2].value.value == if before < 0 then 0 else before)
    ensures forall i :: 0 <= i < |points| ==>
              points[i].time == labels[i] && (points[i].value.None? <==> hidden[i])
              && (points[i].value.Some? ==> points[i].value.value >= 0)
  {
    var n := |labels|;
    NetInNone(entries);
    assert ToSet(labels[n..]) == {};
    assert labels[n - 1..] == [labels[n - 1]];
    assert ToSet(labels[n - 1..]) == {labels[n - 1]};
  }

  /** With no outflow, as for the credits of the revenue account, the shown trend never falls. */
  lemma TrendNeverFalls(entries: seq<Entry>, labels: seq<Label>, total: int, hidden: seq<bool>, points: seq<Point>,
                        i: nat, j: nat)
    requires Distinct(labels) && IsTrend(entries, labels, total, hidden, points)
    requires forall k :: 0 <= k < |entries| ==> entries[k].change >= 0
    requires i < j < |points| && points[i].value.Some? && points[j].value.Some?
    ensures points[i].value.value <= points[j].value.value
  {
    var between, later := ToSet(labels[i + 1..j + 1]), ToSet(labels[j + 1..]);
    assert labels[i + 1..] == labels[i + 1..j + 1] + labels[j + 1..];
    assert ToSet(labels[i + 1..]) == between + later;
    NetInUnion(entries, between, later);
    NetInNonNegative(entries, between);
  }

  /**
   The shown values are consistent: two bins differ by exactly what happened between
   them, before clamping at zero.
   */
  lemma TrendDifference(entries: seq<Entry>, labels: seq<Label>, total: int, i: nat, j: nat)
    requires Distinct(labels) && i < j < |labels|
    ensures ValueAt(entries, labels, total, j) - ValueAt(entries, labels, total, i)
            == NetIn(entries, ToSet(labels[i + 1..j + 1]))
  {
    assert labels[i + 1..] == labels[i + 1..j + 1] + labels[j + 1..];
    assert ToSet(labels[i + 1..]) == ToSet(labels[i + 1..j + 1]) + ToSet(labels[j + 1..]);
    NetInUnion(entries, ToSet(labels[i + 1..j + 1]), ToSet(labels[j + 1..]));
  }

  // ---- Counting ----

  function Count<T(==)>(xs: seq<T>, x: T): nat {
    if xs == [] then 0 else Count(xs[..|xs| - 1], x) + if xs[|xs| - 1] == x then 1 else 0
  }

  function Sum(xs: seq<int>): int {
    if xs == [] then 0 else Sum(xs[..|xs| - 1]) + xs[|xs| - 1]
  }

  lemma {:induction false} SumUpdate(xs: seq<int>, i: nat, d: int)
    requires i < |xs|
    ensures Sum(xs[i := xs[i] + d]) == Sum(xs) + d
  {
    var init := xs[..|xs| - 1];
    if i == |xs| - 1 {
      assert xs[i := xs[i] + d][..|xs| - 1] == init;
    } else {
      SumUpdate(init, i, d);
      assert xs[i := xs[i] + d][..|xs| - 1] == init[i := init[i] + d];
    }
  }

  lemma {:induction false} SumZeros(n: nat)
    ensures Sum(seq(n, _ => 0)) == 0
  {
    if n > 0 {
      SumZeros(n - 1);
      var zeros: seq<int> := seq(n, _ => 0);
      assert zeros[..n - 1] == seq(n - 1, _ => 0);
    }
  }

  /** The years shown: from the first to the last that occur, or three years when only one does. */
  method YearSpan(years: seq<int>, thisYear: int) returns (minYear: int, maxYear: int)
    ensures minYear < maxYear && forall y :: y in years ==> minYear <= y <= maxYear
    ensures maxYear in years || (years == [] && maxYear == thisYear)
    ensures minYear in years || minYear == maxYear - 2
  {
    minYear, maxYear := thisYear, thisYear;
    if |years| > 0 {
      minYear, maxYear := years[0], years[0];
      for i := 0 to |years|
        invariant minYear in years && maxYear in years && minYear <= maxYear
        invariant forall k :: 0 <= k < i ==> minYear <= years[k] <= maxYear
      {
        if years[i] < minYear { minYear := years[i]; }
        if years[i] > maxYear { maxYear := years[i]; }
      }
    }
    if minYear == maxYear {
      minYear := minYear - 2;
    }
  }

  /** A transaction of the volume chart: its year and its fee. */
  datatype Sale = Sale(year: int, fee: int)

  function Years(sales: seq<Sale>): seq<int> {
    seq(|sales|, k requires 0 <= k < |sales| => sales[k].year)
  }

  function Fees(sales: seq<Sale>): seq<int> {
    seq(|sales|, k requires 0 <= k < |sales| => sales[k].fee)
  }

  function FeesIn(sales: seq<Sale>, year: int): int {
    if sales == [] then 0
    else FeesIn(sales[..|sales| - 1], year) + if sales[|sales| - 1].year == year then sales[|sales| - 1].fee else 0
  }

  /** The bins hold what the first `n` transactions add to each year. */
  predicate Binned(sales: seq<Sale>, n: nat, first: int, volumes: seq<int>, revenues: seq<int>)
    requires n <= |sales|
  {
    && |volumes| == |revenues|
    && Sum(volumes) == n && Sum(revenues) == Sum(Fees(sales)[..n])
    && forall k :: 0 <= k < |volumes| ==>
         volumes[k] == Count(Years(sales)[..n], first + k) && revenues[k] == FeesIn(sales[..n], first + k)
  }

  lemma BinnedNext(sales: seq<Sale>, n: nat, first: int, volumes: seq<int>, revenues: seq<int>, k: nat)
    requires n < |sales| && Binned(sales, n, first, volumes, revenues)
    requires k < |volumes| && sales[n].year == first + k
    ensures Binned(sales, n + 1, first, volumes[k := volumes[k] + 1], revenues[k := revenues[k] + sales[n].fee])
  {
    SumUpdate(volumes, k, 1);
    SumUpdate(revenues, k, sales[n].fee);
    assert Years(sales)[..n + 1][..n] == Years(sales)[..n];
    assert Fees(sales)[..n + 1][..n] == Fees(sales)[..n];
    assert sales[..n + 1][..n] == sales[..n];
  }

  lemma BinnedAll(sales: seq<Sale>, first: int, volumes: seq<int>, revenues: seq<int>)
    requires Binned(sales, |sales|, first, volumes, revenues)
    ensures Sum(volumes) == |sales| && Sum(revenues) == Sum(Fees(sales))
    ensures forall k :: 0 <= k < |volumes| ==>
              volumes[k] == Count(Years(sales), first + k) && revenues[k] == FeesIn(sales, first + k)
  {
    assert Years(sales)[..|sales|] == Years(sales) && Fees(sales)[..|sales|] == Fees(sales);
    assert sales[..|sales|] == sales;
  }

  /**
   All-time volume: every transaction adds one and its fee to the bin of its year, so
   none is lost or counted twice.
   */
  method AllTimeVolume(sales: seq<Sale>, thisYear: int) returns (first: int, volumes: seq<int>, revenues: seq<int>)
    ensures |revenues| == |volumes| && Sum(volumes) == |sales| && Sum(revenues) == Sum(Fees(sales))
    ensures forall k :: 0 <= k < |volumes| ==>
              volumes[k] == Count(Years(sales), first + k) && revenues[k] == FeesIn(sales, first + k)
    ensures forall k :: 0 <= k < |sales| ==> first <= sales[k].year < first + |volumes|
    ensures sales == [] ==> first == thisYear - 2 && |volumes| == 3
  {
    var last;
    first, last := YearSpan(Years(sales), thisYear);
    forall k | 0 <= k < |sales| ensures first <= sales[k].year <= last {
      assert Years(sales)[k] in Years(sales);
    }
    var bins := last - first + 1;
    volumes, revenues := seq(bins, _ => 0), seq(bins, _ => 0);
    SumZeros(bins);
    for i := 0 to |sales|
      invariant |volumes| == bins && Binned(sales, i, first, volumes, revenues)
    {
      var k := sales[i].year - first;
      BinnedNext(sales, i, first, volumes, revenues, k);
      volumes, revenues := volumes[k := volumes[k] + 1], revenues[k := revenues[k] + sales[i].fee];
    }
    BinnedAll(sales, first, volumes, revenues);
  }

  // ---- Distribution ----

  datatype Category = P2pTransfer | Payment | TopUp | Withdrawal | Other

  function CategoryOf(kind: string): Category {
    if kind == "TRANSFER" || kind == "P2P_TRANSFER" then P2pTransfer
    else if kind == "PAYMENT" then Payment
    else if kind == "TOPUP" then TopUp
    else if kind == "WITHDRAWAL" then Withdrawal
    else Other
  }

  function Categories(kinds: seq<string>): (cs: seq<Category>)
    ensures |cs| == |kinds| && forall i :: 0 <= i < |kinds| ==> cs[i] == CategoryOf(kinds[i])
  {
    seq(|kinds|, i requires 0 <= i < |kinds| => CategoryOf(kinds[i]))
  }

  datatype Slice = Slice(name: Category, value: nat)

  function Total(slices: seq<Slice>): nat {
    if slices == [] then 0 else Total(slices[..|slices| - 1]) + slices[|slices| - 1].value
  }

  type Counts = map<Category, nat>

  predicate Counted(counts: Counts, cs: seq<Category>) {
    forall c :: c in counts && counts[c] == Count(cs, c)
  }

  function CountsTotal(counts: Counts): nat
    requires forall c :: c in counts
  {
    counts[P2pTransfer] + counts[Payment] + counts[TopUp] + counts[Withdrawal] + counts[Other]
  }

  lemma CountedNext(counts: Counts, cs: seq<Category>, c: Category)
    requires Counted(counts, cs)
    ensures Counted(counts[c := counts[c] + 1], cs + [c])
    ensures CountsTotal(counts[c := counts[c] + 1]) == CountsTotal(counts) + 1
  {
    assert (cs + [c])[..|cs|] == cs;
  }

  method CountKinds(kinds: seq<string>) returns (counts: Counts)
    ensures Counted(counts, Categories(kinds)) && CountsTotal(counts) == |kinds|
  {
    ghost var cs := Categories(kinds);
    counts := map[P2pTransfer := 0, Payment := 0, TopUp := 0, Withdrawal := 0, Other := 0];
    assert cs[..0] == [];
    forall c ensures c in counts && counts[c] == 0 {
      match c case P2pTransfer => case Payment => case TopUp => case Withdrawal => case Other =>
    }
    for i := 0 to |kinds|
      invariant Counted(counts, cs[..i]) && CountsTotal(counts) == i
    {
      var mapped := CategoryOf(kinds[i]);
      CountedNext(counts, cs[..i], mapped);
      assert cs[..i + 1] == cs[..i] + [mapped];
      counts := counts[mapped := counts[mapped] + 1];
    }
    assert cs[..|kinds|] == cs;
  }

  lemma {:induction false} CountsByKind(kinds: seq<string>)
    ensures var cs := Categories(kinds);
            && Count(cs, P2pTransfer) == Count(kinds, "TRANSFER") + Count(kinds, "P2P_TRANSFER")
            && Count(cs, Payment) == Count(kinds, "PAYMENT")
            && Count(cs, TopUp) == Count(kinds, "TOPUP")
            && Count(cs, Withdrawal) == Count(kinds, "WITHDRAWAL")
            && Count(cs, Other) == |kinds| - Count(cs, P2pTransfer) - Count(cs, Payment) - Count(cs, TopUp)
                                   - Count(cs, Withdrawal)
  {
    if kinds != [] {
      var n := |kinds| - 1;
      CountsByKind(kinds[..n]);
      assert Categories(kinds)[..n] == Categories(kinds[..n]);
      NamesDiffer();
    }
  }

  lemma NamesDiffer()
    ensures var names := ["TRANSFER", "P2P_TRANSFER", "PAYMENT", "TOPUP", "WITHDRAWAL"];
            forall j, k :: 0 <= j < k < |names| ==> names[j] != names[k]
  {
    assert |"TRANSFER"| == 8 && |"P2P_TRANSFER"| == 12 && |"PAYMENT"| == 7 && |"TOPUP"| == 5 && |"WITHDRAWAL"| == 10;
  }

  /** The four named slices, and Other when it is not empty. */
  function Shown(counts: Counts): seq<Slice>
    requires forall c :: c in counts
  {
    [Slice(P2pTransfer, counts[P2pTransfer]), Slice(Payment, counts[Payment]),
     Slice(TopUp, counts[TopUp]), Slice(Withdrawal, counts[Withdrawal])]
    + if counts[Other] > 0 then [Slice(Other, counts[Other])] else []
  }

  lemma ShownTotal(counts: Counts)
    requires forall c :: c in counts
    ensures Total(Shown(counts)) == CountsTotal(counts)
  {
    var s := Shown(counts);
    TotalOfFour(s[..4]);
    assert counts[Other] == 0 ==> s[..4] == s;
  }

  lemma ShownNames(counts: Counts, c: Category) returns (k: nat)
    requires (forall d :: d in counts) && counts[c] > 0
    ensures k < |Shown(counts)| && Shown(counts)[k].name == c
  {
    k := match c case P2pTransfer => 0 case Payment => 1 case TopUp => 2 case Withdrawal => 3 case Other => 4;
  }

  /** The slices add up to the number of transactions, and dropping an empty Other slice loses nothing. */
  method Distribution(kinds: seq<string>) returns (slices: seq<Slice>)
    ensures Total(slices) == |kinds|
    ensures forall k :: 0 <= k < |slices| ==> slices[k].value == Count(Categories(kinds), slices[k].name)
    ensures forall c :: Count(Categories(kinds), c) > 0 ==> exists k :: 0 <= k < |slices| && slices[k].name == c
  {
    var counts := CountKinds(kinds);
    slices := Shown(counts);
    ShownTotal(counts);
    forall c | Count(Categories(kinds), c) > 0 ensures exists k :: 0 <= k < |slices| && slices[k].name == c {
      var k := ShownNames(counts, c);
    }
  }

  lemma TotalOfFour(s: seq<Slice>)
    requires |s| == 4
    ensures Total(s) == s[0].value + s[1].value + s[2].value + s[3].value
  {
    assert s[..3][..2] == s[..2] && s[..2][..1] == s[..1] && s[..1][..0] == [];
    assert Total(s[..1]) == s[0].value;
    assert Total(s[..2]) == s[0].value + s[1].value;
    assert Total(s[..3]) == s[0].value + s[1].value + s[2].value;
  }
}
