/**
 * Monthly buckets: every page that reports a trend groups records by the
 * `YYYY-MM` key of their time, sums income and expense per key, derives the
 * net, and sorts the buckets by key.
 */
module Monthly {
  import opened Wrappers
  import opened Seqs
  import opened Text
  import opened Ledger
  import opened Calendar

  /** One bucket of the monthly trend (the `MonthlyStats` interface). */
  datatype MonthlyStat = MonthlyStat(month: string, income: real, expense: real, net: real)

  function IncomeOf(s: MonthlyStat): real { s.income }
  function ExpenseOf(s: MonthlyStat): real { s.expense }
  function NetOf(s: MonthlyStat): real { s.net }

  /**
   * The bucket key of a record. A time that is not a real date is JavaScript's
   * Invalid Date, whose year and month print as `NaN`.
   */
  function RecordMonthKey(r: Record): string {
    if ValidTime(r.time) then MonthKeyOf(r.time) else "NaN-NaN"
  }

  /** The bucket for key `k`: income from the income records with that key, expense from the others. */
  function Bucket(rs: seq<Record>, k: string): MonthlyStat {
    var income := GroupSum(rs, RecordMonthKey, k, OfKind(Income), AmountOf);
    var expense := GroupSum(rs, RecordMonthKey, k, OfKind(Expense), AmountOf);
    MonthlyStat(k, income, expense, income - expense)
  }

  function Buckets(rs: seq<Record>, ks: seq<string>): (r: seq<MonthlyStat>)
    ensures |r| == |ks|
    ensures forall i :: 0 <= i < |ks| ==> r[i] == Bucket(rs, ks[i])
  {
    if ks == [] then [] else [Bucket(rs, ks[0])] + Buckets(rs, ks[1..])
  }

  /** Insert `x` before the first bucket whose key is not smaller. */
  function InsertByMonth(x: MonthlyStat, s: seq<MonthlyStat>): (r: seq<MonthlyStat>)
    ensures |r| == |s| + 1
    ensures forall i :: 0 <= i < |r| ==> r[i] == x || r[i] in s
    ensures x in r && forall i :: 0 <= i < |s| ==> s[i] in r
  {
    if s == [] || !LexLess(s[0].month, x.month) then [x] + s
    else [s[0]] + InsertByMonth(x, s[1..])
  }

  /** `sort((a, b) => a.month.localeCompare(b.month))`. */
  function SortByMonth(s: seq<MonthlyStat>): (r: seq<MonthlyStat>)
    ensures |r| == |s|
    ensures forall i :: 0 <= i < |r| ==> r[i] in s
    ensures forall i :: 0 <= i < |s| ==> s[i] in r
  {
    if s == [] then [] else InsertByMonth(s[0], SortByMonth(s[1..]))
  }

  /** The monthly trend of a list of records. */
  function MonthlyStats(rs: seq<Record>): seq<MonthlyStat> {
    SortByMonth(Buckets(rs, Keys(rs, RecordMonthKey)))
  }

  ghost predicate StrictlyAscending(s: seq<MonthlyStat>) {
    forall i, j :: 0 <= i < j < |s| ==> LexLess(s[i].month, s[j].month)
  }

  ghost predicate DistinctMonths(s: seq<MonthlyStat>) {
    forall i, j :: 0 <= i < j < |s| ==> s[i].month != s[j].month
  }

  lemma ConsAscending(y: MonthlyStat, t: seq<MonthlyStat>)
    requires StrictlyAscending(t)
    requires forall j :: 0 <= j < |t| ==> LexLess(y.month, t[j].month)
    ensures StrictlyAscending([y] + t)
  {
    var r := [y] + t;
    forall i, j | 0 <= i < j < |r| ensures LexLess(r[i].month, r[j].month) {
      assert r[j] == t[j - 1];
      if i > 0 {
        assert r[i] == t[i - 1];
      }
    }
  }

  lemma {:induction false} InsertByMonthSorted(x: MonthlyStat, s: seq<MonthlyStat>)
    requires StrictlyAscending(s)
    requires forall i :: 0 <= i < |s| ==> s[i].month != x.month
    ensures StrictlyAscending(InsertByMonth(x, s))
  {
    if s == [] || !LexLess(s[0].month, x.month) {
      if s != [] {
        LexLessTotal(x.month, s[0].month);
        forall j | 0 <= j < |s| ensures LexLess(x.month, s[j].month) {
          if j > 0 {
            LexLessTransitive(x.month, s[0].month, s[j].month);
          }
        }
      }
      ConsAscending(x, s);
    } else {
      var t := InsertByMonth(x, s[1..]);
      assert StrictlyAscending(s[1..]);
      InsertByMonthSorted(x, s[1..]);
      forall j | 0 <= j < |t| ensures LexLess(s[0].month, t[j].month) {
        if t[j] != x {
          var m :| 0 <= m < |s[1..]| && s[1..][m] == t[j];
          assert s[m + 1] == t[j];
        }
      }
      ConsAscending(s[0], t);
    }
  }

  lemma {:induction false} SortByMonthSorted(s: seq<MonthlyStat>)
    requires DistinctMonths(s)
    ensures StrictlyAscending(SortByMonth(s))
  {
    if s != [] {
      assert DistinctMonths(s[1..]);
      SortByMonthSorted(s[1..]);
      var t := SortByMonth(s[1..]);
      forall i | 0 <= i < |t| ensures t[i].month != s[0].month {
        var m :| 0 <= m < |s[1..]| && s[1..][m] == t[i];
        assert s[m + 1] == t[i];
      }
      InsertByMonthSorted(s[0], t);
    }
  }

  lemma AscendingTail(s: seq<MonthlyStat>)
    requires s != [] && StrictlyAscending(s)
    ensures StrictlyAscending(s[1..])
    ensures s[1..] == [] || LexLess(s[0].month, s[1..][0].month)
  {
    var t := s[1..];
    forall i, j | 0 <= i < j < |t| ensures LexLess(t[i].month, t[j].month) {
      assert t[i] == s[i + 1] && t[j] == s[j + 1];
    }
  }

  /** A bucket whose key is below the first key goes in front. */
  lemma InsertByMonthFront(x: MonthlyStat, t: seq<MonthlyStat>)
    requires t == [] || LexLess(x.month, t[0].month)
    ensures InsertByMonth(x, t) == [x] + t
  {
    if t != [] {
      LexLessAsymmetric(x.month, t[0].month);
    }
  }

  /** Sorting buckets that are already strictly ascending leaves them as they are. */
  lemma {:induction false} SortByMonthAscending(s: seq<MonthlyStat>)
    requires StrictlyAscending(s)
    ensures SortByMonth(s) == s
  {
    if s != [] {
      var t := s[1..];
      AscendingTail(s);
      SortByMonthAscending(t);
      assert SortByMonth(s) == InsertByMonth(s[0], t);
      InsertByMonthFront(s[0], t);
      assert [s[0]] + t == s;
    }
  }

  /** The trend is already in order: sorting it again changes nothing. */
  lemma MonthlyStatsSortIdempotent(rs: seq<Record>)
    ensures SortByMonth(MonthlyStats(rs)) == MonthlyStats(rs)
  {
    MonthlyStatsSorted(rs);
    SortByMonthAscending(MonthlyStats(rs));
  }

  /** When the records' months first appear in ascending order, the trend lists the buckets in that order. */
  lemma AscendingKeysTrend(rs: seq<Record>)
    requires forall i, j :: 0 <= i < j < |Keys(rs, RecordMonthKey)| ==> LexLess(Keys(rs, RecordMonthKey)[i], Keys(rs, RecordMonthKey)[j])
    ensures MonthlyStats(rs) == Buckets(rs, Keys(rs, RecordMonthKey))
  {
    var ks := Keys(rs, RecordMonthKey);
    var b := Buckets(rs, ks);
    assert StrictlyAscending(b) by {
      forall i, j | 0 <= i < j < |b| ensures LexLess(b[i].month, b[j].month) {
        assert b[i].month == ks[i] && b[j].month == ks[j];
      }
    }
    SortByMonthAscending(b);
  }

  lemma {:induction false} SumByInsertByMonth(x: MonthlyStat, s: seq<MonthlyStat>, f: MonthlyStat -> real)
    ensures SumBy(InsertByMonth(x, s), f) == f(x) + SumBy(s, f)
  {
    if s == [] || !LexLess(s[0].month, x.month) {
      assert ([x] + s)[0] == x && ([x] + s)[1..] == s;
    } else {
      SumByInsertByMonth(x, s[1..], f);
      var r := [s[0]] + InsertByMonth(x, s[1..]);
      assert r[0] == s[0] && r[1..] == InsertByMonth(x, s[1..]);
    }
  }

  lemma {:induction false} SumBySortByMonth(s: seq<MonthlyStat>, f: MonthlyStat -> real)
    ensures SumBy(SortByMonth(s), f) == SumBy(s, f)
  {
    if s != [] {
      SumBySortByMonth(s[1..], f);
      SumByInsertByMonth(s[0], SortByMonth(s[1..]), f);
    }
  }

  lemma {:induction false} SumIncomeBuckets(rs: seq<Record>, ks: seq<string>)
    ensures SumBy(Buckets(rs, ks), IncomeOf) == KeyedSum(rs, RecordMonthKey, ks, OfKind(Income), AmountOf)
    ensures SumBy(Buckets(rs, ks), ExpenseOf) == KeyedSum(rs, RecordMonthKey, ks, OfKind(Expense), AmountOf)
  {
    if ks != [] {
      SumIncomeBuckets(rs, ks[1..]);
      assert Buckets(rs, ks)[1..] == Buckets(rs, ks[1..]);
    }
  }

  /** The buckets come out strictly ascending by key: one bucket per key, in key order. */
  lemma MonthlyStatsSorted(rs: seq<Record>)
    ensures StrictlyAscending(MonthlyStats(rs))
  {
    var ks := Keys(rs, RecordMonthKey);
    var b := Buckets(rs, ks);
    assert DistinctMonths(b) by {
      forall i, j | 0 <= i < j < |b| ensures b[i].month != b[j].month {
        assert b[i].month == ks[i] && b[j].month == ks[j];
      }
    }
    SortByMonthSorted(b);
  }

  /**
   * Each bucket holds the sums of exactly the records with its key, its net is
   * income minus expense, and there is a bucket for a key exactly when some
   * record has that key: months without records never appear.
   */
  lemma MonthlyStatsBuckets(rs: seq<Record>)
    ensures forall e :: e in MonthlyStats(rs) ==> e == Bucket(rs, e.month) && e.net == e.income - e.expense
    ensures forall e :: e in MonthlyStats(rs) ==> exists i :: 0 <= i < |rs| && RecordMonthKey(rs[i]) == e.month
    ensures forall i :: 0 <= i < |rs| ==> Bucket(rs, RecordMonthKey(rs[i])) in MonthlyStats(rs)
  {
    var ks := Keys(rs, RecordMonthKey);
    var b := Buckets(rs, ks);
    var out := SortByMonth(b);
    forall e | e in out
      ensures e == Bucket(rs, e.month) && e.net == e.income - e.expense
      ensures exists i :: 0 <= i < |rs| && RecordMonthKey(rs[i]) == e.month
    {
      var n :| 0 <= n < |out| && out[n] == e;
      assert out[n] in b;
      var j :| 0 <= j < |b| && b[j] == e;
      assert e == Bucket(rs, ks[j]);
      KeysMembership(rs, RecordMonthKey, ks[j]);
      var i :| 0 <= i < |rs| && RecordMonthKey(rs[i]) == ks[j];
    }
    forall i | 0 <= i < |rs| ensures Bucket(rs, RecordMonthKey(rs[i])) in out {
      var k := RecordMonthKey(rs[i]);
      KeysMembership(rs, RecordMonthKey, k);
      var j :| 0 <= j < |ks| && ks[j] == k;
      assert b[j] == Bucket(rs, k);
    }
  }

  /**
   * Every record adds its amount to exactly one bucket: bucket incomes add up
   * to the total income, bucket expenses to the total expense, and both
   * together to the sum of all amounts.
   */
  lemma MonthlyStatsConserve(rs: seq<Record>)
    ensures SumBy(MonthlyStats(rs), IncomeOf) == SumKind(rs, Income)
    ensures SumBy(MonthlyStats(rs), ExpenseOf) == SumKind(rs, Expense)
    ensures SumBy(MonthlyStats(rs), IncomeOf) + SumBy(MonthlyStats(rs), ExpenseOf) == Total(rs)
    ensures SumBy(MonthlyStats(rs), NetOf) == SumKind(rs, Income) - SumKind(rs, Expense)
  {
    MonthlyStatsBuckets(rs);
    NetSum(MonthlyStats(rs));
    var ks := Keys(rs, RecordMonthKey);
    SumBySortByMonth(Buckets(rs, ks), IncomeOf);
    SumBySortByMonth(Buckets(rs, ks), ExpenseOf);
    SumIncomeBuckets(rs, ks);
    GroupsPartition(rs, RecordMonthKey, OfKind(Income), AmountOf);
    GroupsPartition(rs, RecordMonthKey, OfKind(Expense), AmountOf);
    KindsPartitionTotal(rs);
  }

  /** When every entry's net is its income minus its expense, so is the sum of the nets. */
  lemma {:induction false} NetSum(s: seq<MonthlyStat>)
    requires forall e :: e in s ==> e.net == e.income - e.expense
    ensures SumBy(s, NetOf) == SumBy(s, IncomeOf) - SumBy(s, ExpenseOf)
  {
    if s != [] {
      assert s[0] in s;
      NetSum(s[1..]);
    }
  }

  /** A bucket key of a real date is its four parts `YYYY-MM` and reads back as the record's year and month. */
  lemma RecordMonthKeyFormat(r: Record)
    requires ValidTime(r.time)
    ensures RecordMonthKey(r) == IntString(r.time.year) + "-" + Pad2(r.time.month)
    ensures ParseMonthKey(RecordMonthKey(r)) == Some(YearMonth(r.time.year, r.time.month))
  {
    MonthKeyRoundTrip(r.time.year, r.time.month);
  }

  // ---- The accumulator loops ----
  // The loop lemmas are stated for any key function; the loops use `RecordMonthKey`.

  /** Running income and expense of one month. */
  datatype Sums = Sums(income: real, expense: real)

  /** `stats.income += amount` or `stats.expense += amount`, by the record's kind. */
  function Credit(e: Sums, r: Record): Sums {
    if r.kind == Income then e.(income := e.income + r.totalAmount) else e.(expense := e.expense + r.totalAmount)
  }

  function IncomeSoFar(rs: seq<Record>, n: nat, key: Record -> string, k: string): real
    requires n <= |rs|
  {
    RunningSum(rs, n, key, k, OfKind(Income), AmountOf)
  }

  function ExpenseSoFar(rs: seq<Record>, n: nat, key: Record -> string, k: string): real
    requires n <= |rs|
  {
    RunningSum(rs, n, key, k, OfKind(Expense), AmountOf)
  }

  /** Every running entry holds the income and expense accumulated for its key over the first `n` records. */
  ghost predicate SumsMatch(rs: seq<Record>, n: nat, key: Record -> string, acc: map<string, Sums>)
    requires n <= |rs|
  {
    forall k :: k in acc ==> acc[k].income == IncomeSoFar(rs, n, key, k) && acc[k].expense == ExpenseSoFar(rs, n, key, k)
  }

  /** The state of the deferred-net loop after the first `n` records. */
  ghost predicate SumsTally(rs: seq<Record>, n: nat, key: Record -> string, order: seq<string>, acc: map<string, Sums>)
    requires n <= |rs|
  {
    && order == SeenKeys(rs, n, key)
    && (forall k :: k in acc <==> k in order)
    && SumsMatch(rs, n, key, acc)
  }

  /** Midway through turn `n` of the deferred-net loop: the key of `rs[n]` is open, nothing is credited yet. */
  ghost predicate SumsReady(rs: seq<Record>, n: nat, key: Record -> string, order: seq<string>, acc: map<string, Sums>)
    requires n < |rs|
  {
    && order == SeenKeys(rs, n + 1, key)
    && (forall k :: k in acc <==> k in order)
    && SumsMatch(rs, n, key, acc)
  }

  /** Opening the key of the next record (with zero sums, when it is new). */
  lemma SumsOpenStep(rs: seq<Record>, n: nat, key: Record -> string, order: seq<string>, acc: map<string, Sums>)
    requires n < |rs| && SumsTally(rs, n, key, order, acc)
    ensures key(rs[n]) in acc ==> SumsReady(rs, n, key, order, acc)
    ensures key(rs[n]) !in acc ==> SumsReady(rs, n, key, order + [key(rs[n])], acc[key(rs[n]) := Sums(0.0, 0.0)])
  {
    var k0 := key(rs[n]);
    if k0 !in acc {
      RunningSumUnseen(rs, n, key, k0, OfKind(Income), AmountOf);
      RunningSumUnseen(rs, n, key, k0, OfKind(Expense), AmountOf);
      var acc' := acc[k0 := Sums(0.0, 0.0)];
      forall k | k in acc' ensures acc'[k].income == IncomeSoFar(rs, n, key, k) && acc'[k].expense == ExpenseSoFar(rs, n, key, k) {
        if k != k0 {
          assert acc'[k] == acc[k];
        }
      }
      assert forall k :: k in acc' <==> k in order + [k0];
    }
  }

  /** Crediting the next record to its open key completes the turn. */
  lemma SumsCreditStep(rs: seq<Record>, n: nat, key: Record -> string, order: seq<string>, acc: map<string, Sums>)
    requires n < |rs| && SumsReady(rs, n, key, order, acc)
    ensures key(rs[n]) in acc
    ensures SumsTally(rs, n + 1, key, order, acc[key(rs[n]) := Credit(acc[key(rs[n])], rs[n])])
  {
    var x, k0 := rs[n], key(rs[n]);
    var acc' := acc[k0 := Credit(acc[k0], x)];
    forall k | k in acc'
      ensures acc'[k].income == IncomeSoFar(rs, n + 1, key, k) && acc'[k].expense == ExpenseSoFar(rs, n + 1, key, k)
    {
      assert IncomeSoFar(rs, n + 1, key, k) == IncomeSoFar(rs, n, key, k) + (if k0 == k && x.kind == Income then x.totalAmount else 0.0);
      assert ExpenseSoFar(rs, n + 1, key, k) == ExpenseSoFar(rs, n, key, k) + (if k0 == k && x.kind == Expense then x.totalAmount else 0.0);
      if k != k0 {
        assert acc'[k] == acc[k];
      }
    }
  }

  /** `Array.from(monthlyMap.entries()).map(...)`: the buckets in insertion order, net derived once. */
  function Finish(order: seq<string>, acc: map<string, Sums>): (r: seq<MonthlyStat>)
    requires forall k :: k in order ==> k in acc
    ensures |r| == |order|
  {
    if order == [] then []
    else
      var k := order[0];
      [MonthlyStat(k, acc[k].income, acc[k].expense, acc[k].income - acc[k].expense)] + Finish(order[1..], acc)
  }

  /** After the loop, a key's accumulated sums are its bucket. */
  lemma SumsAreBucket(rs: seq<Record>, acc: map<string, Sums>, k: string)
    requires k in acc && SumsMatch(rs, |rs|, RecordMonthKey, acc)
    ensures MonthlyStat(k, acc[k].income, acc[k].expense, acc[k].income - acc[k].expense) == Bucket(rs, k)
  {
    assert rs[..|rs|] == rs;
    RunningSumIsGroupSum(rs, |rs|, RecordMonthKey, k, OfKind(Income), AmountOf);
    RunningSumIsGroupSum(rs, |rs|, RecordMonthKey, k, OfKind(Expense), AmountOf);
  }

  lemma {:induction false} FinishIsBuckets(rs: seq<Record>, order: seq<string>, acc: map<string, Sums>)
    requires forall k :: k in order ==> k in acc
    requires SumsMatch(rs, |rs|, RecordMonthKey, acc)
    ensures Finish(order, acc) == Buckets(rs, order)
  {
    if order != [] {
      FinishIsBuckets(rs, order[1..], acc);
      var k := order[0];
      var b := Bucket(rs, k);
      SumsAreBucket(rs, acc, k);
      assert Finish(order, acc)[0] == b;
      assert Finish(order, acc) == [b] + Finish(order[1..], acc);
      assert Buckets(rs, order) == [b] + Buckets(rs, order[1..]);
    }
  }

  /**
   * The loop of `getMonthlyStats` (and of the first generation's report page):
   * a Map from key to running income and expense, filled in record order, the
   * net computed once per bucket at the end, the entries sorted by key.
   */
  method MonthlyStatsDeferredNet(rs: seq<Record>) returns (stats: seq<MonthlyStat>)
    ensures stats == MonthlyStats(rs)
  {
    var order: seq<string> := [];
    var acc: map<string, Sums> := map[];
    for i := 0 to |rs|
      invariant SumsTally(rs, i, RecordMonthKey, order, acc)
    {
      var r := rs[i];
      var key := RecordMonthKey(r);
      SumsOpenStep(rs, i, RecordMonthKey, order, acc);
      if key !in acc {
        acc := acc[key := Sums(0.0, 0.0)];
        order := order + [key];
      }
      SumsCreditStep(rs, i, RecordMonthKey, order, acc);
      acc := acc[key := Credit(acc[key], r)];
    }
    SeenKeysAreKeys(rs, |rs|, RecordMonthKey);
    assert rs[..|rs|] == rs;
    FinishIsBuckets(rs, order, acc);
    stats := SortByMonth(Finish(order, acc));
  }

  /** Every stored bucket carries its key, its accumulated income and expense, and their difference. */
  ghost predicate StatsMatch(rs: seq<Record>, n: nat, key: Record -> string, acc: map<string, MonthlyStat>)
    requires n <= |rs|
  {
    forall k :: k in acc ==>
      && acc[k].month == k
      && acc[k].income == IncomeSoFar(rs, n, key, k)
      && acc[k].expense == ExpenseSoFar(rs, n, key, k)
      && acc[k].net == acc[k].income - acc[k].expense
  }

  /** The state of the running-net loop after the first `n` records. */
  ghost predicate StatsTally(rs: seq<Record>, n: nat, key: Record -> string, order: seq<string>, acc: map<string, MonthlyStat>)
    requires n <= |rs|
  {
    && order == SeenKeys(rs, n, key)
    && (forall k :: k in acc <==> k in order)
    && StatsMatch(rs, n, key, acc)
  }

  ghost predicate StatsReady(rs: seq<Record>, n: nat, key: Record -> string, order: seq<string>, acc: map<string, MonthlyStat>)
    requires n < |rs|
  {
    && order == SeenKeys(rs, n + 1, key)
    && (forall k :: k in acc <==> k in order)
    && StatsMatch(rs, n, key, acc)
  }

  /** `if (!monthlyData[month]) monthlyData[month] = { month, income: 0, expense: 0, net: 0 }`. */
  lemma StatsOpenStep(rs: seq<Record>, n: nat, key: Record -> string, order: seq<string>, acc: map<string, MonthlyStat>)
    requires n < |rs| && StatsTally(rs, n, key, order, acc)
    ensures key(rs[n]) in acc ==> StatsReady(rs, n, key, order, acc)
    ensures key(rs[n]) !in acc ==> StatsReady(rs, n, key, order + [key(rs[n])], acc[key(rs[n]) := MonthlyStat(key(rs[n]), 0.0, 0.0, 0.0)])
  {
    var k0 := key(rs[n]);
    if k0 !in acc {
      RunningSumUnseen(rs, n, key, k0, OfKind(Income), AmountOf);
      RunningSumUnseen(rs, n, key, k0, OfKind(Expense), AmountOf);
      var acc' := acc[k0 := MonthlyStat(k0, 0.0, 0.0, 0.0)];
      forall k | k in acc' 
        ensures acc'[k].month == k && acc'[k].net == acc'[k].income - acc'[k].expense
        ensures acc'[k].income == IncomeSoFar(rs, n, key, k) && acc'[k].expense == ExpenseSoFar(rs, n, key, k)
      {
        if k != k0 {
          assert acc'[k] == acc[k];
        }
      }
      assert forall k :: k in acc' <==> k in order + [k0];
    }
  }

  /** `+=` on income or expense, then `net = income - expense`. */
  function CreditStat(e: MonthlyStat, r: Record): MonthlyStat {
    var e' := if r.kind == Income then e.(income := e.income + r.totalAmount) else e.(expense := e.expense + r.totalAmount);
    e'.(net := e'.income - e'.expense)
  }

  lemma StatsCreditStep(rs: seq<Record>, n: nat, key: Record -> string, order: seq<string>, acc: map<string, MonthlyStat>)
    requires n < |rs| && StatsReady(rs, n, key, order, acc)
    ensures key(rs[n]) in acc
    ensures StatsTally(rs, n + 1, key, order, acc[key(rs[n]) := CreditStat(acc[key(rs[n])], rs[n])])
  {
  }

  /** `Object.values(monthlyData)`: the stored buckets in insertion order. */
  function Values(order: seq<string>, acc: map<string, MonthlyStat>): (r: seq<MonthlyStat>)
    requires forall k :: k in order ==> k in acc
    ensures |r| == |order| && forall i :: 0 <= i < |order| ==> r[i] == acc[order[i]]
  {
    if order == [] then [] else [acc[order[0]]] + Values(order[1..], acc)
  }

  lemma {:induction false} ValuesIsBuckets(rs: seq<Record>, order: seq<string>, acc: map<string, MonthlyStat>)
    requires forall k :: k in order ==> k in acc
    requires StatsMatch(rs, |rs|, RecordMonthKey, acc)
    ensures Values(order, acc) == Buckets(rs, order)
  {
    if order != [] {
      ValuesIsBuckets(rs, order[1..], acc);
      var k := order[0];
      var b := Bucket(rs, k);
      assert rs[..|rs|] == rs;
      RunningSumIsGroupSum(rs, |rs|, RecordMonthKey, k, OfKind(Income), AmountOf);
      RunningSumIsGroupSum(rs, |rs|, RecordMonthKey, k, OfKind(Expense), AmountOf);
      assert acc[k] == b;
      assert Values(order, acc) == [b] + Values(order[1..], acc);
      assert Buckets(rs, order) == [b] + Buckets(rs, order[1..]);
    }
  }

  /**
   * The loop of the current report page's `calculateMonthlyStats`: each bucket
   * stores its net and refreshes it after every record it receives.
   */
  method MonthlyStatsRunningNet(rs: seq<Record>) returns (stats: seq<MonthlyStat>)
    ensures stats == MonthlyStats(rs)
  {
    var order: seq<string> := [];
    var acc: map<string, MonthlyStat> := map[];
    for i := 0 to |rs|
      invariant StatsTally(rs, i, RecordMonthKey, order, acc)
    {
      var r := rs[i];
      var key := RecordMonthKey(r);
      StatsOpenStep(rs, i, RecordMonthKey, order, acc);
      if key !in acc {
        acc := acc[key := MonthlyStat(key, 0.0, 0.0, 0.0)];
        order := order + [key];
      }
      StatsCreditStep(rs, i, RecordMonthKey, order, acc);
      acc := acc[key := CreditStat(acc[key], r)];
    }
    SeenKeysAreKeys(rs, |rs|, RecordMonthKey);
    assert rs[..|rs|] == rs;
    ValuesIsBuckets(rs, order, acc);
    stats := SortByMonth(Values(order, acc));
  }
}
