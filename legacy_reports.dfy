/**
 * The first generation's report page: monthly buckets (net derived once per
 * bucket), a member table of income, expense and net ranked by net, and an
 * item table of total and record count ranked by total.
 */
module LegacyReports {
  import opened Wrappers
  import opened Seqs
  import opened Ledger
  import opened Calendar
  import opened Monthly
  import opened Pages
  import opened Text

  // ---- The member table ----

  /** One `{ member, income, expense, net }` row. */
  datatype MemberStat = MemberStat(member: string, income: real, expense: real, net: real)

  function MemberNet(s: MemberStat): real { s.net }

  /** A member's income, expense (every record that is not income) and their difference. */
  function MemberRow(rs: seq<Record>, m: string): MemberStat {
    var income := GroupSum(rs, MemberOf, m, OfKind(Income), AmountOf);
    var expense := GroupSum(rs, MemberOf, m, OfKind(Expense), AmountOf);
    MemberStat(m, income, expense, income - expense)
  }

  function MemberRows(rs: seq<Record>, ms: seq<string>): (r: seq<MemberStat>)
    ensures |r| == |ms|
    ensures forall i :: 0 <= i < |ms| ==> r[i] == MemberRow(rs, ms[i])
  {
    if ms == [] then [] else [MemberRow(rs, ms[0])] + MemberRows(rs, ms[1..])
  }

  /** `getTopMembers()`: every member once, largest net first, equal nets in first-seen order. */
  function MemberRanking(rs: seq<Record>): seq<MemberStat> {
    SortDesc(MemberRows(rs, Keys(rs, MemberOf)), MemberNet)
  }

  /** The ranking is a rearrangement of the per-member rows, largest net first. */
  lemma MemberRankingSpec(rs: seq<Record>)
    ensures |MemberRanking(rs)| == |Keys(rs, MemberOf)|
    ensures NonIncreasing(MemberRanking(rs), MemberNet)
    ensures multiset(MemberRanking(rs)) == multiset(MemberRows(rs, Keys(rs, MemberOf)))
    ensures forall v :: Filter(MemberRanking(rs), KeyIs(MemberNet, v)) == Filter(MemberRows(rs, Keys(rs, MemberOf)), KeyIs(MemberNet, v))
  {
    var t := MemberRows(rs, Keys(rs, MemberOf));
    SortDescSorted(t, MemberNet);
    SortDescPermutes(t, MemberNet);
    forall v ensures Filter(MemberRanking(rs), KeyIs(MemberNet, v)) == Filter(t, KeyIs(MemberNet, v)) {
      SortDescStable(t, MemberNet, v);
    }
  }

  lemma MemberRowsEntries(rs: seq<Record>, ms: seq<string>)
    ensures forall e :: e in MemberRows(rs, ms) ==> e.member in ms && e == MemberRow(rs, e.member)
    ensures forall m :: m in ms ==> MemberRow(rs, m) in MemberRows(rs, ms)
  {
    var t := MemberRows(rs, ms);
    forall e | e in t ensures e.member in ms && e == MemberRow(rs, e.member) {
      var i :| 0 <= i < |t| && t[i] == e;
      assert MemberRow(rs, ms[i]).member == ms[i];
    }
    forall m | m in ms ensures MemberRow(rs, m) in t {
      var i :| 0 <= i < |ms| && ms[i] == m;
      assert t[i] == MemberRow(rs, m);
    }
  }

  /** Each row belongs to a member of the records, and carries that member's sums. */
  lemma MemberRankingEntries(rs: seq<Record>)
    ensures forall e :: e in MemberRanking(rs) ==> e.member in Keys(rs, MemberOf) && e == MemberRow(rs, e.member)
    ensures forall m :: m in Keys(rs, MemberOf) ==> MemberRow(rs, m) in MemberRanking(rs)
    ensures forall e :: e in MemberRanking(rs) ==> e.net == e.income - e.expense
  {
    SortDescElements(MemberRows(rs, Keys(rs, MemberOf)), MemberNet);
    MemberRowsEntries(rs, Keys(rs, MemberOf));
  }

  function MemberIncome(s: MemberStat): real { s.income }
  function MemberExpense(s: MemberStat): real { s.expense }

  lemma {:induction false} MemberRowsSums(rs: seq<Record>, ms: seq<string>)
    ensures SumBy(MemberRows(rs, ms), MemberIncome) == KeyedSum(rs, MemberOf, ms, OfKind(Income), AmountOf)
    ensures SumBy(MemberRows(rs, ms), MemberExpense) == KeyedSum(rs, MemberOf, ms, OfKind(Expense), AmountOf)
    ensures SumBy(MemberRows(rs, ms), MemberNet)
         == KeyedSum(rs, MemberOf, ms, OfKind(Income), AmountOf) - KeyedSum(rs, MemberOf, ms, OfKind(Expense), AmountOf)
  {
    if ms != [] {
      MemberRowsSums(rs, ms[1..]);
      assert MemberRows(rs, ms)[1..] == MemberRows(rs, ms[1..]);
    }
  }

  /** The members' nets add up to total income minus total expense; likewise income and expense. */
  lemma MemberRankingConserves(rs: seq<Record>)
    ensures SumBy(MemberRanking(rs), MemberIncome) == SumKind(rs, Income)
    ensures SumBy(MemberRanking(rs), MemberExpense) == SumKind(rs, Expense)
    ensures SumBy(MemberRanking(rs), MemberNet) == SumKind(rs, Income) - SumKind(rs, Expense)
  {
    var t := MemberRows(rs, Keys(rs, MemberOf));
    SumBySortDesc(t, MemberNet, MemberIncome);
    SumBySortDesc(t, MemberNet, MemberExpense);
    SumBySortDesc(t, MemberNet, MemberNet);
    MemberRowsSums(rs, Keys(rs, MemberOf));
    GroupsPartition(rs, MemberOf, OfKind(Income), AmountOf);
    GroupsPartition(rs, MemberOf, OfKind(Expense), AmountOf);
  }

  // ---- The member loop ----

  /** The value the member Map stores: `{ income, expense, net }`. */
  datatype Standing = Standing(income: real, expense: real, net: real)

  /** `stats.income += amount` or `stats.expense += amount`, then `stats.net = stats.income - stats.expense`. */
  function Post(e: Standing, r: Record): Standing {
    var e' := if r.kind == Income then e.(income := e.income + r.totalAmount) else e.(expense := e.expense + r.totalAmount);
    e'.(net := e'.income - e'.expense)
  }

  ghost predicate StandingsMatch(rs: seq<Record>, n: nat, acc: map<string, Standing>)
    requires n <= |rs|
  {
    forall k :: k in acc ==>
      && acc[k].income == IncomeSoFar(rs, n, MemberOf, k)
      && acc[k].expense == ExpenseSoFar(rs, n, MemberOf, k)
      && acc[k].net == acc[k].income - acc[k].expense
  }

  ghost predicate StandingsTally(rs: seq<Record>, n: nat, order: seq<string>, acc: map<string, Standing>)
    requires n <= |rs|
  {
    && order == SeenKeys(rs, n, MemberOf)
    && (forall k :: k in acc <==> k in order)
    && StandingsMatch(rs, n, acc)
  }

  ghost predicate StandingsReady(rs: seq<Record>, n: nat, order: seq<string>, acc: map<string, Standing>)
    requires n < |rs|
  {
    && order == SeenKeys(rs, n + 1, MemberOf)
    && (forall k :: k in acc <==> k in order)
    && StandingsMatch(rs, n, acc)
  }

  /** `if (!memberStats.has(member)) memberStats.set(member, { income: 0, expense: 0, net: 0 })`. */
  lemma StandingsOpenStep(rs: seq<Record>, n: nat, order: seq<string>, acc: map<string, Standing>)
    requires n < |rs| && StandingsTally(rs, n, order, acc)
    ensures rs[n].member in acc ==> StandingsReady(rs, n, order, acc)
    ensures rs[n].member !in acc ==> StandingsReady(rs, n, order + [rs[n].member], acc[rs[n].member := Standing(0.0, 0.0, 0.0)])
  {
    var k0 := MemberOf(rs[n]);
    if k0 !in acc {
      RunningSumUnseen(rs, n, MemberOf, k0, OfKind(Income), AmountOf);
      RunningSumUnseen(rs, n, MemberOf, k0, OfKind(Expense), AmountOf);
      var acc' := acc[k0 := Standing(0.0, 0.0, 0.0)];
      forall k | k in acc'
        ensures acc'[k].income == IncomeSoFar(rs, n, MemberOf, k) && acc'[k].expense == ExpenseSoFar(rs, n, MemberOf, k)
        ensures acc'[k].net == acc'[k].income - acc'[k].expense
      {
        if k != k0 {
          assert acc'[k] == acc[k];
        }
      }
      assert forall k :: k in acc' <==> k in order + [k0];
    }
  }

  lemma StandingsPostStep(rs: seq<Record>, n: nat, order: seq<string>, acc: map<string, Standing>)
    requires n < |rs| && StandingsReady(rs, n, order, acc)
    ensures rs[n].member in acc
    ensures StandingsTally(rs, n + 1, order, acc[rs[n].member := Post(acc[rs[n].member], rs[n])])
  {
    var x, k0 := rs[n], MemberOf(rs[n]);
    var acc' := acc[k0 := Post(acc[k0], x)];
    forall k | k in acc'
      ensures acc'[k].income == IncomeSoFar(rs, n + 1, MemberOf, k) && acc'[k].expense == ExpenseSoFar(rs, n + 1, MemberOf, k)
      ensures acc'[k].net == acc'[k].income - acc'[k].expense
    {
      assert IncomeSoFar(rs, n + 1, MemberOf, k) == IncomeSoFar(rs, n, MemberOf, k) + (if k0 == k && x.kind == Income then x.totalAmount else 0.0);
      assert ExpenseSoFar(rs, n + 1, MemberOf, k) == ExpenseSoFar(rs, n, MemberOf, k) + (if k0 == k && x.kind == Expense then x.totalAmount else 0.0);
      if k != k0 {
        assert acc'[k] == acc[k];
      }
    }
  }

  /** `Array.from(memberStats.entries()).map(([member, stats]) => ({ member, ...stats }))`. */
  function MemberEntries(order: seq<string>, acc: map<string, Standing>): (r: seq<MemberStat>)
    requires forall k :: k in order ==> k in acc
    ensures |r| == |order|
  {
    if order == [] then []
    else
      var k := order[0];
      [MemberStat(k, acc[k].income, acc[k].expense, acc[k].net)] + MemberEntries(order[1..], acc)
  }

  /** After the loop, a member's Map entry is that member's row. */
  lemma StandingIsRow(rs: seq<Record>, acc: map<string, Standing>, k: string)
    requires k in acc && StandingsMatch(rs, |rs|, acc)
    ensures MemberStat(k, acc[k].income, acc[k].expense, acc[k].net) == MemberRow(rs, k)
  {
    assert rs[..|rs|] == rs;
    RunningSumIsGroupSum(rs, |rs|, MemberOf, k, OfKind(Income), AmountOf);
    RunningSumIsGroupSum(rs, |rs|, MemberOf, k, OfKind(Expense), AmountOf);
  }

  lemma {:induction false} MemberEntriesAreRows(rs: seq<Record>, order: seq<string>, acc: map<string, Standing>)
    requires forall k :: k in order ==> k in acc
    requires StandingsMatch(rs, |rs|, acc)
    ensures MemberEntries(order, acc) == MemberRows(rs, order)
  {
    if order != [] {
      MemberEntriesAreRows(rs, order[1..], acc);
      var k := order[0];
      var b := MemberRow(rs, k);
      StandingIsRow(rs, acc, k);
      assert MemberEntries(order, acc) == [b] + MemberEntries(order[1..], acc);
      assert MemberRows(rs, order) == [b] + MemberRows(rs, order[1..]);
    }
  }

  /** `getTopMembers`: the Map filled in record order, then its rows sorted by net. */
  method TopMembersByNet(rs: seq<Record>) returns (ranking: seq<MemberStat>)
    ensures ranking == MemberRanking(rs)
  {
    var order: seq<string> := [];
    var acc: map<string, Standing> := map[];
    for i := 0 to |rs|
      invariant StandingsTally(rs, i, order, acc)
    {
      var r := rs[i];
      StandingsOpenStep(rs, i, order, acc);
      if r.member !in acc {
        acc := acc[r.member := Standing(0.0, 0.0, 0.0)];
        order := order + [r.member];
      }
      StandingsPostStep(rs, i, order, acc);
      acc := acc[r.member := Post(acc[r.member], r)];
    }
    SeenKeysAreKeys(rs, |rs|, MemberOf);
    assert rs[..|rs|] == rs;
    MemberEntriesAreRows(rs, order, acc);
    ranking := SortDesc(MemberEntries(order, acc), MemberNet);
  }

  // ---- The item table ----

  /** One `{ item, total, count }` row. */
  datatype ItemStat = ItemStat(item: string, total: real, count: nat)

  function ItemTotal(s: ItemStat): real { s.total }

  /** The count as a number to add up with the amounts. */
  function ItemCount(s: ItemStat): real { s.count as real }

  /** An item's summed amount and the number of its records. */
  function ItemRow(rs: seq<Record>, k: string): ItemStat {
    ItemStat(k, GroupSum(rs, ItemOf, k, Everything(), AmountOf), |Filter(rs, HasKey(ItemOf, k))|)
  }

  function ItemRows(rs: seq<Record>, ks: seq<string>): (r: seq<ItemStat>)
    ensures |r| == |ks|
    ensures forall i :: 0 <= i < |ks| ==> r[i] == ItemRow(rs, ks[i])
  {
    if ks == [] then [] else [ItemRow(rs, ks[0])] + ItemRows(rs, ks[1..])
  }

  /** `getTopItems()`: every item once, largest total first, equal totals in first-seen order. */
  function ItemRanking(rs: seq<Record>): seq<ItemStat> {
    SortDesc(ItemRows(rs, Keys(rs, ItemOf)), ItemTotal)
  }

  /** Counting an item's records is adding 1 for each of them, as `count += 1` does. */
  lemma ItemCountIsLength(rs: seq<Record>, k: string)
    ensures ItemCount(ItemRow(rs, k)) == GroupSum(rs, ItemOf, k, Everything(), One)
  {
    FilterAll(Filter(rs, HasKey(ItemOf, k)), Everything());
    SumOneIsLength(Filter(rs, HasKey(ItemOf, k)));
  }

  lemma ItemRankingSpec(rs: seq<Record>)
    ensures |ItemRanking(rs)| == |Keys(rs, ItemOf)|
    ensures NonIncreasing(ItemRanking(rs), ItemTotal)
    ensures multiset(ItemRanking(rs)) == multiset(ItemRows(rs, Keys(rs, ItemOf)))
    ensures forall v :: Filter(ItemRanking(rs), KeyIs(ItemTotal, v)) == Filter(ItemRows(rs, Keys(rs, ItemOf)), KeyIs(ItemTotal, v))
  {
    var t := ItemRows(rs, Keys(rs, ItemOf));
    SortDescSorted(t, ItemTotal);
    SortDescPermutes(t, ItemTotal);
    forall v ensures Filter(ItemRanking(rs), KeyIs(ItemTotal, v)) == Filter(t, KeyIs(ItemTotal, v)) {
      SortDescStable(t, ItemTotal, v);
    }
  }

  lemma {:induction false} ItemRowsSums(rs: seq<Record>, ks: seq<string>)
    ensures SumBy(ItemRows(rs, ks), ItemTotal) == KeyedSum(rs, ItemOf, ks, Everything(), AmountOf)
    ensures SumBy(ItemRows(rs, ks), ItemCount) == KeyedSum(rs, ItemOf, ks, Everything(), One)
  {
    if ks != [] {
      ItemRowsSums(rs, ks[1..]);
      ItemCountIsLength(rs, ks[0]);
      assert ItemRows(rs, ks)[1..] == ItemRows(rs, ks[1..]);
    }
  }

  /** The item totals add up to the sum of all amounts, and the counts to the number of records. */
  lemma ItemRankingConserves(rs: seq<Record>)
    ensures SumBy(ItemRanking(rs), ItemTotal) == Total(rs)
    ensures SumBy(ItemRanking(rs), ItemCount) == |rs| as real
  {
    var t := ItemRows(rs, Keys(rs, ItemOf));
    SumBySortDesc(t, ItemTotal, ItemTotal);
    SumBySortDesc(t, ItemTotal, ItemCount);
    ItemRowsSums(rs, Keys(rs, ItemOf));
    GroupsPartition(rs, ItemOf, Everything(), AmountOf);
    GroupsPartition(rs, ItemOf, Everything(), One);
    FilterAll(rs, Everything());
    SumOneIsLength(rs);
  }

  // ---- The item loop ----

  /** The value the item Map stores: `{ total, count }`. */
  datatype Tally = Tally(total: real, count: nat)

  ghost predicate TalliesMatch(rs: seq<Record>, n: nat, acc: map<string, Tally>)
    requires n <= |rs|
  {
    forall k :: k in acc ==>
      && acc[k].total == RunningSum(rs, n, ItemOf, k, Everything(), AmountOf)
      && acc[k].count as real == RunningSum(rs, n, ItemOf, k, Everything(), One)
  }

  ghost predicate ItemTally(rs: seq<Record>, n: nat, order: seq<string>, acc: map<string, Tally>)
    requires n <= |rs|
  {
    && order == SeenKeys(rs, n, ItemOf)
    && (forall k :: k in acc <==> k in order)
    && TalliesMatch(rs, n, acc)
  }

  ghost predicate ItemReady(rs: seq<Record>, n: nat, order: seq<string>, acc: map<string, Tally>)
    requires n < |rs|
  {
    && order == SeenKeys(rs, n + 1, ItemOf)
    && (forall k :: k in acc <==> k in order)
    && TalliesMatch(rs, n, acc)
  }

  /** `if (!itemStats.has(item)) itemStats.set(item, { total: 0, count: 0 })`. */
  lemma ItemOpenStep(rs: seq<Record>, n: nat, order: seq<string>, acc: map<string, Tally>)
    requires n < |rs| && ItemTally(rs, n, order, acc)
    ensures rs[n].item in acc ==> ItemReady(rs, n, order, acc)
    ensures rs[n].item !in acc ==> ItemReady(rs, n, order + [rs[n].item], acc[rs[n].item := Tally(0.0, 0)])
  {
    var k0 := ItemOf(rs[n]);
    if k0 !in acc {
      RunningSumUnseen(rs, n, ItemOf, k0, Everything(), AmountOf);
      RunningSumUnseen(rs, n, ItemOf, k0, Everything(), One);
      var acc' := acc[k0 := Tally(0.0, 0)];
      forall k | k in acc'
        ensures acc'[k].total == RunningSum(rs, n, ItemOf, k, Everything(), AmountOf)
        ensures acc'[k].count as real == RunningSum(rs, n, ItemOf, k, Everything(), One)
      {
        if k != k0 {
          assert acc'[k] == acc[k];
        }
      }
      assert forall k :: k in acc' <==> k in order + [k0];
    }
  }

  /** `stats.total += record.totalAmount; stats.count += 1`. */
  lemma ItemCountStep(rs: seq<Record>, n: nat, order: seq<string>, acc: map<string, Tally>)
    requires n < |rs| && ItemReady(rs, n, order, acc)
    ensures rs[n].item in acc
    ensures var t := acc[rs[n].item];
      ItemTally(rs, n + 1, order, acc[rs[n].item := Tally(t.total + rs[n].totalAmount, t.count + 1)])
  {
    var x, k0 := rs[n], ItemOf(rs[n]);
    var acc' := acc[k0 := Tally(acc[k0].total + x.totalAmount, acc[k0].count + 1)];
    forall k | k in acc'
      ensures acc'[k].total == RunningSum(rs, n + 1, ItemOf, k, Everything(), AmountOf)
      ensures acc'[k].count as real == RunningSum(rs, n + 1, ItemOf, k, Everything(), One)
    {
      assert RunningSum(rs, n + 1, ItemOf, k, Everything(), AmountOf)
          == RunningSum(rs, n, ItemOf, k, Everything(), AmountOf) + (if k0 == k then x.totalAmount else 0.0);
      assert RunningSum(rs, n + 1, ItemOf, k, Everything(), One)
          == RunningSum(rs, n, ItemOf, k, Everything(), One) + (if k0 == k then 1.0 else 0.0);
      if k != k0 {
        assert acc'[k] == acc[k];
      }
    }
  }

  function ItemEntries(order: seq<string>, acc: map<string, Tally>): (r: seq<ItemStat>)
    requires forall k :: k in order ==> k in acc
    ensures |r| == |order|
  {
    if order == [] then []
    else
      var k := order[0];
      [ItemStat(k, acc[k].total, acc[k].count)] + ItemEntries(order[1..], acc)
  }

  lemma {:induction false} ItemEntriesAreRows(rs: seq<Record>, order: seq<string>, acc: map<string, Tally>)
    requires forall k :: k in order ==> k in acc
    requires TalliesMatch(rs, |rs|, acc)
    ensures ItemEntries(order, acc) == ItemRows(rs, order)
  {
    if order != [] {
      ItemEntriesAreRows(rs, order[1..], acc);
      var k := order[0];
      var b := ItemRow(rs, k);
      assert rs[..|rs|] == rs;
      RunningSumIsGroupSum(rs, |rs|, ItemOf, k, Everything(), AmountOf);
      RunningSumIsGroupSum(rs, |rs|, ItemOf, k, Everything(), One);
      ItemCountIsLength(rs, k);
      assert ItemEntries(order, acc)[0] == b;
      assert ItemEntries(order, acc) == [b] + ItemEntries(order[1..], acc);
      assert ItemRows(rs, order) == [b] + ItemRows(rs, order[1..]);
    }
  }

  /** `getTopItems`: the Map filled in record order, then its rows sorted by total. */
  method TopItemsByTotal(rs: seq<Record>) returns (ranking: seq<ItemStat>)
    ensures ranking == ItemRanking(rs)
  {
    var order: seq<string> := [];
    var acc: map<string, Tally> := map[];
    for i := 0 to |rs|
      invariant ItemTally(rs, i, order, acc)
    {
      var r := rs[i];
      ItemOpenStep(rs, i, order, acc);
      if r.item !in acc {
        acc := acc[r.item := Tally(0.0, 0)];
        order := order + [r.item];
      }
      ItemCountStep(rs, i, order, acc);
      var t := acc[r.item];
      acc := acc[r.item := Tally(t.total + r.totalAmount, t.count + 1)];
    }
    SeenKeysAreKeys(rs, |rs|, ItemOf);
    assert rs[..|rs|] == rs;
    ItemEntriesAreRows(rs, order, acc);
    ranking := SortDesc(ItemEntries(order, acc), ItemTotal);
  }

  // ---- The page ----

  datatype LegacyReport = LegacyReport(
    monthly: seq<MonthlyStat>,
    members: seq<MemberStat>,
    items: seq<ItemStat>,
    totalIncome: real,
    totalExpense: real,
    netAmount: real)

  function LegacyReportOf(rs: seq<Record>): LegacyReport {
    LegacyReport(MonthlyStats(rs), MemberRanking(rs), ItemRanking(rs),
                 SumKind(rs, Income), SumKind(rs, Expense), SumKind(rs, Income) - SumKind(rs, Expense))
  }

  /** The page's tables: the trend, the member ranking (shown cut to five) and the item ranking. */
  method BuildLegacyReport(rs: seq<Record>) returns (rep: LegacyReport)
    ensures rep == LegacyReportOf(rs)
  {
    var monthly := MonthlyStatsDeferredNet(rs);
    var members := TopMembersByNet(rs);
    var items := TopItemsByTotal(rs);
    var income := SumKind(rs, Income);
    var expense := SumKind(rs, Expense);
    rep := LegacyReport(monthly, members, items, income, expense, income - expense);
  }

  /** The figures agree: the members' nets and the months' nets both add up to the page's net. */
  lemma LegacyReportAgrees(rs: seq<Record>)
    ensures var rep := LegacyReportOf(rs);
      && SumBy(rep.members, MemberNet) == rep.netAmount
      && SumBy(rep.monthly, NetOf) == rep.netAmount
      && SumBy(rep.items, ItemTotal) == rep.totalIncome + rep.totalExpense
      && SumBy(rep.items, ItemCount) == |rs| as real
  {
    var rep := LegacyReportOf(rs);
    assert rep.members == MemberRanking(rs) && rep.monthly == MonthlyStats(rs) && rep.items == ItemRanking(rs);
    MemberRankingConserves(rs);
    ItemRankingConserves(rs);
    KindsPartitionTotal(rs);
    MonthlyStatsConserve(rs);
  }

  // ---- The page's mock data ----

  /** Five records whose keys run a, a, b, b, c for distinct a, b, c have the keys a, b, c. */
  lemma KeysOfFive(rs: seq<Record>, key: Record -> string)
    requires |rs| == 5
    requires key(rs[1]) == key(rs[0]) && key(rs[3]) == key(rs[2])
    requires key(rs[2]) != key(rs[0]) && key(rs[4]) != key(rs[0]) && key(rs[4]) != key(rs[2])
    ensures Keys(rs, key) == [key(rs[0]), key(rs[2]), key(rs[4])]
  {
    assert SeenKeys(rs, 1, key) == [key(rs[0])];
    assert SeenKeys(rs, 2, key) == [key(rs[0])];
    assert SeenKeys(rs, 3, key) == [key(rs[0]), key(rs[2])];
    assert SeenKeys(rs, 4, key) == [key(rs[0]), key(rs[2])];
    assert SeenKeys(rs, 5, key) == [key(rs[0]), key(rs[2]), key(rs[4])];
    SeenKeysAreKeys(rs, 5, key);
    assert rs[..5] == rs;
  }

  /** The five mock records fall in January, February and March 2024, in that order of first appearance. */
  lemma LegacyMockMonthKeys()
    ensures Keys(LegacyReportRecords(), RecordMonthKey) == [MonthKey(2024, 1), MonthKey(2024, 2), MonthKey(2024, 3)]
  {
    MonthKeyRoundTrip(2024, 1);
    MonthKeyRoundTrip(2024, 2);
    MonthKeyRoundTrip(2024, 3);
    KeysOfFive(LegacyReportRecords(), RecordMonthKey);
  }

  /** The digits of the mock's month keys. */
  lemma MockMonthKeyDigits()
    ensures MonthKey(2024, 1) == "2024-01" && MonthKey(2024, 2) == "2024-02" && MonthKey(2024, 3) == "2024-03"
  {
    assert Decimal(2024) == "2024" by {
      assert Decimal(2) == "2";
      assert Decimal(20) == "20";
      assert Decimal(202) == "202";
    }
  }

  /** Three buckets, 2024-01, 2024-02 and 2024-03, in ascending order. */
  lemma LegacyMockMonths()
    ensures |MonthlyStats(LegacyReportRecords())| == 3
    ensures MonthlyStats(LegacyReportRecords())[0].month == "2024-01"
    ensures MonthlyStats(LegacyReportRecords())[1].month == "2024-02"
    ensures MonthlyStats(LegacyReportRecords())[2].month == "2024-03"
  {
    LegacyMockMonthKeys();
    MonthKeyChronological(2024, 1, 2024, 2);
    MonthKeyChronological(2024, 1, 2024, 3);
    MonthKeyChronological(2024, 2, 2024, 3);
    ThreeMonthTrend(LegacyReportRecords(), MonthKey(2024, 1), MonthKey(2024, 2), MonthKey(2024, 3));
    MockMonthKeyDigits();
  }

  /** Records whose months first appear in ascending order give one bucket per month, in that order. */
  lemma ThreeMonthTrend(rs: seq<Record>, k1: string, k2: string, k3: string)
    requires Keys(rs, RecordMonthKey) == [k1, k2, k3]
    requires LexLess(k1, k2) && LexLess(k1, k3) && LexLess(k2, k3)
    ensures |MonthlyStats(rs)| == 3
    ensures MonthlyStats(rs)[0].month == k1 && MonthlyStats(rs)[1].month == k2 && MonthlyStats(rs)[2].month == k3
  {
    var ks := Keys(rs, RecordMonthKey);
    forall i, j | 0 <= i < j < |ks| ensures LexLess(ks[i], ks[j]) {
      assert j == 1 || j == 2;
    }
    AscendingKeysTrend(rs);
  }

  /** The sum of three amounts, spelled out. */
  lemma SumThree(a: Record, b: Record, c: Record, f: Record -> real)
    ensures SumBy([a, b, c], f) == f(a) + f(b) + f(c)
  {
    assert [a, b, c][1..] == [b, c] && [b, c][1..] == [c] && [c][1..] == [];
    assert SumBy([c], f) == f(c);
    assert SumBy([b, c], f) == f(b) + f(c);
  }

  /** Filtering five elements of which the first, fourth and fifth pass. */
  lemma PickFirstFourthFifth(rs: seq<Record>, p: Record -> bool)
    requires |rs| == 5 && p(rs[0]) && !p(rs[1]) && !p(rs[2]) && p(rs[3]) && p(rs[4])
    ensures Filter(rs, p) == [rs[0], rs[3], rs[4]]
  {
    assert rs[4..][1..] == [] && rs[3..][1..] == rs[4..] && rs[2..][1..] == rs[3..] && rs[1..][1..] == rs[2..];
    var a, d, e := rs[0], rs[3], rs[4];
    assert Filter(rs[4..], p) == [e];
    assert [d] + [e] == [d, e];
    assert Filter(rs[3..], p) == [d, e];
    assert Filter(rs[2..], p) == [d, e];
    assert Filter(rs[1..], p) == [d, e];
    assert [a] + [d, e] == [a, d, e];
    assert Filter(rs, p) == [a] + Filter(rs[1..], p);
  }

  /** Filtering five elements of which the second and third pass. */
  lemma PickSecondThird(rs: seq<Record>, p: Record -> bool)
    requires |rs| == 5 && !p(rs[0]) && p(rs[1]) && p(rs[2]) && !p(rs[3]) && !p(rs[4])
    ensures Filter(rs, p) == [rs[1], rs[2]]
  {
    assert rs[4..][1..] == [] && rs[3..][1..] == rs[4..] && rs[2..][1..] == rs[3..] && rs[1..][1..] == rs[2..];
    assert Filter(rs[4..], p) == [];
    assert Filter(rs[3..], p) == [];
    assert Filter(rs[2..], p) == [rs[2]];
    assert Filter(rs[1..], p) == [rs[1]] + [rs[2]];
    assert Filter(rs, p) == Filter(rs[1..], p);
  }

  /** 課程費用 is the item of the first, fourth and fifth records. */
  lemma LegacyMockCourseRecords()
    ensures var rs := LegacyReportRecords(); Filter(rs, HasKey(ItemOf, "課程費用")) == [rs[0], rs[3], rs[4]]
  {
    var rs, p := LegacyReportRecords(), HasKey(ItemOf, "課程費用");
    assert ItemOf(rs[0]) == "課程費用" && ItemOf(rs[1]) != "課程費用" && ItemOf(rs[2]) != "課程費用";
    assert ItemOf(rs[3]) == "課程費用" && ItemOf(rs[4]) == "課程費用";
    assert p(rs[0]) && !p(rs[1]) && !p(rs[2]) && p(rs[3]) && p(rs[4]);
    PickFirstFourthFifth(rs, p);
  }

  /** 課程費用 totals 1600 over three records. */
  lemma LegacyMockCourses()
    ensures ItemRow(LegacyReportRecords(), "課程費用") == ItemStat("課程費用", 1600.0, 3)
  {
    var rs := LegacyReportRecords();
    LegacyMockCourseRecords();
    var f := [rs[0], rs[3], rs[4]];
    FilterAll(f, Everything());
    SumThree(rs[0], rs[3], rs[4], AmountOf);
  }

  /** The sum of two amounts, spelled out. */
  lemma SumTwo(a: Record, b: Record, f: Record -> real)
    ensures SumBy([a, b], f) == f(a) + f(b)
  {
    assert [a, b][1..] == [b] && [b][1..] == [];
    assert SumBy([b], f) == f(b);
  }

  /** 器材購買 is the item of the second and third records. */
  lemma LegacyMockEquipmentRecords()
    ensures var rs := LegacyReportRecords(); Filter(rs, HasKey(ItemOf, "器材購買")) == [rs[1], rs[2]]
  {
    var rs, p := LegacyReportRecords(), HasKey(ItemOf, "器材購買");
    assert ItemOf(rs[0]) != "器材購買" && ItemOf(rs[1]) == "器材購買" && ItemOf(rs[2]) == "器材購買";
    assert ItemOf(rs[3]) != "器材購買" && ItemOf(rs[4]) != "器材購買";
    assert !p(rs[0]) && p(rs[1]) && p(rs[2]) && !p(rs[3]) && !p(rs[4]);
    PickSecondThird(rs, p);
  }

  /** 器材購買 totals 349.94 over two records. */
  lemma LegacyMockEquipment()
    ensures ItemRow(LegacyReportRecords(), "器材購買") == ItemStat("器材購買", 349.94, 2)
  {
    var rs := LegacyReportRecords();
    LegacyMockEquipmentRecords();
    var f := [rs[1], rs[2]];
    FilterAll(f, Everything());
    SumTwo(rs[1], rs[2], AmountOf);
  }
}
