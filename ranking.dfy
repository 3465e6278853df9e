/**
 * The "top five" tables of the report page: a tally object from a record
 * field (member or item) to the sum of `totalAmount` over that field's
 * records, its entries sorted by amount, largest first, cut to five.
 */
module Ranking {
  import opened Seqs
  import opened Ledger

  /** One `[name, amount]` entry of a tally object. */
  datatype Ranked = Ranked(name: string, amount: real)

  function RankAmount(e: Ranked): real { e.amount }

  /** The amount a key accumulates: every record with that key counts, income and expense alike. */
  function KeyTotal(rs: seq<Record>, key: Record -> string, k: string): real {
    GroupSum(rs, key, k, Everything(), AmountOf)
  }

  function Tallies(rs: seq<Record>, key: Record -> string, ks: seq<string>): (r: seq<Ranked>)
    ensures |r| == |ks|
    ensures forall i :: 0 <= i < |ks| ==> r[i] == Ranked(ks[i], KeyTotal(rs, key, ks[i]))
  {
    if ks == [] then [] else [Ranked(ks[0], KeyTotal(rs, key, ks[0]))] + Tallies(rs, key, ks[1..])
  }

  /** All keys with their totals, largest first; equal totals keep first-seen order. */
  function Ranking(rs: seq<Record>, key: Record -> string): seq<Ranked> {
    SortDesc(Tallies(rs, key, Keys(rs, key)), RankAmount)
  }

  /** `.sort(([,a], [,b]) => b - a).slice(0, 5)`. */
  function TopFive(rs: seq<Record>, key: Record -> string): seq<Ranked> {
    Take(Ranking(rs, key), 5)
  }

  /** The ranking is a rearrangement of the tallies, largest total first. */
  lemma RankingSpec(rs: seq<Record>, key: Record -> string)
    ensures |Ranking(rs, key)| == |Keys(rs, key)|
    ensures NonIncreasing(Ranking(rs, key), RankAmount)
    ensures multiset(Ranking(rs, key)) == multiset(Tallies(rs, key, Keys(rs, key)))
  {
    var t := Tallies(rs, key, Keys(rs, key));
    SortDescSorted(t, RankAmount);
    SortDescPermutes(t, RankAmount);
  }

  lemma TalliesEntries(rs: seq<Record>, key: Record -> string, ks: seq<string>)
    ensures forall e :: e in Tallies(rs, key, ks) ==> e.name in ks && e.amount == KeyTotal(rs, key, e.name)
    ensures forall k :: k in ks ==> Ranked(k, KeyTotal(rs, key, k)) in Tallies(rs, key, ks)
  {
    var t := Tallies(rs, key, ks);
    forall e | e in t ensures e.name in ks && e.amount == KeyTotal(rs, key, e.name) {
      var i :| 0 <= i < |t| && t[i] == e;
    }
    forall k | k in ks ensures Ranked(k, KeyTotal(rs, key, k)) in t {
      var i :| 0 <= i < |ks| && ks[i] == k;
      assert t[i] == Ranked(k, KeyTotal(rs, key, k));
    }
  }

  /** The ranking lists every key with its total, and nothing else. */
  lemma RankingEntries(rs: seq<Record>, key: Record -> string)
    ensures forall e :: e in Ranking(rs, key) ==> e.name in Keys(rs, key) && e.amount == KeyTotal(rs, key, e.name)
    ensures forall k :: k in Keys(rs, key) ==> Ranked(k, KeyTotal(rs, key, k)) in Ranking(rs, key)
  {
    SortDescElements(Tallies(rs, key, Keys(rs, key)), RankAmount);
    TalliesEntries(rs, key, Keys(rs, key));
  }

  /** Among keys with equal totals, the one met first in the records comes first. */
  lemma RankingTies(rs: seq<Record>, key: Record -> string, v: real)
    ensures Filter(Ranking(rs, key), KeyIs(RankAmount, v)) == Filter(Tallies(rs, key, Keys(rs, key)), KeyIs(RankAmount, v))
  {
    SortDescStable(Tallies(rs, key, Keys(rs, key)), RankAmount, v);
  }

  lemma {:induction false} TalliesSum(rs: seq<Record>, key: Record -> string, ks: seq<string>)
    ensures SumBy(Tallies(rs, key, ks), RankAmount) == KeyedSum(rs, key, ks, Everything(), AmountOf)
  {
    if ks != [] {
      TalliesSum(rs, key, ks[1..]);
      assert Tallies(rs, key, ks)[1..] == Tallies(rs, key, ks[1..]);
    }
  }

  /** Every record's amount is counted under exactly one key. */
  lemma RankingConserves(rs: seq<Record>, key: Record -> string)
    ensures SumBy(Ranking(rs, key), RankAmount) == Total(rs)
  {
    var t := Tallies(rs, key, Keys(rs, key));
    SumBySortDesc(t, RankAmount, RankAmount);
    TalliesSum(rs, key, Keys(rs, key));
    GroupsPartition(rs, key, Everything(), AmountOf);
    FilterAll(rs, Everything());
  }

  /**
   * The top five are the first entries of the ranking, at most five of them,
   * and none of the keys left out has a larger total than any key shown.
   */
  lemma TopFiveSpec(rs: seq<Record>, key: Record -> string)
    ensures |TopFive(rs, key)| == if |Keys(rs, key)| < 5 then |Keys(rs, key)| else 5
    ensures TopFive(rs, key) == Ranking(rs, key)[..|TopFive(rs, key)|]
    ensures forall i, j :: 0 <= i < |TopFive(rs, key)| <= j < |Ranking(rs, key)| ==>
              TopFive(rs, key)[i].amount >= Ranking(rs, key)[j].amount
  {
    var r := Ranking(rs, key);
    SortDescSorted(Tallies(rs, key, Keys(rs, key)), RankAmount);
    TakeNonIncreasing(r, 5, RankAmount);
  }

  // ---- The tally loop ----

  /** Every entry holds the amount accumulated for its key over the first `n` records. */
  ghost predicate AmountsMatch(rs: seq<Record>, n: nat, key: Record -> string, acc: map<string, real>)
    requires n <= |rs|
  {
    forall k :: k in acc ==> acc[k] == RunningSum(rs, n, key, k, Everything(), AmountOf)
  }

  /** The state of the tally loop after the first `n` records. */
  ghost predicate AmountTally(rs: seq<Record>, n: nat, key: Record -> string, order: seq<string>, acc: map<string, real>)
    requires n <= |rs|
  {
    && order == SeenKeys(rs, n, key)
    && (forall k :: k in acc <==> k in order)
    && AmountsMatch(rs, n, key, acc)
  }

  ghost predicate AmountReady(rs: seq<Record>, n: nat, key: Record -> string, order: seq<string>, acc: map<string, real>)
    requires n < |rs|
  {
    && order == SeenKeys(rs, n + 1, key)
    && (forall k :: k in acc <==> k in order)
    && AmountsMatch(rs, n, key, acc)
  }

  /**
   * `if (!stats[k]) stats[k] = 0`: a new key enters at the end with zero;
   * a key whose sum is 0 (falsy) is reset to 0, which changes nothing.
   */
  lemma AmountOpenStep(rs: seq<Record>, n: nat, key: Record -> string, order: seq<string>, acc: map<string, real>)
    requires n < |rs| && AmountTally(rs, n, key, order, acc)
    ensures key(rs[n]) in acc ==> AmountReady(rs, n, key, order, acc)
    ensures key(rs[n]) in acc && acc[key(rs[n])] == 0.0 ==> AmountReady(rs, n, key, order, acc[key(rs[n]) := 0.0])
    ensures key(rs[n]) !in acc ==> AmountReady(rs, n, key, order + [key(rs[n])], acc[key(rs[n]) := 0.0])
  {
    var k0 := key(rs[n]);
    if k0 !in acc {
      RunningSumUnseen(rs, n, key, k0, Everything(), AmountOf);
      var acc' := acc[k0 := 0.0];
      assert forall k :: k in acc' <==> k in order + [k0];
    } else if acc[k0] == 0.0 {
      assert acc[k0 := 0.0] == acc;
    }
  }

  /** `stats[k] += record.totalAmount`. */
  lemma AmountCreditStep(rs: seq<Record>, n: nat, key: Record -> string, order: seq<string>, acc: map<string, real>)
    requires n < |rs| && AmountReady(rs, n, key, order, acc)
    ensures key(rs[n]) in acc
    ensures AmountTally(rs, n + 1, key, order, acc[key(rs[n]) := acc[key(rs[n])] + rs[n].totalAmount])
  {
    var x, k0 := rs[n], key(rs[n]);
    var acc' := acc[k0 := acc[k0] + x.totalAmount];
    forall k | k in acc' ensures acc'[k] == RunningSum(rs, n + 1, key, k, Everything(), AmountOf) {
      assert RunningSum(rs, n + 1, key, k, Everything(), AmountOf)
          == RunningSum(rs, n, key, k, Everything(), AmountOf) + (if k0 == k then x.totalAmount else 0.0);
      if k != k0 {
        assert acc'[k] == acc[k];
      }
    }
  }

  /** The `forEach` over the records that fills a tally object keyed by `key`. */
  method TallyAmounts(rs: seq<Record>, key: Record -> string) returns (order: seq<string>, acc: map<string, real>)
    ensures AmountTally(rs, |rs|, key, order, acc)
  {
    order := [];
    acc := map[];
    for i := 0 to |rs|
      invariant AmountTally(rs, i, key, order, acc)
    {
      var r := rs[i];
      var k := key(r);
      AmountOpenStep(rs, i, key, order, acc);
      if !(k in acc && acc[k] != 0.0) {
        if k !in acc {
          order := order + [k];
        }
        acc := acc[k := 0.0];
      }
      AmountCreditStep(rs, i, key, order, acc);
      acc := acc[k := acc[k] + r.totalAmount];
    }
  }

  /** `Object.entries(stats)`: the entries in insertion order. */
  function Entries(order: seq<string>, acc: map<string, real>): (r: seq<Ranked>)
    requires forall k :: k in order ==> k in acc
    ensures |r| == |order| && forall i :: 0 <= i < |order| ==> r[i] == Ranked(order[i], acc[order[i]])
  {
    if order == [] then [] else [Ranked(order[0], acc[order[0]])] + Entries(order[1..], acc)
  }

  lemma {:induction false} EntriesAreTallies(rs: seq<Record>, key: Record -> string, order: seq<string>, acc: map<string, real>)
    requires forall k :: k in order ==> k in acc
    requires AmountsMatch(rs, |rs|, key, acc)
    ensures Entries(order, acc) == Tallies(rs, key, order)
  {
    if order != [] {
      EntriesAreTallies(rs, key, order[1..], acc);
      assert rs[..|rs|] == rs;
      RunningSumIsGroupSum(rs, |rs|, key, order[0], Everything(), AmountOf);
      assert Entries(order, acc) == [Ranked(order[0], acc[order[0]])] + Entries(order[1..], acc);
    }
  }

  /** A tally of the records by `key`, sorted by amount and cut to five entries. */
  method TopBy(rs: seq<Record>, key: Record -> string) returns (top: seq<Ranked>)
    ensures top == TopFive(rs, key)
  {
    var order, acc := TallyAmounts(rs, key);
    SeenKeysAreKeys(rs, |rs|, key);
    assert rs[..|rs|] == rs;
    EntriesAreTallies(rs, key, order, acc);
    top := Take(SortDesc(Entries(order, acc), RankAmount), 5);
  }

  /** `getTopMembers`. */
  method TopMembers(rs: seq<Record>) returns (top: seq<Ranked>)
    ensures top == TopFive(rs, MemberOf)
  {
    top := TopBy(rs, MemberOf);
  }

  /** `getTopItems`. */
  method TopItems(rs: seq<Record>) returns (top: seq<Ranked>)
    ensures top == TopFive(rs, ItemOf)
  {
    top := TopBy(rs, ItemOf);
  }
}
