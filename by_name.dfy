/**
 * The by-name pages: the list of distinct members, the member selector that
 * narrows the records, and the per-member income, expense and net panel.
 */
module ByName {
  import opened Seqs
  import opened Ledger
  import opened Pages
  import opened Overview

  /** `Array.from(new Set(records.map(r => r.member)))`. */
  function Members(rs: seq<Record>): seq<string> {
    Keys(rs, MemberOf)
  }

  /** Every member once, only members of some record, in the order they first appear. */
  lemma MembersSpec(rs: seq<Record>)
    ensures NoDup(Members(rs))
    ensures forall m :: m in Members(rs) <==> exists i :: 0 <= i < |rs| && rs[i].member == m
    ensures forall i, j :: 0 <= i < j < |Members(rs)| ==>
              FirstIndex(Project(rs, MemberOf), Members(rs)[i]) < FirstIndex(Project(rs, MemberOf), Members(rs)[j])
  {
    forall m ensures m in Members(rs) <==> exists i :: 0 <= i < |rs| && rs[i].member == m {
      KeysMembership(rs, MemberOf, m);
    }
    forall i, j | 0 <= i < j < |Members(rs)|
      ensures FirstIndex(Project(rs, MemberOf), Members(rs)[i]) < FirstIndex(Project(rs, MemberOf), Members(rs)[j])
    {
      DistinctFirstSeenOrder(Project(rs, MemberOf), i, j);
    }
  }

  /** The records of one member, compared exactly (`record.member === name`). */
  function OfMember(rs: seq<Record>, m: string): seq<Record> {
    Filter(rs, HasKey(MemberOf, m))
  }

  /** `selectedMember ? records.filter(r => r.member === selectedMember) : records`; both pages agree. */
  function Selected(rs: seq<Record>, m: string): seq<Record> {
    if m == "" then rs else OfMember(rs, m)
  }

  /** No selection shows everything; a selection shows exactly that member's records, in order. */
  lemma SelectedSpec(rs: seq<Record>, m: string)
    ensures IsSubseq(Selected(rs, m), rs)
    ensures m == "" ==> Selected(rs, m) == rs
    ensures m != "" ==> forall i :: 0 <= i < |rs| && rs[i].member == m ==> rs[i] in Selected(rs, m)
    ensures m != "" ==> forall r :: r in Selected(rs, m) ==> r in rs && r.member == m
  {
    if m == "" {
      FilterAll(rs, Everything());
      FilterIsSubseq(rs, Everything());
    } else {
      FilterIsSubseq(rs, HasKey(MemberOf, m));
      forall i | 0 <= i < |rs| && rs[i].member == m ensures rs[i] in Selected(rs, m) {
        assert MemberOf(rs[i]) == m;
      }
      forall r | r in Selected(rs, m) ensures r in rs && r.member == m {
        var j :| 0 <= j < |Selected(rs, m)| && Selected(rs, m)[j] == r;
        assert MemberOf(r) == m;
      }
    }
  }

  /** Deleting a record and then selecting shows what selecting and then deleting would. */
  lemma DeleteThenSelect(rs: seq<Record>, id: string, m: string)
    ensures Selected(WithoutId(rs, id), m) == WithoutId(Selected(rs, m), id)
  {
    if m != "" {
      FilterCommutes(rs, IdIsNot(id), HasKey(MemberOf, m));
    }
  }

  /** `getMemberStats` of the current page: an empty name means every record. */
  function MemberStats(rs: seq<Record>, m: string): Totals {
    TotalsOf(Selected(rs, m))
  }

  /** `getMemberStats` of the first page: always an exact match, so `''` counts only unnamed records. */
  function ExactMemberStats(rs: seq<Record>, m: string): Totals {
    TotalsOf(OfMember(rs, m))
  }

  /** The two agree on a non-empty name; on the empty name the current page totals the whole list. */
  lemma MemberStatsAgree(rs: seq<Record>, m: string)
    ensures m != "" ==> MemberStats(rs, m) == ExactMemberStats(rs, m)
    ensures MemberStats(rs, "") == TotalsOf(rs)
  {
  }

  /** With no unnamed record, the first page's panel for `''` shows zeros. */
  lemma ExactStatsOfNobody(rs: seq<Record>)
    requires forall i :: 0 <= i < |rs| ==> rs[i].member != ""
    ensures ExactMemberStats(rs, "") == Totals(0.0, 0.0, 0.0)
  {
    forall i | 0 <= i < |rs| ensures !HasKey(MemberOf, "")(rs[i]) {
      assert MemberOf(rs[i]) != "";
    }
    FilterNone(rs, HasKey(MemberOf, ""));
  }

  function AddTotals(a: Totals, b: Totals): Totals {
    Totals(a.income + b.income, a.expense + b.expense, a.net + b.net)
  }

  /** The panels of a list of members added up. */
  function StatsOver(rs: seq<Record>, ms: seq<string>): Totals {
    if ms == [] then Totals(0.0, 0.0, 0.0) else AddTotals(ExactMemberStats(rs, ms[0]), StatsOver(rs, ms[1..]))
  }

  lemma {:induction false} StatsOverKeyed(rs: seq<Record>, ms: seq<string>)
    ensures StatsOver(rs, ms).income == KeyedSum(rs, MemberOf, ms, OfKind(Income), AmountOf)
    ensures StatsOver(rs, ms).expense == KeyedSum(rs, MemberOf, ms, OfKind(Expense), AmountOf)
    ensures StatsOver(rs, ms).net == StatsOver(rs, ms).income - StatsOver(rs, ms).expense
  {
    if ms != [] {
      StatsOverKeyed(rs, ms[1..]);
    }
  }

  /** Every record belongs to exactly one member: the members' panels add up to the totals of all records. */
  lemma MemberStatsPartition(rs: seq<Record>)
    ensures StatsOver(rs, Members(rs)) == TotalsOf(rs)
  {
    StatsOverKeyed(rs, Members(rs));
    GroupsPartition(rs, MemberOf, OfKind(Income), AmountOf);
    GroupsPartition(rs, MemberOf, OfKind(Expense), AmountOf);
  }

  /** On the current page, when every record is named, the listed members' panels add up to the panel for `''`. */
  lemma MemberStatsAddUp(rs: seq<Record>)
    requires forall i :: 0 <= i < |rs| ==> rs[i].member != ""
    ensures forall m :: m in Members(rs) ==> MemberStats(rs, m) == ExactMemberStats(rs, m)
    ensures StatsOver(rs, Members(rs)) == MemberStats(rs, "")
  {
    MembersSpec(rs);
    MemberStatsPartition(rs);
  }

  /** The first by-name page's mock: 張三 has the first and the third record. */
  lemma LegacyMockZhangRecords()
    ensures OfMember(LegacyByNameRecords(), "張三") == [LegacyByNameRecords()[0], LegacyByNameRecords()[2]]
  {
    var rs := LegacyByNameRecords();
    assert MemberOf(rs[0]) == "張三" && MemberOf(rs[1]) != "張三" && MemberOf(rs[2]) == "張三" && MemberOf(rs[3]) != "張三";
    FilterFour(rs[0], rs[1], rs[2], rs[3], HasKey(MemberOf, "張三"));
  }

  /** On that mock, 張三 has income 500, expense 200 and net 300. */
  lemma LegacyMockZhang()
    ensures ExactMemberStats(LegacyByNameRecords(), "張三") == Totals(500.0, 200.0, 300.0)
  {
    var rs := LegacyByNameRecords();
    LegacyMockZhangRecords();
    var a, b := rs[0], rs[2];
    assert [a, b] == [a] + [b];
    SumKindSnoc([a], b, Income);
    SumKindSnoc([a], b, Expense);
    SumKindSnoc([], a, Income);
    SumKindSnoc([], a, Expense);
  }
}
