/**
 * The ledger's data model (the `FinancialRecord` interface) and the sums and
 * groupings every page computes from a list of records.
 */
module Ledger {
  import opened Wrappers
  import opened Seqs

  /** A record's `type`: exactly one of `'income'` and `'expense'`. */
  datatype Kind = Income | Expense

  /**
   * A timestamp as the local calendar fields `new Date(record.time)` yields:
   * the year, the month 1..12, the day of the month and the milliseconds
   * since local midnight.
   */
  datatype DateTime = DateTime(year: int, month: int, day: int, millis: int)

  /**
   * One ledger entry. `unitPrice` and `quantity` hold JavaScript numbers that
   * may be NaN (None) when the add form parsed unreadable text into them;
   * `totalAmount` is stored as given and never re-derived.
   */
  datatype Record = Record(
    id: string,
    time: DateTime,
    member: string,
    item: string,
    details: string,
    location: string,
    unitPrice: Option<real>,
    quantity: Option<int>,
    totalAmount: real,
    kind: Kind)

  function MemberOf(r: Record): string { r.member }
  function ItemOf(r: Record): string { r.item }
  function AmountOf(r: Record): real { r.totalAmount }
  function One(r: Record): real { 1.0 }

  /** `record.type === kind`. */
  function OfKind(kind: Kind): Record -> bool {
    (r: Record) => r.kind == kind
  }

  /** The records whose `key` field equals `k` exactly. */
  function HasKey(key: Record -> string, k: string): Record -> bool {
    (r: Record) => key(r) == k
  }

  /** `r._id !== id`, the predicate every delete filters with. */
  function IdIsNot(id: string): Record -> bool {
    (r: Record) => r.id != id
  }

  function Everything(): Record -> bool {
    (r: Record) => true
  }

  /** `reduce((sum, r) => sum + r.totalAmount, 0)`. */
  function Total(rs: seq<Record>): real {
    SumBy(rs, AmountOf)
  }

  /** `filter(r => r.type === kind).reduce(...)`: the sum of one kind's amounts. */
  function SumKind(rs: seq<Record>, kind: Kind): real {
    Total(Filter(rs, OfKind(kind)))
  }

  lemma TotalAppend(a: seq<Record>, b: seq<Record>)
    ensures Total(a + b) == Total(a) + Total(b)
  {
    SumByAppend(a, b, AmountOf);
  }

  /** Every record is either income or expense, so the two kinds' sums make up the total. */
  lemma {:induction false} KindsPartitionTotal(rs: seq<Record>)
    ensures SumKind(rs, Income) + SumKind(rs, Expense) == Total(rs)
  {
    if rs != [] {
      var x, t := rs[0], rs[1..];
      KindsPartitionTotal(t);
      var hi, he := if x.kind == Income then [x] else [], if x.kind == Expense then [x] else [];
      assert Filter(rs, OfKind(Income)) == hi + Filter(t, OfKind(Income));
      assert Filter(rs, OfKind(Expense)) == he + Filter(t, OfKind(Expense));
      SumByAppend(hi, Filter(t, OfKind(Income)), AmountOf);
      SumByAppend(he, Filter(t, OfKind(Expense)), AmountOf);
    }
  }

  lemma SumKindEmpty(kind: Kind)
    ensures SumKind([], kind) == 0.0
  {
  }

  /** Summing over a filter after appending one record. */
  lemma SumFilterSnoc(rs: seq<Record>, x: Record, p: Record -> bool, f: Record -> real)
    ensures SumBy(Filter(rs + [x], p), f) == SumBy(Filter(rs, p), f) + (if p(x) then f(x) else 0.0)
  {
    FilterSnoc(rs, x, p);
    SumByAppend(Filter(rs, p), if p(x) then [x] else [], f);
  }

  lemma SumKindSnoc(rs: seq<Record>, x: Record, kind: Kind)
    ensures SumKind(rs + [x], kind) == SumKind(rs, kind) + (if x.kind == kind then x.totalAmount else 0.0)
  {
    SumFilterSnoc(rs, x, OfKind(kind), AmountOf);
  }

  /** `SumBy` of the constant 1 counts. */
  lemma {:induction false} SumOneIsLength(rs: seq<Record>)
    ensures SumBy(rs, One) == |rs| as real
  {
    if rs != [] {
      SumOneIsLength(rs[1..]);
    }
  }

  /** `records.map(key)`. */
  function Project(rs: seq<Record>, key: Record -> string): (r: seq<string>)
    ensures |r| == |rs| && forall i :: 0 <= i < |rs| ==> r[i] == key(rs[i])
  {
    if rs == [] then [] else [key(rs[0])] + Project(rs[1..], key)
  }

  /** The distinct values of `key` in order of first appearance: `Array.from(new Set(records.map(key)))`. */
  function Keys(rs: seq<Record>, key: Record -> string): seq<string> {
    Distinct(Project(rs, key))
  }

  lemma ProjectSnoc(rs: seq<Record>, x: Record, key: Record -> string)
    ensures Project(rs + [x], key) == Project(rs, key) + [key(x)]
  {
  }

  lemma KeysSnoc(rs: seq<Record>, x: Record, key: Record -> string)
    ensures Keys(rs + [x], key) == if key(x) in Project(rs, key) then Keys(rs, key) else Keys(rs, key) + [key(x)]
  {
    ProjectSnoc(rs, x, key);
    DistinctSnoc(Project(rs, key), key(x));
  }

  /** A value is a key exactly when some record carries it. */
  lemma KeysMembership(rs: seq<Record>, key: Record -> string, k: string)
    ensures k in Keys(rs, key) <==> exists i :: 0 <= i < |rs| && key(rs[i]) == k
  {
    var ps := Project(rs, key);
    if k in Keys(rs, key) {
      var j :| 0 <= j < |Keys(rs, key)| && Keys(rs, key)[j] == k;
      var i :| 0 <= i < |ps| && ps[i] == k;
      assert key(rs[i]) == k;
    }
    if exists i :: 0 <= i < |rs| && key(rs[i]) == k {
      var i :| 0 <= i < |rs| && key(rs[i]) == k;
      assert ps[i] == k;
    }
  }

  /** The records with that id removed, the rest kept in order (`records.filter(r => r._id !== id)`). */
  function WithoutId(rs: seq<Record>, id: string): seq<Record> {
    Filter(rs, IdIsNot(id))
  }

  /** What a delete keeps: exactly the records with another id, in their order; nothing when the id is absent is lost. */
  lemma WithoutIdSpec(rs: seq<Record>, id: string)
    ensures IsSubseq(WithoutId(rs, id), rs)
    ensures forall i :: 0 <= i < |WithoutId(rs, id)| ==> WithoutId(rs, id)[i].id != id
    ensures forall i :: 0 <= i < |rs| && rs[i].id != id ==> rs[i] in WithoutId(rs, id)
    ensures (forall i :: 0 <= i < |rs| ==> rs[i].id != id) ==> WithoutId(rs, id) == rs
  {
    FilterIsSubseq(rs, IdIsNot(id));
    if forall i :: 0 <= i < |rs| ==> rs[i].id != id {
      FilterAll(rs, IdIsNot(id));
    }
  }

  // ---- Grouping: the per-key sums of the accumulator loops add up to the whole. ----

  /** The sum of `f` over the records with key `k` that also satisfy `q`. */
  function GroupSum(rs: seq<Record>, key: Record -> string, k: string, q: Record -> bool, f: Record -> real): real {
    SumBy(Filter(Filter(rs, HasKey(key, k)), q), f)
  }

  /** `GroupSum` added up over a list of keys. */
  function KeyedSum(rs: seq<Record>, key: Record -> string, ks: seq<string>, q: Record -> bool, f: Record -> real): real {
    if ks == [] then 0.0 else GroupSum(rs, key, ks[0], q, f) + KeyedSum(rs, key, ks[1..], q, f)
  }

  lemma GroupSumSnoc(rs: seq<Record>, x: Record, key: Record -> string, k: string, q: Record -> bool, f: Record -> real)
    ensures GroupSum(rs + [x], key, k, q, f)
         == GroupSum(rs, key, k, q, f) + (if key(x) == k && q(x) then f(x) else 0.0)
  {
    FilterSnoc(rs, x, HasKey(key, k));
    FilterAppend(Filter(rs, HasKey(key, k)), if key(x) == k then [x] else [], q);
    var tail := if key(x) == k then [x] else [];
    assert Filter(tail, q) == if key(x) == k && q(x) then [x] else [];
    SumByAppend(Filter(Filter(rs, HasKey(key, k)), q), Filter(tail, q), f);
  }

  lemma {:induction false} KeyedSumSnoc(rs: seq<Record>, x: Record, key: Record -> string, ks: seq<string>, q: Record -> bool, f: Record -> real)
    requires NoDup(ks)
    ensures KeyedSum(rs + [x], key, ks, q, f)
         == KeyedSum(rs, key, ks, q, f) + (if key(x) in ks && q(x) then f(x) else 0.0)
  {
    if ks != [] {
      assert NoDup(ks[1..]);
      KeyedSumSnoc(rs, x, key, ks[1..], q, f);
      GroupSumSnoc(rs, x, key, ks[0], q, f);
      assert key(x) in ks <==> key(x) == ks[0] || key(x) in ks[1..];
      if key(x) == ks[0] {
        assert key(x) !in ks[1..];
      }
    }
  }

  lemma {:induction false} KeyedSumAppendKey(rs: seq<Record>, key: Record -> string, ks: seq<string>, k: string, q: Record -> bool, f: Record -> real)
    ensures KeyedSum(rs, key, ks + [k], q, f) == KeyedSum(rs, key, ks, q, f) + GroupSum(rs, key, k, q, f)
  {
    if ks == [] {
      assert [k][1..] == [];
    } else {
      assert (ks + [k])[1..] == ks[1..] + [k];
      KeyedSumAppendKey(rs, key, ks[1..], k, q, f);
    }
  }

  lemma GroupSumAbsent(rs: seq<Record>, key: Record -> string, k: string, q: Record -> bool, f: Record -> real)
    requires k !in Project(rs, key)
    ensures GroupSum(rs, key, k, q, f) == 0.0
  {
    if Filter(rs, HasKey(key, k)) != [] {
      assert false;
    }
  }

  /** Appending a record adds its share to the sum over the keys, whether its key is new or not. */
  lemma KeyedSumKeysSnoc(t: seq<Record>, x: Record, key: Record -> string, q: Record -> bool, f: Record -> real)
    ensures KeyedSum(t + [x], key, Keys(t + [x], key), q, f)
         == KeyedSum(t, key, Keys(t, key), q, f) + (if q(x) then f(x) else 0.0)
  {
    var ks := Keys(t, key);
    KeysSnoc(t, x, key);
    KeyedSumSnoc(t, x, key, ks, q, f);
    if key(x) in Project(t, key) {
      assert key(x) in ks;
    } else {
      assert key(x) !in ks;
      KeyedSumAppendKey(t + [x], key, ks, key(x), q, f);
      GroupSumSnoc(t, x, key, key(x), q, f);
      GroupSumAbsent(t, key, key(x), q, f);
    }
  }

  /**
   * Every record falls in exactly one group: summing a quantity over the
   * groups of all keys gives its sum over all records.
   */
  lemma {:induction false} GroupsPartition(rs: seq<Record>, key: Record -> string, q: Record -> bool, f: Record -> real)
    ensures KeyedSum(rs, key, Keys(rs, key), q, f) == SumBy(Filter(rs, q), f)
  {
    if rs != [] {
      var t, x := rs[..|rs| - 1], rs[|rs| - 1];
      assert rs == t + [x];
      GroupsPartition(t, key, q, f);
      FilterSnoc(t, x, q);
      SumByAppend(Filter(t, q), if q(x) then [x] else [], f);
      KeyedSumKeysSnoc(t, x, key, q, f);
    }
  }

  // ---- Running sums: what an accumulator loop holds after its first `n` records. ----

  /** The sum of `f` over the first `n` records with key `k` satisfying `q`, added record by record. */
  function RunningSum(rs: seq<Record>, n: nat, key: Record -> string, k: string, q: Record -> bool, f: Record -> real): real
    requires n <= |rs|
  {
    if n == 0 then 0.0
    else RunningSum(rs, n - 1, key, k, q, f) + (if key(rs[n - 1]) == k && q(rs[n - 1]) then f(rs[n - 1]) else 0.0)
  }

  /** Accumulating record by record arrives at the group's sum over the prefix. */
  lemma {:induction false} RunningSumIsGroupSum(rs: seq<Record>, n: nat, key: Record -> string, k: string, q: Record -> bool, f: Record -> real)
    requires n <= |rs|
    ensures RunningSum(rs, n, key, k, q, f) == GroupSum(rs[..n], key, k, q, f)
  {
    if n > 0 {
      RunningSumIsGroupSum(rs, n - 1, key, k, q, f);
      assert rs[..n] == rs[..n - 1] + [rs[n - 1]];
      GroupSumSnoc(rs[..n - 1], rs[n - 1], key, k, q, f);
    } else {
      assert rs[..n] == [];
    }
  }

  /** A key none of the first `n` records has has nothing accumulated. */
  lemma RunningSumAbsent(rs: seq<Record>, n: nat, key: Record -> string, k: string, q: Record -> bool, f: Record -> real)
    requires n <= |rs|
    requires k !in Keys(rs[..n], key)
    ensures RunningSum(rs, n, key, k, q, f) == 0.0
  {
    KeysMembership(rs[..n], key, k);
    assert k !in Project(rs[..n], key);
    GroupSumAbsent(rs[..n], key, k, q, f);
    RunningSumIsGroupSum(rs, n, key, k, q, f);
  }

  /** One more record adds its key to the keys unless an earlier record has it already. */
  lemma KeysStep(rs: seq<Record>, x: Record, key: Record -> string)
    ensures Keys(rs + [x], key) == if key(x) in Keys(rs, key) then Keys(rs, key) else Keys(rs, key) + [key(x)]
  {
    KeysSnoc(rs, x, key);
    KeysMembership(rs, key, key(x));
    if key(x) in Project(rs, key) {
      var i :| 0 <= i < |rs| && Project(rs, key)[i] == key(x);
    }
  }

  /** The keys of one record more: the new record's key is appended unless an earlier record has it. */
  lemma KeysPrefixStep(rs: seq<Record>, n: nat, key: Record -> string)
    requires n < |rs|
    ensures Keys(rs[..n + 1], key)
         == if key(rs[n]) in Keys(rs[..n], key) then Keys(rs[..n], key) else Keys(rs[..n], key) + [key(rs[n])]
  {
    PrefixSnoc(rs, n);
    KeysStep(rs[..n], rs[n], key);
  }

  /** The keys the first `n` records have brought in, in the order a loop meets them. */
  function SeenKeys(rs: seq<Record>, n: nat, key: Record -> string): seq<string>
    requires n <= |rs|
  {
    if n == 0 then []
    else
      var ks := SeenKeys(rs, n - 1, key);
      if key(rs[n - 1]) in ks then ks else ks + [key(rs[n - 1])]
  }

  /** A loop's record of seen keys is the first-seen list of distinct keys of the prefix. */
  lemma {:induction false} SeenKeysAreKeys(rs: seq<Record>, n: nat, key: Record -> string)
    requires n <= |rs|
    ensures SeenKeys(rs, n, key) == Keys(rs[..n], key)
  {
    if n == 0 {
      assert rs[..0] == [];
    } else {
      SeenKeysAreKeys(rs, n - 1, key);
      KeysPrefixStep(rs, n - 1, key);
    }
  }

  /** A key none of the first `n` records has has nothing accumulated. */
  lemma {:induction false} RunningSumUnseen(rs: seq<Record>, n: nat, key: Record -> string, k: string, q: Record -> bool, f: Record -> real)
    requires n <= |rs|
    requires k !in SeenKeys(rs, n, key)
    ensures RunningSum(rs, n, key, k, q, f) == 0.0
  {
    if n > 0 {
      var ks := SeenKeys(rs, n - 1, key);
      assert k !in ks && key(rs[n - 1]) != k by {
        if key(rs[n - 1]) !in ks {
          assert SeenKeys(rs, n, key) == ks + [key(rs[n - 1])];
        }
      }
      RunningSumUnseen(rs, n - 1, key, k, q, f);
    }
  }
}
