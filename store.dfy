/**
 * The in-memory record service: a module-level list of records that the
 * service's functions read, append to, patch and filter.
 */
module Store {
  import opened Wrappers
  import opened Seqs
  import opened Ledger
  import opened Monthly

  /** What a caller hands to `addRecord`: a record without `_id` (its `time` is replaced). */
  datatype Draft = Draft(
    time: DateTime,
    member: string,
    item: string,
    details: string,
    location: string,
    unitPrice: Option<real>,
    quantity: Option<int>,
    totalAmount: real,
    kind: Kind)

  /**
   * A `Partial<FinancialRecord>`: every field may be absent (None). A present
   * `unitPrice` or `quantity` is itself a number that may be NaN.
   */
  datatype Patch = Patch(
    id: Option<string>,
    time: Option<DateTime>,
    member: Option<string>,
    item: Option<string>,
    details: Option<string>,
    location: Option<string>,
    unitPrice: Option<Option<real>>,
    quantity: Option<Option<int>>,
    totalAmount: Option<real>,
    kind: Option<Kind>)

  datatype StoreError = NotFound

  /** `{ ...record, _id: id, time: now }`. */
  function Stamp(d: Draft, id: string, now: DateTime): (r: Record)
    ensures r.id == id && r.time == now
    ensures r.member == d.member && r.item == d.item && r.details == d.details && r.location == d.location
    ensures r.unitPrice == d.unitPrice && r.quantity == d.quantity
    ensures r.totalAmount == d.totalAmount && r.kind == d.kind
  {
    Record(id, now, d.member, d.item, d.details, d.location, d.unitPrice, d.quantity, d.totalAmount, d.kind)
  }

  /** The draft a record came from, with its own time. */
  function DraftOf(r: Record): Draft {
    Draft(r.time, r.member, r.item, r.details, r.location, r.unitPrice, r.quantity, r.totalAmount, r.kind)
  }

  /** Stamping keeps everything the caller gave except the time, and takes nothing else from elsewhere. */
  lemma StampRoundTrip(d: Draft, id: string, now: DateTime)
    ensures DraftOf(Stamp(d, id, now)) == d.(time := now)
    ensures Stamp(DraftOf(Stamp(d, id, now)), id, now) == Stamp(d, id, now)
  {
  }

  /** `{ ...old, ...patch, time: now }`: present patch fields win, the time is always now. */
  function Merge(prev: Record, p: Patch, now: DateTime): Record {
    Record(
      p.id.GetOr(prev.id),
      now,
      p.member.GetOr(prev.member),
      p.item.GetOr(prev.item),
      p.details.GetOr(prev.details),
      p.location.GetOr(prev.location),
      p.unitPrice.GetOr(prev.unitPrice),
      p.quantity.GetOr(prev.quantity),
      p.totalAmount.GetOr(prev.totalAmount),
      p.kind.GetOr(prev.kind))
  }

  /**
   * What an update does to one record: each present field of the patch
   * replaces the stored one, each absent field keeps it (the stored total
   * is not re-derived from a patched price or quantity), the time becomes
   * `now` even when the patch brings its own, and the id may be patched too.
   */
  lemma MergeFields(prev: Record, p: Patch, now: DateTime)
    ensures var r := Merge(prev, p, now);
      && r.time == now
      && (p.id.Some? ==> r.id == p.id.value) && (p.id.None? ==> r.id == prev.id)
      && (p.member.Some? ==> r.member == p.member.value) && (p.member.None? ==> r.member == prev.member)
      && (p.item.Some? ==> r.item == p.item.value) && (p.item.None? ==> r.item == prev.item)
      && (p.details.Some? ==> r.details == p.details.value) && (p.details.None? ==> r.details == prev.details)
      && (p.location.Some? ==> r.location == p.location.value) && (p.location.None? ==> r.location == prev.location)
      && (p.unitPrice.Some? ==> r.unitPrice == p.unitPrice.value) && (p.unitPrice.None? ==> r.unitPrice == prev.unitPrice)
      && (p.quantity.Some? ==> r.quantity == p.quantity.value) && (p.quantity.None? ==> r.quantity == prev.quantity)
      && (p.totalAmount.Some? ==> r.totalAmount == p.totalAmount.value) && (p.totalAmount.None? ==> r.totalAmount == prev.totalAmount)
      && (p.kind.Some? ==> r.kind == p.kind.value) && (p.kind.None? ==> r.kind == prev.kind)
  {
  }

  const EmptyPatch := Patch(None, None, None, None, None, None, None, None, None, None)

  /** An empty patch only refreshes the time; applying a patch twice is applying it once. */
  lemma MergeLaws(prev: Record, p: Patch, now: DateTime, later: DateTime)
    ensures Merge(prev, EmptyPatch, now) == prev.(time := now)
    ensures Merge(Merge(prev, p, now), p, later) == Merge(prev, p, later)
  {
  }

  /** `records.findIndex(r => r._id === id)`, with -1 as None. */
  function FindIndex(rs: seq<Record>, id: string): (r: Option<nat>)
    ensures r.Some? ==> r.value < |rs| && rs[r.value].id == id && forall j :: 0 <= j < r.value ==> rs[j].id != id
    ensures r.None? ==> forall j :: 0 <= j < |rs| ==> rs[j].id != id
  {
    if rs == [] then None
    else if rs[0].id == id then Some(0)
    else match FindIndex(rs[1..], id)
      case None => None
      case Some(i) => Some(i + 1)
  }

  /** `[...records.slice(0, index), updated, ...records.slice(index + 1)]`. */
  function Replace(rs: seq<Record>, i: nat, r: Record): (s: seq<Record>)
    requires i < |rs|
    ensures s == rs[i := r]
  {
    rs[..i] + [r] + rs[i + 1..]
  }

  ghost predicate UniqueIds(rs: seq<Record>) {
    forall i, j :: 0 <= i < j < |rs| ==> rs[i].id != rs[j].id
  }

  /** Putting the first record in front of records taken from the rest keeps ids unique. */
  lemma ConsKeepsUniqueIds(rs: seq<Record>, t: seq<Record>)
    requires rs != [] && UniqueIds(rs) && UniqueIds(t)
    requires forall i :: 0 <= i < |t| ==> t[i] in rs[1..]
    ensures UniqueIds([rs[0]] + t)
  {
    var r := [rs[0]] + t;
    forall i, j | 0 <= i < j < |r| ensures r[i].id != r[j].id {
      if i == 0 {
        assert r[j] == t[j - 1];
        var m :| 0 <= m < |rs[1..]| && rs[1..][m] == r[j];
        assert rs[m + 1] == r[j];
      } else {
        assert r[i] == t[i - 1] && r[j] == t[j - 1];
      }
    }
  }

  /** Keeping some of the records never makes two of them share an id. */
  lemma {:induction false} FilterKeepsUniqueIds(rs: seq<Record>, p: Record -> bool)
    requires UniqueIds(rs)
    ensures UniqueIds(Filter(rs, p))
  {
    if rs != [] {
      var t := Filter(rs[1..], p);
      assert UniqueIds(rs[1..]);
      FilterKeepsUniqueIds(rs[1..], p);
      if p(rs[0]) {
        assert Filter(rs, p) == [rs[0]] + t;
        ConsKeepsUniqueIds(rs, t);
      } else {
        assert Filter(rs, p) == t;
      }
    }
  }

  function HasId(rs: seq<Record>, id: string): bool {
    FindIndex(rs, id).Some?
  }

  /** The three records the service starts with. */
  function SeedRecords(): seq<Record> {
    [ Record("1", DateTime(2024, 1, 15, 37_800_000), "張三", "課程費用", "瑜伽課程", "台北市", Some(500.0), Some(1), 500.0, Income),
      Record("2", DateTime(2024, 1, 16, 51_600_000), "李四", "器材購買", "瑜伽墊", "台北市", Some(149.94), Some(1), 149.94, Expense),
      Record("3", DateTime(2024, 2, 10, 33_300_000), "王五", "課程費用", "私人教練", "台北市", Some(800.0), Some(1), 800.0, Income) ]
  }

  class RecordStore {
    var records: seq<Record>

    /** The module-level list as it is initialised. */
    constructor()
      ensures records == SeedRecords()
      ensures UniqueIds(records)
    {
      records := SeedRecords();
    }

    /** `getRecords`: the list itself. */
    method GetRecords() returns (rs: seq<Record>)
      ensures rs == records
    {
      rs := records;
    }

    /** `getRecordById`: the first record with that id, if any. */
    function GetRecordById(id: string): (r: Option<Record>)
      reads this
      ensures r.Some? ==> r.value.id == id && exists i :: 0 <= i < |records| && records[i] == r.value && forall j :: 0 <= j < i ==> records[j].id != id
      ensures r.None? <==> forall i :: 0 <= i < |records| ==> records[i].id != id
    {
      match FindIndex(records, id)
      case None => None
      case Some(i) => Some(records[i])
    }

    /** `addRecord`: the draft stamped with the fresh id and the current time, appended at the end. */
    method AddRecord(d: Draft, freshId: string, now: DateTime) returns (r: Record)
      modifies this
      ensures r == Stamp(d, freshId, now)
      ensures records == old(records) + [r]
      ensures UniqueIds(old(records)) && !HasId(old(records), freshId) ==> UniqueIds(records)
    {
      r := Stamp(d, freshId, now);
      records := records + [r];
    }

    /**
     * `updateRecord`: the first record with that id is replaced by its merge
     * with the patch; an unknown id is the error 'Record not found' and
     * changes nothing.
     */
    method UpdateRecord(id: string, p: Patch, now: DateTime) returns (res: Result<Record, StoreError>)
      modifies this
      ensures FindIndex(old(records), id).None? ==> res == Err(NotFound) && records == old(records)
      ensures FindIndex(old(records), id).Some? ==>
        var i := FindIndex(old(records), id).value;
        && res == Ok(Merge(old(records)[i], p, now))
        && records == old(records)[i := res.value]
      ensures |records| == |old(records)|
      ensures UniqueIds(old(records)) && p.id.None? ==> UniqueIds(records)
    {
      var index := FindIndex(records, id);
      if index.None? {
        return Err(NotFound);
      }
      var updated := Merge(records[index.value], p, now);
      records := Replace(records, index.value, updated);
      res := Ok(updated);
    }

    /** `deleteRecord`: every record with that id is dropped, the others keep their order. */
    method DeleteRecord(id: string)
      modifies this
      ensures records == WithoutId(old(records), id)
      ensures !HasId(records, id)
      ensures UniqueIds(old(records)) ==> UniqueIds(records)
    {
      WithoutIdSpec(records, id);
      if UniqueIds(records) {
        FilterKeepsUniqueIds(records, IdIsNot(id));
      }
      records := WithoutId(records, id);
    }

    /** `getMonthlyStats`: the monthly trend of the current list. */
    method GetMonthlyStats() returns (stats: seq<MonthlyStat>)
      ensures stats == MonthlyStats(records)
    {
      stats := MonthlyStatsDeferredNet(records);
    }
  }
}
