/**
 * What the pages share: the stored record list (absent when nothing was ever
 * saved), the default records a page falls back on, and the mock data of the
 * first generation's pages.
 */
module Pages {
  import opened Wrappers
  import opened Seqs
  import opened Ledger

  /** A record as the mock lists write it: one unit, a price equal to the total, location 台北市. */
  function Mock(id: string, time: DateTime, member: string, item: string, details: string, amount: real, kind: Kind): (r: Record)
    ensures r.id == id && r.time == time && r.member == member && r.item == item && r.details == details
    ensures r.totalAmount == amount && r.kind == kind && r.unitPrice == Some(amount) && r.quantity == Some(1)
  {
    Record(id, time, member, item, details, "台北市", Some(amount), Some(1), amount, kind)
  }

  /** The two default records of the list, by-name and report pages (and the mock of the first list page). */
  function DefaultRecords(): seq<Record> {
    [ Mock("1", DateTime(2024, 1, 15, 37_800_000), "張三", "課程費用", "瑜伽課程", 500.0, Income),
      Mock("2", DateTime(2024, 1, 16, 51_600_000), "李四", "器材購買", "瑜伽墊", 149.94, Expense) ]
  }

  /** The saved list when storage holds one, the default records otherwise. */
  function LoadRecords(saved: Option<seq<Record>>): (rs: seq<Record>)
    ensures saved.Some? ==> rs == saved.value
    ensures saved.None? ==> rs == DefaultRecords()
  {
    if saved.Some? then saved.value else DefaultRecords()
  }

  /** What a page load leaves: the records the page shows and what storage then holds. */
  datatype Loaded = Loaded(records: seq<Record>, stored: Option<seq<Record>>)

  /**
   * The list page's load: the records it shows, and, when nothing was stored,
   * the default records written to storage, so that storage then always
   * holds the list the page shows.
   */
  function LoadListPage(saved: Option<seq<Record>>): (l: Loaded)
    ensures l.records == LoadRecords(saved)
    ensures l.stored == Some(l.records)
    ensures saved.Some? ==> l.stored == saved
    ensures saved.None? ==> l.stored == Some(DefaultRecords())
  {
    match saved
    case Some(rs) => Loaded(rs, saved)
    case None => Loaded(DefaultRecords(), Some(DefaultRecords()))
  }

  /**
   * A delete after the list page's load always writes back the shown list
   * without that id; after a first load with empty storage, deleting
   * record "1" stores record "2" alone.
   */
  lemma DeleteAfterListLoad(saved: Option<seq<Record>>, id: string)
    ensures HandleDelete(LoadListPage(saved).stored, id) == Some(WithoutId(LoadRecords(saved), id))
    ensures HandleDelete(LoadListPage(None).stored, "1") == Some([DefaultRecords()[1]])
  {
    var d, p := DefaultRecords(), IdIsNot("1");
    assert d == [d[0]] + [d[1]] && [d[0]] == [] + [d[0]];
    FilterSnoc([], d[0], p);
    assert !p(d[0]) && p(d[1]);
    FilterSnoc([d[0]], d[1], p);
    assert WithoutId(d, "1") == Filter(d, p) == [d[1]];
  }

  /**
   * `handleDelete`: the stored list without the records of that id, written
   * back; with nothing stored, nothing happens.
   */
  function HandleDelete(saved: Option<seq<Record>>, id: string): (r: Option<seq<Record>>)
    ensures saved.None? <==> r.None?
    ensures saved.Some? ==> r.value == WithoutId(saved.value, id)
  {
    match saved
    case None => None
    case Some(rs) => Some(WithoutId(rs, id))
  }

  /** The five records of the first generation's report page. */
  function LegacyReportRecords(): seq<Record> {
    [ Mock("1", DateTime(2024, 1, 15, 37_800_000), "張三", "課程費用", "瑜伽課程", 500.0, Income),
      Mock("2", DateTime(2024, 1, 16, 51_600_000), "李四", "器材購買", "瑜伽墊", 149.94, Expense),
      Mock("3", DateTime(2024, 2, 17, 33_300_000), "張三", "器材購買", "瑜伽球", 200.0, Expense),
      Mock("4", DateTime(2024, 2, 18, 60_300_000), "王五", "課程費用", "私人教練課程", 800.0, Income),
      Mock("5", DateTime(2024, 3, 20, 39_600_000), "趙六", "課程費用", "團體課程", 300.0, Income) ]
  }

  /** The four records of the first generation's by-name page. */
  function LegacyByNameRecords(): seq<Record> {
    [ Mock("1", DateTime(2024, 1, 15, 37_800_000), "張三", "課程費用", "瑜伽課程", 500.0, Income),
      Mock("2", DateTime(2024, 1, 16, 51_600_000), "李四", "器材購買", "瑜伽墊", 149.94, Expense),
      Mock("3", DateTime(2024, 1, 17, 33_300_000), "張三", "器材購買", "瑜伽球", 200.0, Expense),
      Mock("4", DateTime(2024, 1, 18, 60_300_000), "王五", "課程費用", "私人教練課程", 800.0, Income) ]
  }
}
