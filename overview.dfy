/**
 * The record list pages: the search box over four text fields, the income,
 * expense and net cards computed from what the search keeps, and delete.
 */
module Overview {
  import opened Wrappers
  import opened Seqs
  import opened Text
  import opened Ledger
  import opened Pages

  /** `field.toLowerCase().includes(term.toLowerCase())`. */
  predicate Mentions(field: string, term: string) {
    Contains(Lower(field), Lower(term))
  }

  /** A record matches when its member, item, details or location mentions the term. */
  function Matching(term: string): Record -> bool {
    (r: Record) => Mentions(r.member, term) || Mentions(r.item, term) || Mentions(r.details, term) || Mentions(r.location, term)
  }

  /**
   * The search effect: a term that is blank once trimmed keeps every record;
   * otherwise the untrimmed term is matched.
   */
  function Search(rs: seq<Record>, term: string): seq<Record> {
    if Trim(term) == "" then rs else Filter(rs, Matching(term))
  }

  /** What the search keeps, in both directions, in the original order. */
  lemma SearchSpec(rs: seq<Record>, term: string)
    ensures IsSubseq(Search(rs, term), rs)
    ensures AllSpace(term) ==> Search(rs, term) == rs
    ensures !AllSpace(term) ==> forall i :: 0 <= i < |rs| ==> Matching(term)(rs[i]) ==> rs[i] in Search(rs, term)
    ensures !AllSpace(term) ==> forall r :: r in Search(rs, term) ==> r in rs && Matching(term)(r)
  {
    TrimEmptyIffBlank(term);
    if AllSpace(term) {
      FilterAll(rs, Everything());
      FilterIsSubseq(rs, Everything());
    } else {
      FilterIsSubseq(rs, Matching(term));
      forall r | r in Search(rs, term) ensures r in rs && Matching(term)(r) {
        var j :| 0 <= j < |Search(rs, term)| && Search(rs, term)[j] == r;
      }
    }
  }

  /** Matching ignores the case of ASCII letters on both sides. */
  lemma MentionsIgnoresCase(field: string, term: string)
    ensures Mentions(field, term) == Mentions(Lower(field), Lower(term))
  {
    LowerIdempotent(field);
    LowerIdempotent(term);
  }

  /** Searching again with the same term changes nothing. */
  lemma SearchIdempotent(rs: seq<Record>, term: string)
    ensures Search(Search(rs, term), term) == Search(rs, term)
  {
    if Trim(term) != "" {
      var f := Filter(rs, Matching(term));
      forall r | r in f ensures Matching(term)(r) {
        var j :| 0 <= j < |f| && f[j] == r;
      }
      FilterAll(f, Matching(term));
    }
  }

  /** A field that never has the term's first character, a character case does not change, does not mention the term. */
  lemma Unmentioned(field: string, term: string)
    requires term != [] && !('A' <= term[0] <= 'Z') && !('a' <= term[0] <= 'z')
    requires forall i :: 0 <= i < |field| ==> field[i] != term[0]
    ensures !Mentions(field, term)
  {
    ContainsNeedsFirst(Lower(field), Lower(term));
  }

  /** The default records against a term starting with `c`, when no field of the second record has `c`. */
  lemma UnmentionedSecond(term: string)
    requires term != [] && term[0] in {' ', '張'}
    ensures !Matching(term)(DefaultRecords()[1])
  {
    var r := DefaultRecords()[1];
    Unmentioned(r.member, term);
    Unmentioned(r.item, term);
    Unmentioned(r.details, term);
    Unmentioned(r.location, term);
  }

  /** A non-blank search over two records keeps those that match, in order. */
  lemma SearchPair(a: Record, b: Record, term: string)
    requires !AllSpace(term)
    ensures Search([a, b], term) == (if Matching(term)(a) then [a] else []) + (if Matching(term)(b) then [b] else [])
  {
    TrimEmptyIffBlank(term);
    assert [a, b] == [a] + [b];
    FilterSnoc([a], b, Matching(term));
    FilterSnoc([], a, Matching(term));
  }

  /** The term is trimmed only for the blank test: a name with a leading space matches nothing. */
  lemma PaddedNameFindsNothing()
    ensures Search(DefaultRecords(), " 張三") == []
  {
    var rs, term := DefaultRecords(), " 張三";
    assert !IsJsSpace(term[1]);
    Unmentioned(rs[0].member, term);
    Unmentioned(rs[0].item, term);
    Unmentioned(rs[0].details, term);
    Unmentioned(rs[0].location, term);
    UnmentionedSecond(term);
    SearchPair(rs[0], rs[1], term);
  }

  /** The bare name finds exactly the record of that member. */
  lemma BareNameFindsRecord()
    ensures Search(DefaultRecords(), "張三") == [DefaultRecords()[0]]
  {
    var rs, term := DefaultRecords(), "張三";
    assert !IsJsSpace(term[0]);
    assert Lower(term) == term && Lower(rs[0].member) == term;
    assert StartsWith(Lower(rs[0].member), Lower(term));
    UnmentionedSecond(term);
    SearchPair(rs[0], rs[1], term);
  }

  // ---- The summary cards ----

  datatype Totals = Totals(income: real, expense: real, net: real)

  /** `totalIncome`, `totalExpense` and `netAmount = totalIncome - totalExpense`. */
  function TotalsOf(rs: seq<Record>): Totals {
    Totals(SumKind(rs, Income), SumKind(rs, Expense), SumKind(rs, Income) - SumKind(rs, Expense))
  }

  /**
   * The cards add up: income and expense together are every amount, the
   * totals of two lists joined are the sums of their totals, and an empty
   * list shows zero everywhere.
   */
  lemma TotalsSpec(a: seq<Record>, b: seq<Record>)
    ensures TotalsOf(a).income + TotalsOf(a).expense == Total(a)
    ensures TotalsOf(a).net == TotalsOf(a).income - TotalsOf(a).expense
    ensures TotalsOf(a + b) == Totals(TotalsOf(a).income + TotalsOf(b).income,
                                      TotalsOf(a).expense + TotalsOf(b).expense,
                                      TotalsOf(a).net + TotalsOf(b).net)
    ensures TotalsOf([]) == Totals(0.0, 0.0, 0.0)
  {
    KindsPartitionTotal(a);
    SumKindAppend(a, b, Income);
    SumKindAppend(a, b, Expense);
  }

  lemma SumKindAppend(a: seq<Record>, b: seq<Record>, kind: Kind)
    ensures SumKind(a + b, kind) == SumKind(a, kind) + SumKind(b, kind)
  {
    FilterAppend(a, b, OfKind(kind));
    TotalAppend(Filter(a, OfKind(kind)), Filter(b, OfKind(kind)));
  }

  /** The first list page's cards on its two mock records. */
  lemma DefaultTotals()
    ensures TotalsOf(DefaultRecords()) == Totals(500.0, 149.94, 350.06)
  {
    var rs := DefaultRecords();
    assert rs == [rs[0]] + [rs[1]];
    SumKindSnoc([rs[0]], rs[1], Income);
    SumKindSnoc([rs[0]], rs[1], Expense);
    SumKindSnoc([], rs[0], Income);
    SumKindSnoc([], rs[0], Expense);
  }

  /** What the list page shows for the stored list and a search term. */
  datatype ListView = ListView(shown: seq<Record>, totals: Totals)

  function ListViewOf(saved: Option<seq<Record>>, term: string): (v: ListView)
    ensures v.shown == Search(LoadRecords(saved), term) && v.totals == TotalsOf(v.shown)
  {
    var shown := Search(LoadRecords(saved), term);
    ListView(shown, TotalsOf(shown))
  }

  /** Deleting and searching commute, so the list after a delete shows the same as searching the shortened list. */
  lemma DeleteThenSearch(rs: seq<Record>, id: string, term: string)
    ensures Search(WithoutId(rs, id), term) == WithoutId(Search(rs, term), id)
  {
    if Trim(term) != "" {
      FilterCommutes(rs, IdIsNot(id), Matching(term));
    }
  }

  /** A delete never touches what a failed lookup would not find, and removes every copy of the id. */
  lemma HandleDeleteSpec(saved: Option<seq<Record>>, id: string)
    requires saved.Some?
    ensures IsSubseq(HandleDelete(saved, id).value, saved.value)
    ensures forall r :: r in HandleDelete(saved, id).value ==> r.id != id
    ensures forall r :: r in saved.value && r.id != id ==> r in HandleDelete(saved, id).value
  {
    WithoutIdSpec(saved.value, id);
    var w := WithoutId(saved.value, id);
    forall r | r in w ensures r.id != id {
      var j :| 0 <= j < |w| && w[j] == r;
    }
    forall r | r in saved.value && r.id != id ensures r in w {
      var j :| 0 <= j < |saved.value| && saved.value[j] == r;
    }
  }
}
