/**
 * The add-record form: the price × quantity total with the `||` fallbacks for
 * unparsable input, the two-decimal rounding of `toFixed(2)`, and the submit
 * handler that appends the new record to the list kept in browser storage.
 *
 * `parseFloat` and `parseInt` are not modelled: their results are parameters,
 * `None` standing for NaN.
 */
module AddRecord {
  import opened Wrappers
  import opened Seqs
  import opened Ledger

  /** The form state: every input is the text the user typed; `kind` is the select. */
  datatype Form = Form(
    member: string,
    item: string,
    details: string,
    location: string,
    unitPrice: string,
    quantity: string,
    kind: Kind)

  /** The form an empty page starts with. */
  function DefaultForm(): (f: Form)
    ensures f.member == "" && f.item == "" && f.details == "" && f.location == ""
    ensures f.unitPrice == "" && f.quantity == "1" && f.kind == Income
  {
    Form("", "", "", "", "", "1", Income)
  }

  // ---- `x || d`: NaN and 0 are falsy, so both fall back ----

  function FallbackReal(v: Option<real>, d: real): (r: real)
    ensures v.Some? && v.value != 0.0 ==> r == v.value
    ensures v.None? || v.value == 0.0 ==> r == d
  {
    if v.Some? && v.value != 0.0 then v.value else d
  }

  function FallbackInt(v: Option<int>, d: int): (r: int)
    ensures v.Some? && v.value != 0 ==> r == v.value
    ensures v.None? || v.value == 0 ==> r == d
  {
    if v.Some? && v.value != 0 then v.value else d
  }

  // ---- `parseFloat(x.toFixed(2))` ----

  function Abs(x: real): real {
    if x < 0.0 then -x else x
  }

  /**
   * The multiple of 0.01 nearest to `x`; a tie goes away from zero, as
   * `toFixed` rounds the magnitude and then puts the sign back.
   */
  function Round2(x: real): real {
    if x >= 0.0 then (x * 100.0 + 0.5).Floor as real / 100.0
    else -((-x * 100.0 + 0.5).Floor as real / 100.0)
  }

  /** `v` is a whole number of cents. */
  predicate WholeCents(v: real) {
    (v * 100.0).Floor as real == v * 100.0
  }

  /** The rounded value is a whole number of cents. */
  lemma Round2Cents(x: real)
    ensures WholeCents(Round2(x))
  {
    if x >= 0.0 {
      var f := (x * 100.0 + 0.5).Floor;
      assert Round2(x) * 100.0 == f as real;
    } else {
      var f := (-x * 100.0 + 0.5).Floor;
      assert Round2(x) * 100.0 == (-f) as real;
    }
  }

  /** `v` lies within half a cent of `x`. */
  predicate WithinHalfCent(v: real, x: real) {
    -0.005 <= v - x <= 0.005
  }

  /** Rounding moves a value by at most half a cent. */
  lemma Round2Close(x: real)
    ensures WithinHalfCent(Round2(x), x)
  {
    if x >= 0.0 {
      var y := x * 100.0;
      var f := (y + 0.5).Floor;
      assert f as real <= y + 0.5 < f as real + 1.0;
      assert Round2(x) * 100.0 == f as real;
    } else {
      var y := -x * 100.0;
      var f := (y + 0.5).Floor;
      assert f as real <= y + 0.5 < f as real + 1.0;
      assert Round2(x) * 100.0 == -(f as real);
    }
  }

  /** No whole number of cents lies nearer to `x` than its rounding does. */
  lemma Round2Nearest(x: real, cents: int)
    ensures Abs(Round2(x) - x) <= Abs(cents as real / 100.0 - x)
  {
    var y := if x >= 0.0 then x * 100.0 else -x * 100.0;
    var f := (y + 0.5).Floor;
    assert f as real <= y + 0.5 < f as real + 1.0;
    var c := if x >= 0.0 then cents else -cents;
    // In units of a cent and on the magnitude: |f - y| <= |c - y|.
    assert Abs(f as real - y) <= Abs(c as real - y) by {
      if c <= f - 1 {
        assert c as real <= y - 0.5;
      } else if c >= f + 1 {
        assert c as real > y - 0.5 + 1.0;
      }
    }
    if x >= 0.0 {
      assert Round2(x) - x == (f as real - y) / 100.0;
      assert cents as real / 100.0 - x == (c as real - y) / 100.0;
    } else {
      assert Round2(x) - x == -(f as real - y) / 100.0;
      assert cents as real / 100.0 - x == -(c as real - y) / 100.0;
    }
  }

  /** A whole number of cents is its own rounding, so rounding twice is rounding once. */
  lemma Round2Exact(cents: int)
    ensures Round2(cents as real / 100.0) == cents as real / 100.0
  {
    var x := cents as real / 100.0;
    if x >= 0.0 {
      assert x * 100.0 + 0.5 == cents as real + 0.5;
      assert (x * 100.0 + 0.5).Floor == cents;
    } else {
      assert -x * 100.0 + 0.5 == (-cents) as real + 0.5;
      assert (-x * 100.0 + 0.5).Floor == -cents;
    }
  }

  lemma Round2Idempotent(x: real)
    ensures Round2(Round2(x)) == Round2(x)
  {
    Round2Cents(x);
    assert WholeCents(Round2(x));
    var c := (Round2(x) * 100.0).Floor;
    assert Round2(x) == c as real / 100.0;
    Round2Exact(c);
  }

  /** Rounding is symmetric about zero. */
  lemma Round2Odd(x: real)
    ensures Round2(-x) == -Round2(x)
  {
    if x == 0.0 {
      assert (0.0 * 100.0 + 0.5).Floor == 0;
    }
  }

  // ---- `calculateTotal` ----

  /**
   * `(parseFloat(unitPrice) || 0) * (parseInt(quantity) || 0)` to two
   * decimals: an unparsable price or quantity gives 0.
   */
  function CalculateTotal(price: Option<real>, quantity: Option<int>): (t: real)
    ensures price.None? || quantity.None? ==> t == 0.0
    ensures price.Some? && quantity.Some? ==> t == Round2(price.value * quantity.value as real)
  {
    var p, q := FallbackReal(price, 0.0), FallbackInt(quantity, 0);
    assert price.Some? && quantity.Some? ==> p * q as real == price.value * quantity.value as real;
    Round2(p * q as real)
  }

  /** With both inputs parsed, the total is the product to within half a cent. */
  lemma CalculateTotalClose(price: Option<real>, quantity: Option<int>)
    requires price.Some? && quantity.Some?
    ensures WithinHalfCent(CalculateTotal(price, quantity), price.value * quantity.value as real)
  {
    Round2Close(price.value * quantity.value as real);
  }

  /** Every total is a whole number of cents. */
  lemma CalculateTotalCents(price: Option<real>, quantity: Option<int>)
    ensures WholeCents(CalculateTotal(price, quantity))
  {
    assert CalculateTotal(price, quantity) == Round2(FallbackReal(price, 0.0) * FallbackInt(quantity, 0) as real);
    Round2Cents(FallbackReal(price, 0.0) * FallbackInt(quantity, 0) as real);
  }

  /** The untouched form (price `''`, which is NaN, and quantity `'1'`) shows a total of 0. */
  lemma DefaultFormTotal()
    ensures DefaultForm().quantity == "1"
    ensures CalculateTotal(None, Some(1)) == 0.0
  {
  }

  // ---- `handleSubmit` ----

  /**
   * The record the submit handler builds: the form fields spread, the raw
   * parses of price and quantity (NaN kept), the rounded total, the fresh id
   * `Date.now().toString()` and the current time.
   */
  function NewRecord(form: Form, price: Option<real>, quantity: Option<int>, id: string, now: DateTime): (r: Record)
    ensures r.id == id && r.time == now
    ensures r.member == form.member && r.item == form.item && r.details == form.details && r.location == form.location
    ensures r.unitPrice == price && r.quantity == quantity && r.kind == form.kind
    ensures r.totalAmount == CalculateTotal(price, quantity)
  {
    Record(id, now, form.member, form.item, form.details, form.location,
           price, quantity, CalculateTotal(price, quantity), form.kind)
  }

  /**
   * Loads the stored list (an empty one when storage holds none), pushes the
   * new record and returns what is written back to storage.
   */
  method HandleSubmit(saved: Option<seq<Record>>, form: Form, price: Option<real>, quantity: Option<int>,
                      id: string, now: DateTime) returns (stored: seq<Record>)
    ensures |stored| == |saved.GetOr([])| + 1
    ensures stored[..|stored| - 1] == saved.GetOr([])
    ensures stored[|stored| - 1] == NewRecord(form, price, quantity, id, now)
    ensures saved.None? ==> stored == [NewRecord(form, price, quantity, id, now)]
  {
    var records := if saved.Some? then saved.value else [];
    records := records + [NewRecord(form, price, quantity, id, now)];
    stored := records;
  }

  /** Deleting a freshly added record, whose id no earlier record has, gives back the list as it was. */
  lemma SubmitThenDelete(rs: seq<Record>, form: Form, price: Option<real>, quantity: Option<int>,
                         id: string, now: DateTime)
    requires forall i :: 0 <= i < |rs| ==> rs[i].id != id
    ensures WithoutId(rs + [NewRecord(form, price, quantity, id, now)], id) == rs
  {
    var r := NewRecord(form, price, quantity, id, now);
    FilterAppend(rs, [r], IdIsNot(id));
    WithoutIdSpec(rs, id);
    assert !IdIsNot(id)(r);
    assert Filter([r], IdIsNot(id)) == [];
  }
}
