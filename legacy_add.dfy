/**
 * The older add-record page: the same form and rounding, but an unparsable
 * or zero quantity counts as 1, and the built record gets no `_id` and is
 * only logged, never stored.
 */
module LegacyAdd {
  import opened Wrappers
  import opened Ledger
  import opened Store
  import opened AddRecord

  /** `(parseFloat(unitPrice) || 0) * (parseInt(quantity) || 1)` to two decimals. */
  function LegacyTotal(price: Option<real>, quantity: Option<int>): (t: real)
    ensures price.None? ==> t == 0.0
    ensures quantity.None? || quantity.value == 0 ==> t == Round2(FallbackReal(price, 0.0))
    ensures price.Some? && quantity.Some? && quantity.value != 0 ==> t == Round2(price.value * quantity.value as real)
  {
    var p, q := FallbackReal(price, 0.0), FallbackInt(quantity, 1);
    assert (0.0 * 100.0 + 0.5).Floor == 0;
    assert quantity.None? || quantity.value == 0 ==> p * q as real == p;
    assert price.Some? && quantity.Some? && quantity.value != 0 ==> p * q as real == price.value * quantity.value as real;
    Round2(p * q as real)
  }

  /**
   * The two pages agree exactly when the quantity parses to something other
   * than 0, or the price rounds to 0; otherwise the newer page shows 0 and
   * this one the price alone.
   */
  lemma TotalsAgree(price: Option<real>, quantity: Option<int>)
    ensures quantity.Some? && quantity.value != 0 ==> LegacyTotal(price, quantity) == CalculateTotal(price, quantity)
    ensures quantity.None? || quantity.value == 0 ==>
      CalculateTotal(price, quantity) == 0.0 && LegacyTotal(price, quantity) == Round2(FallbackReal(price, 0.0))
    ensures CalculateTotal(price, quantity) == LegacyTotal(price, quantity)
        <==> (quantity.Some? && quantity.value != 0) || Round2(FallbackReal(price, 0.0)) == 0.0
  {
    assert (0.0 * 100.0 + 0.5).Floor == 0;
    if quantity.Some? && quantity.value != 0 && !(price.Some? && price.value != 0.0) {
      assert FallbackReal(price, 0.0) * FallbackInt(quantity, 0) as real == 0.0;
    }
    if quantity.None? || quantity.value == 0 {
      assert FallbackReal(price, 0.0) * FallbackInt(quantity, 0) as real == 0.0;
    }
  }

  /** The untouched form gives a total of 0 on this page too. */
  lemma DefaultFormLegacyTotal()
    ensures DefaultForm().unitPrice == "" && DefaultForm().quantity == "1"
    ensures LegacyTotal(None, Some(1)) == 0.0
  {
  }

  /**
   * The record the submit handler builds: the form fields spread, the raw
   * parses of price and quantity, the rounded total and the current time;
   * it carries no id.
   */
  function LegacyRecord(form: Form, price: Option<real>, quantity: Option<int>, now: DateTime): (d: Draft)
    ensures d.time == now
    ensures d.member == form.member && d.item == form.item && d.details == form.details && d.location == form.location
    ensures d.unitPrice == price && d.quantity == quantity && d.kind == form.kind
    ensures d.totalAmount == LegacyTotal(price, quantity)
  {
    Draft(now, form.member, form.item, form.details, form.location,
          price, quantity, LegacyTotal(price, quantity), form.kind)
  }

  /**
   * Given an id, the older page's record is the newer page's record exactly
   * when their totals agree: the fallback for the quantity is the only other
   * difference.
   */
  lemma LegacyRecordStamped(form: Form, price: Option<real>, quantity: Option<int>, id: string, now: DateTime)
    ensures Stamp(LegacyRecord(form, price, quantity, now), id, now) == NewRecord(form, price, quantity, id, now)
        <==> (quantity.Some? && quantity.value != 0) || Round2(FallbackReal(price, 0.0)) == 0.0
  {
    TotalsAgree(price, quantity);
    var a, b := Stamp(LegacyRecord(form, price, quantity, now), id, now), NewRecord(form, price, quantity, id, now);
    assert a == b <==> a.totalAmount == b.totalAmount;
  }
}
