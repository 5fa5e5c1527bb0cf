/**
 * The history screen: the per-record card text, the detail page's amount and
 * alcohol figures, deleting records from the newest-first list, and editing a
 * record's date.
 */
module History {
  import opened Optional
  import opened Calendar
  import opened Text
  import opened Seqs
  import opened Data

  /** The detail page's pure-alcohol figure, in mL; a missing amount counts as 0. */
  function CalculateTotalAlcohol(r: DrinkRecord): (t: real)
    ensures r.units.None? || r.unitML.None? || r.alcoholPercent.None? ==> t == 0.0
  {
    var units := r.units.GetOr(0.0);
    var ml := r.unitML.GetOr(0.0);
    var percent := r.alcoholPercent.GetOr(0.0);
    units * ml * (percent / 100.0)
  }

  /**
   * The figure shown is the stored record's pure alcohol, the one the
   * dashboard adds up, and it is not negative for non-negative amounts.
   */
  lemma TotalAlcoholIsPureAlcohol(r: DrinkRecord)
    ensures CalculateTotalAlcohol(r) == PureAlcohol(r)
    ensures HasNonNegativeAmounts(r) ==> CalculateTotalAlcohol(r) >= 0.0
  {
    if HasNonNegativeAmounts(r) {
      PureAlcoholNonNegative(r);
    }
  }

  /** A whole number: no remainder when divided by 1. */
  predicate IsIntegral(u: real) {
    u.Floor as real == u
  }

  /** The amount as text: without decimals when whole, else with one decimal; none counts as 0. */
  function FormatUnits(r: DrinkRecord): (s: string)
    ensures |s| > 0
  {
    var u := r.units.GetOr(0.0);
    FormatWholeIsNumeral(u);
    FormatOneDecimalIsNumeral(u);
    if IsIntegral(u) then FormatWhole(u) else FormatOneDecimal(u)
  }

  /**
   * Read back, the amount text is exact for whole amounts and the amount to
   * one decimal otherwise.
   */
  lemma FormatUnitsReadsBack(r: DrinkRecord)
    ensures var u := r.units.GetOr(0.0);
              ParseDecimal(FormatUnits(r)) == Some(if IsIntegral(u) then u else RoundedToTenths(u))
  {
    var u := r.units.GetOr(0.0);
    if IsIntegral(u) {
      ParseFormatWhole(u);
      RoundedWhole(u.Floor);
    } else {
      ParseFormatOneDecimal(u);
    }
  }

  /** A decimal point appears exactly for amounts that are not whole. */
  lemma FormatUnitsPoint(r: DrinkRecord)
    ensures var u := r.units.GetOr(0.0);
              '.' in FormatUnits(r) <==> !IsIntegral(u)
  {
    var u := r.units.GetOr(0.0);
    FormatWholeIsNumeral(u);
    FormatOneDecimalIsNumeral(u);
  }

  /** Two units read "2", a missing amount "0". */
  lemma WholeAmountTexts(r: DrinkRecord)
    ensures FormatUnits(r.(units := Some(2.0))) == "2"
    ensures FormatUnits(r.(units := None)) == "0"
  {
    RoundWholeNumber(2);
    RoundWholeNumber(0);
  }

  /** One and a half units read "1.5". */
  lemma HalfAmountText(r: DrinkRecord)
    ensures FormatUnits(r.(units := Some(1.5))) == "1.5"
  {
    assert !IsIntegral(1.5);
    RoundWholeNumber(15);
    assert TenthsDigits(15) == "1.5";
  }

  /** The card's headline: the brand, else the kind's name, else "기타". */
  function BrandName(r: DrinkRecord): (s: string)
    ensures r.brand.Some? ==> s == r.brand.value
    ensures r.brand.None? ==> s == TypeName(r.alcoholType)
  {
    match r.brand
    case Some(b) => b
    case None =>
      match r.alcoholType
      case Some(t) => RawValue(t)
      case None => "기타"
  }

  /** A record without brand or kind reads as "other", the same as the kind `etc`. */
  lemma BrandNameFallback(r: DrinkRecord)
    requires r.brand.None?
    ensures r.alcoholType.None? ==> BrandName(r) == BrandName(r.(alcoholType := Some(Etc)))
    ensures r.alcoholType.Some? ==> AlcoholTypeFromRaw(BrandName(r)) == r.alcoholType
  {
  }

  /** The card's description: "<brand> <amount><unit name>", the unit name defaulting to "단위". */
  function DescriptionText(r: DrinkRecord): (s: string)
    ensures var b, name := BrandName(r), UnitLabel(r);
              && |s| == |b| + 1 + |FormatUnits(r)| + |name|
              && s[..|b|] == b && s[|b|] == ' '
              && s[|b| + 1..|s| - |name|] == FormatUnits(r)
              && s[|s| - |name|..] == name
  {
    var b := BrandName(r);
    var name := UnitLabel(r);
    var s := b + " " + FormatUnits(r) + name;
    assert s[..|b|] == b;
    assert s[|b| + 1..|s| - |name|] == FormatUnits(r);
    assert s[|s| - |name|..] == name;
    s
  }

  /** The unit name on the card; "단위" when none is stored. */
  function UnitLabel(r: DrinkRecord): (name: string)
    ensures r.unitName.Some? ==> name == r.unitName.value
    ensures r.unitName.None? ==> name == "단위"
  {
    r.unitName.GetOr("단위")
  }

  /**
   * The amount between the brand and the unit name reads back as the
   * amount: exactly when whole, to one decimal otherwise.
   */
  lemma DescriptionAmountReadsBack(r: DrinkRecord)
    ensures var s, b, name := DescriptionText(r), BrandName(r), UnitLabel(r);
            var u := r.units.GetOr(0.0);
              |b| + 1 <= |s| - |name|
              && ParseDecimal(s[|b| + 1..|s| - |name|]) == Some(if IsIntegral(u) then u else RoundedToTenths(u))
  {
    FormatUnitsReadsBack(r);
  }

  /**
   * Swipe-to-delete on the newest-first list removes the records at the
   * swiped offsets; an offset outside the list would trap in the app.
   */
  function DeleteItems(records: seq<DrinkRecord>, offsets: set<nat>): (kept: seq<DrinkRecord>)
    requires forall i :: i in offsets ==> i < |records|
    ensures |kept| == |records| - |offsets|
    ensures forall r :: r in kept ==> r in records
  {
    DeleteOffsets(records, offsets)
  }

  lemma DeleteItemsExactly(records: seq<DrinkRecord>, offsets: set<nat>)
    requires Distinct(records)
    requires forall i :: i in offsets ==> i < |records|
    ensures |DeleteItems(records, offsets)| == |records| - |offsets|
    ensures forall i :: 0 <= i < |records| ==> (records[i] in DeleteItems(records, offsets) <==> i !in offsets)
  {
    RemoveAtExactly(records, offsets);
  }

  /** Deleting nothing keeps the list as it is. */
  lemma DeleteNothing(records: seq<DrinkRecord>)
    ensures DeleteItems(records, {}) == records
  {
    RemoveNothing(records);
  }

  // ---------------------------------------------------------------------
  // Editing the date.

  /** Saving a new date: the timestamp becomes the chosen moment and nothing else changes. */
  function UpdateDate(r: DrinkRecord, chosen: Moment): (s: DrinkRecord)
    ensures s.timestamp == Some(chosen)
    ensures s == r.(timestamp := s.timestamp)
  {
    r.(timestamp := Some(chosen))
  }

  /** HealthKit gets the units again only for a synced record with a positive amount. */
  predicate ResyncAttempted(r: DrinkRecord) {
    r.healthKitSynced == Some(true) && r.units.Some? && r.units.value > 0.0
  }

  /** The "HealthKit updated" alert: shown after an authorised, successful re-save. */
  predicate HealthKitAlertShown(r: DrinkRecord, authorized: bool, stored: bool) {
    ResyncAttempted(r) && authorized && stored
  }

  /**
   * A date edit leaves the amount, the alcohol and the sync flag alone, so
   * the re-sync decision is the same before and after the edit.
   */
  lemma UpdateDateKeepsRest(r: DrinkRecord, chosen: Moment)
    ensures PureAlcohol(UpdateDate(r, chosen)) == PureAlcohol(r)
    ensures ResyncAttempted(UpdateDate(r, chosen)) <==> ResyncAttempted(r)
    ensures TimeOf(UpdateDate(r, chosen), chosen) == chosen
  {
  }

  /** No alert for a record that never reached HealthKit or has no positive amount. */
  lemma NoAlertWithoutSync(r: DrinkRecord, authorized: bool, stored: bool)
    requires r.healthKitSynced != Some(true) || r.units.None? || r.units.GetOr(0.0) <= 0.0
    ensures !HealthKitAlertShown(r, authorized, stored)
  {
  }
}
