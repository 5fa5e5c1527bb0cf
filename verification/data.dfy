/**
 * The stored entities: people, drink records, and the two enumerations a
 * record uses (kind of drink, how drunk the user felt).  Every stored field
 * is optional, as in the persisted model.
 */
module Data {
  import opened Optional
  import opened Calendar

  /** Identifiers are UUIDs handed in by the caller. */
  type Uuid = nat

  // ---------------------------------------------------------------------
  // Kinds of drink.

  datatype AlcoholType = Soju | Beer | Somac | Wine | FruitSoju | Liquor | Highball | Etc

  /** The raw (persisted and displayed) name of each kind. */
  function RawValue(t: AlcoholType): string {
    match t
    case Soju => "소주"
    case Beer => "맥주"
    case Somac => "소맥"
    case Wine => "와인"
    case FruitSoju => "과일소주"
    case Liquor => "양주"
    case Highball => "하이볼"
    case Etc => "기타"
  }

  /** Decoding a raw name: `AlcoholType(rawValue:)`. */
  function AlcoholTypeFromRaw(s: string): (r: Option<AlcoholType>)
    ensures r.Some? ==> RawValue(r.value) == s
  {
    if s == "소주" then Some(Soju)
    else if s == "맥주" then Some(Beer)
    else if s == "소맥" then Some(Somac)
    else if s == "와인" then Some(Wine)
    else if s == "과일소주" then Some(FruitSoju)
    else if s == "양주" then Some(Liquor)
    else if s == "하이볼" then Some(Highball)
    else if s == "기타" then Some(Etc)
    else None
  }

  /** The name shown for a record's kind: its raw name, "기타" when none is stored. */
  function TypeName(k: Option<AlcoholType>): (s: string)
    ensures k.None? ==> s == RawValue(Etc)
    ensures k.Some? ==> AlcoholTypeFromRaw(s) == k
  {
    match k
    case Some(t) => RawValue(t)
    case None => "기타"
  }

  /** Every kind survives a round trip through its raw name. */
  lemma AlcoholTypeRawRoundTrip(t: AlcoholType)
    ensures AlcoholTypeFromRaw(RawValue(t)) == Some(t)
  {
  }

  /** The explicit `allCases` list: each of the eight kinds once, soju first, etc last. */
  function AllAlcoholTypes(): (r: seq<AlcoholType>)
    ensures |r| == 8
    ensures forall i, j :: 0 <= i < j < |r| ==> r[i] != r[j]
    ensures r[0] == Soju && r[7] == Etc
  {
    [Soju, Beer, Somac, Wine, FruitSoju, Liquor, Highball, Etc]
  }

  /** The list is complete: every kind appears in it. */
  lemma AllAlcoholTypesComplete(t: AlcoholType)
    ensures t in AllAlcoholTypes()
  {
    var all := AllAlcoholTypes();
    match t
    case Soju => assert all[0] == t;
    case Beer => assert all[1] == t;
    case Somac => assert all[2] == t;
    case Wine => assert all[3] == t;
    case FruitSoju => assert all[4] == t;
    case Liquor => assert all[5] == t;
    case Highball => assert all[6] == t;
    case Etc => assert all[7] == t;
  }

  // ---------------------------------------------------------------------
  // Feelings.

  datatype Feeling = Fine | Light | Moderate | Heavy | Wasted

  function FeelingRawValue(f: Feeling): int {
    match f
    case Fine => 1
    case Light => 2
    case Moderate => 3
    case Heavy => 4
    case Wasted => 5
  }

  /** `IntoxicationFeeling(rawValue:)`. */
  function FeelingFromRaw(n: int): (r: Option<Feeling>)
    ensures r.Some? <==> 1 <= n <= 5
    ensures r.Some? ==> FeelingRawValue(r.value) == n
  {
    if n == 1 then Some(Fine)
    else if n == 2 then Some(Light)
    else if n == 3 then Some(Moderate)
    else if n == 4 then Some(Heavy)
    else if n == 5 then Some(Wasted)
    else None
  }

  lemma FeelingRawRoundTrip(f: Feeling)
    ensures FeelingFromRaw(FeelingRawValue(f)) == Some(f)
  {
  }

  /** `IntoxicationFeeling.allCases`, in declaration order. */
  function AllFeelings(): (r: seq<Feeling>)
    ensures |r| == 5
    ensures r[0] == Fine && r[4] == Wasted
    ensures forall i, j :: 0 <= i < j < |r| ==> FeelingRawValue(r[i]) < FeelingRawValue(r[j])
    ensures forall i :: 0 <= i < |r| ==> FeelingRawValue(r[i]) == i + 1
  {
    [Fine, Light, Moderate, Heavy, Wasted]
  }

  /** The list is complete: every feeling appears in it. */
  lemma AllFeelingsComplete(f: Feeling)
    ensures f in AllFeelings()
  {
    assert AllFeelings()[FeelingRawValue(f) - 1] == f;
  }

  function FeelingEmoji(f: Feeling): string {
    match f
    case Fine => "😃"
    case Light => "☺️"
    case Moderate => "🥴"
    case Heavy => "😵‍💫"
    case Wasted => "🧟"
  }

  function FeelingLabel(f: Feeling): string {
    match f
    case Fine => "완전 멀쩡"
    case Light => "약간 취함"
    case Moderate => "적당히 취함"
    case Heavy => "꽤 취함"
    case Wasted => "꽐라"
  }

  /** No two feelings share a label or an emoji. */
  lemma FeelingLabelsDistinct(f: Feeling, g: Feeling)
    ensures FeelingLabel(f) == FeelingLabel(g) ==> f == g
    ensures FeelingEmoji(f) == FeelingEmoji(g) ==> f == g
  {
  }

  // ---------------------------------------------------------------------
  // People.

  datatype Person = Person(id: Option<Uuid>, name: Option<string>)

  const UnknownName: string := "알 수 없음"

  /** `Person(id:name:)`; the name defaults to "unknown". */
  function NewPerson(id: Uuid, name: Option<string> := Some(UnknownName)): (p: Person)
    ensures p.id == Some(id) && p.name == name
  {
    Person(Some(id), name)
  }

  // ---------------------------------------------------------------------
  // Drink records.

  datatype DrinkRecord = DrinkRecord(
    id: Option<Uuid>,
    alcoholType: Option<AlcoholType>,
    people: Option<seq<Person>>,
    timestamp: Option<Moment>,
    alcoholPercent: Option<real>,
    units: Option<real>,
    alcoholPerUnit: Option<real>,
    unitML: Option<real>,
    unitName: Option<string>,
    brand: Option<string>,
    memo: Option<string>,
    healthKitSynced: Option<bool>,
    feeling: Option<Feeling>)

  /**
   * `DrinkRecord(id:type:people:timestamp:...)`: stores each argument in its
   * field; the omitted ones take the initializer's defaults.
   */
  function NewDrinkRecord(
    id: Uuid,
    timestamp: Moment,
    alcoholPercent: Option<real>,
    units: Option<real>,
    unitML: Option<real>,
    unitName: Option<string>,
    alcoholPerUnit: Option<real>,
    alcoholType: Option<AlcoholType> := Some(Etc),
    people: Option<seq<Person>> := Some([]),
    brand: Option<string> := None,
    memo: Option<string> := None,
    healthKitSynced: Option<bool> := Some(false),
    feeling: Option<Feeling> := None): (r: DrinkRecord)
    ensures r.id == Some(id) && r.timestamp == Some(timestamp)
    ensures r.alcoholType == alcoholType && r.people == people
    ensures r.alcoholPercent == alcoholPercent && r.units == units
    ensures r.unitML == unitML && r.unitName == unitName && r.alcoholPerUnit == alcoholPerUnit
    ensures r.brand == brand && r.memo == memo
    ensures r.healthKitSynced == healthKitSynced && r.feeling == feeling
  {
    DrinkRecord(Some(id), alcoholType, people, Some(timestamp), alcoholPercent, units,
                alcoholPerUnit, unitML, unitName, brand, memo, healthKitSynced, feeling)
  }

  /** The initializer's defaults: kind etc, nobody, no brand or memo, not synced, no feeling. */
  lemma NewDrinkRecordDefaults(id: Uuid, t: Moment, p: real, u: real, ml: real, n: string, a: real)
    ensures var r := NewDrinkRecord(id, t, Some(p), Some(u), Some(ml), Some(n), Some(a));
              && r.alcoholType == Some(Etc) && r.people == Some([])
              && r.brand.None? && r.memo.None?
              && r.healthKitSynced == Some(false) && r.feeling.None?
  {
  }

  /** The people of a record; a missing list means nobody. */
  function PeopleOf(r: DrinkRecord): seq<Person> {
    r.people.GetOr([])
  }

  /** When the record happened; a missing timestamp reads as `now`. */
  function TimeOf(r: DrinkRecord, now: Moment): Moment {
    r.timestamp.GetOr(now)
  }

  /**
   * Pure alcohol in mL: units x mL per unit x percent / 100, each missing
   * field read as 0.
   */
  function PureAlcohol(r: DrinkRecord): real {
    r.units.GetOr(0.0) * r.unitML.GetOr(0.0) * (r.alcoholPercent.GetOr(0.0) / 100.0)
  }

  lemma ProductNonNegative(a: real, b: real, c: real)
    requires a >= 0.0 && b >= 0.0 && c >= 0.0
    ensures a * b * c >= 0.0
  {
    assert a * b >= 0.0;
  }

  predicate HasNonNegativeAmounts(r: DrinkRecord) {
    r.units.GetOr(0.0) >= 0.0 && r.unitML.GetOr(0.0) >= 0.0 && r.alcoholPercent.GetOr(0.0) >= 0.0
  }

  lemma PureAlcoholNonNegative(r: DrinkRecord)
    requires HasNonNegativeAmounts(r)
    ensures PureAlcohol(r) >= 0.0
  {
    ProductNonNegative(r.units.GetOr(0.0), r.unitML.GetOr(0.0), r.alcoholPercent.GetOr(0.0) / 100.0);
  }

  /** A record missing any of the three amounts contains no alcohol. */
  lemma PureAlcoholOfIncompleteRecord(r: DrinkRecord)
    requires r.units.None? || r.unitML.None? || r.alcoholPercent.None?
    ensures PureAlcohol(r) == 0.0
  {
  }

  // ---------------------------------------------------------------------
  // The person -> records relationship (the inverse of `people`).

  /** The records that list `p` among their people, in store order. */
  function DrinksOf(records: seq<DrinkRecord>, p: Person): (r: seq<DrinkRecord>)
    ensures |r| <= |records|
    ensures forall x :: x in r <==> x in records && p in PeopleOf(x)
  {
    if |records| == 0 then []
    else
      assert records == [records[0]] + records[1..];
      (if p in PeopleOf(records[0]) then [records[0]] else []) + DrinksOf(records[1..], p)
  }

  /** A new person starts without records: no record refers to a fresh id. */
  lemma NewPersonHasNoDrinks(records: seq<DrinkRecord>, id: Uuid, name: Option<string>)
    requires forall r, q :: r in records && q in PeopleOf(r) ==> q.id != Some(id)
    ensures DrinksOf(records, NewPerson(id, name)) == []
  {
  }
}
