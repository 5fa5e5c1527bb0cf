/**
 * The companions screen: adding a person by name, deleting people from the
 * name-sorted list, and a person's detail page (drinks newest first, the
 * number of meetings, the last meeting and the favourite kind of drink).
 */
module People {
  import opened Optional
  import opened Calendar
  import opened Text
  import opened Seqs
  import opened Data

  // ---------------------------------------------------------------------
  // Adding and deleting.

  /**
   * The "add" button: the name trimmed of spaces and tabs (not newlines); a
   * blank name adds nobody, any other adds one person with a fresh `id`.
   */
  function AddPerson(people: seq<Person>, newName: string, id: Uuid): (r: seq<Person>)
    ensures AllBlank(newName, false) ==> r == people
    ensures !AllBlank(newName, false) ==> r == people + [NewPerson(id, Some(Trim(newName, false)))]
  {
    var trimmedName := Trim(newName, false);
    if |trimmedName| == 0 then people
    else people + [NewPerson(id, Some(trimmedName))]
  }

  /** The added name is never empty and neither starts nor ends with a space or tab. */
  lemma AddedNameIsTrimmed(people: seq<Person>, newName: string, id: Uuid)
    requires !AllBlank(newName, false)
    ensures var p := AddPerson(people, newName, id)[|people|];
              p.id == Some(id) && p.name.Some? && |p.name.value| > 0
              && !IsBlank(p.name.value[0], false) && !IsBlank(p.name.value[|p.name.value| - 1], false)
  {
    TrimmedEnds(newName, false);
  }

  /** Newlines are not trimmed: a name that is just a line break is added as it is. */
  lemma LineBreakNameIsAdded(people: seq<Person>, id: Uuid)
    ensures AddPerson(people, "\n", id) == people + [NewPerson(id, Some("\n"))]
  {
    assert !IsBlank('\n', false);
    TrimWithoutBlanks("\n", false);
  }

  /**
   * Swipe-to-delete on the name-sorted list removes the people at the
   * swiped offsets; an offset outside the list would trap in the app.
   */
  function DeletePeople(sortedPeople: seq<Person>, offsets: set<nat>): (kept: seq<Person>)
    requires forall i :: i in offsets ==> i < |sortedPeople|
    ensures forall i :: 0 <= i < |sortedPeople| && i !in offsets ==> sortedPeople[i] in kept
  {
    assert forall i :: 0 <= i < |sortedPeople| && i !in offsets ==> sortedPeople[i] in RemoveAt(sortedPeople, offsets) by {
      forall i | 0 <= i < |sortedPeople| && i !in offsets {
        RemoveAtKeeps(sortedPeople, offsets, i);
      }
    }
    DeleteOffsets(sortedPeople, offsets)
  }

  /**
   * With the offsets inside the list: exactly that many people go, the
   * swiped ones are gone and every other one stays.
   */
  lemma DeletePeopleExactly(sortedPeople: seq<Person>, offsets: set<nat>)
    requires Distinct(sortedPeople)
    requires forall i :: i in offsets ==> i < |sortedPeople|
    ensures |DeletePeople(sortedPeople, offsets)| == |sortedPeople| - |offsets|
    ensures forall i :: 0 <= i < |sortedPeople| ==>
              (sortedPeople[i] in DeletePeople(sortedPeople, offsets) <==> i !in offsets)
  {
    RemoveAtExactly(sortedPeople, offsets);
  }

  // ---------------------------------------------------------------------
  // Drinks newest first.

  /** A moment as seconds since 0001-01-01 00:00 local time. */
  function TimeKey(t: Moment): int {
    DayNumber(t.date) * SecondsPerDay + t.second
  }

  /** The key orders moments chronologically: by day, then by second within the day. */
  lemma TimeKeyIsChronological(a: Moment, b: Moment)
    requires DateBefore(a.date, b.date) || (a.date == b.date && a.second < b.second)
    ensures TimeKey(a) < TimeKey(b)
  {
    if DateBefore(a.date, b.date) {
      DayNumberIsChronological(a.date, b.date);
    }
  }

  /** The sort key of a record: its moment, or now when it has none. */
  function DrinkKey(now: Moment): DrinkRecord -> int {
    (r: DrinkRecord) => TimeKey(TimeOf(r, now))
  }

  /** A person's drinks, newest first; a missing timestamp sorts as now. */
  function SortedDrinks(records: seq<DrinkRecord>, p: Person, now: Moment): (r: seq<DrinkRecord>)
    ensures multiset(r) == multiset(DrinksOf(records, p))
    ensures SortedDescending(r, DrinkKey(now))
  {
    SortDescending(DrinksOf(records, p), DrinkKey(now))
  }

  /** "Total meetings": one per record the person is listed in. */
  function TotalMeetings(records: seq<DrinkRecord>, p: Person, now: Moment): (n: nat)
    ensures n == |DrinksOf(records, p)|
  {
    |SortedDrinks(records, p, now)|
  }

  /** "Last meeting": the timestamp of the first of the sorted drinks, if any. */
  function LastMeeting(records: seq<DrinkRecord>, p: Person, now: Moment): (t: Option<Moment>)
    ensures |DrinksOf(records, p)| == 0 ==> t.None?
    ensures t.Some? ==> exists r :: r in DrinksOf(records, p) && r.timestamp == t
  {
    var ds := SortedDrinks(records, p, now);
    if |ds| == 0 then None
    else
      assert ds[0] in multiset(DrinksOf(records, p));
      ds[0].timestamp
  }

  /** The last meeting is no earlier than any drink with the person. */
  lemma LastMeetingIsLatest(records: seq<DrinkRecord>, p: Person, now: Moment, r: DrinkRecord)
    requires r in records && p in PeopleOf(r)
    ensures var ds := SortedDrinks(records, p, now);
              |ds| > 0 && TimeKey(TimeOf(r, now)) <= TimeKey(TimeOf(ds[0], now))
  {
    var ds := SortedDrinks(records, p, now);
    assert r in multiset(DrinksOf(records, p));
    assert r in ds;
    HeadOfDescendingIsMax(ds, DrinkKey(now), r);
  }

  /** Nobody listed in any record has had no meetings. */
  lemma NoMeetings(records: seq<DrinkRecord>, p: Person, now: Moment)
    requires forall r :: r in records ==> p !in PeopleOf(r)
    ensures TotalMeetings(records, p, now) == 0 && LastMeeting(records, p, now).None?
  {
    NoDrinksWithoutListing(records, p);
    assert |multiset(SortedDrinks(records, p, now))| == 0;
  }

  lemma NoDrinksWithoutListing(records: seq<DrinkRecord>, p: Person)
    requires forall r :: r in records ==> p !in PeopleOf(r)
    ensures DrinksOf(records, p) == []
  {
  }

  // ---------------------------------------------------------------------
  // Favourite kind of drink.

  /** How many of `drinks` have kind `k` (None: no kind stored). */
  function CountKind(drinks: seq<DrinkRecord>, k: Option<AlcoholType>): (n: nat)
    ensures n <= |drinks|
  {
    if |drinks| == 0 then 0
    else (if drinks[0].alcoholType == k then 1 else 0) + CountKind(drinks[1..], k)
  }

  lemma {:induction false} CountKindAppend(a: seq<DrinkRecord>, b: seq<DrinkRecord>, k: Option<AlcoholType>)
    ensures CountKind(a + b, k) == CountKind(a, k) + CountKind(b, k)
  {
    if |a| > 0 {
      assert (a + b)[0] == a[0];
      assert (a + b)[1..] == a[1..] + b;
      CountKindAppend(a[1..], b, k);
    } else {
      assert a + b == b;
    }
  }

  /** The count without the drink at `i`, plus that drink's share. */
  lemma CountKindWithout(b: seq<DrinkRecord>, i: nat, k: Option<AlcoholType>)
    requires i < |b|
    ensures CountKind(b, k) == CountKind(b[..i] + b[i + 1..], k) + (if b[i].alcoholType == k then 1 else 0)
  {
    assert b == b[..i] + [b[i]] + b[i + 1..];
    CountKindAppend(b[..i] + [b[i]], b[i + 1..], k);
    CountKindAppend(b[..i], [b[i]], k);
    CountKindAppend(b[..i], b[i + 1..], k);
  }

  /** Counting ignores order: reordered drinks give the same counts. */
  lemma {:induction false} CountKindOfPermutation(a: seq<DrinkRecord>, b: seq<DrinkRecord>, k: Option<AlcoholType>)
    requires multiset(a) == multiset(b)
    ensures CountKind(a, k) == CountKind(b, k)
    decreases |a|
  {
    if |a| == 0 {
      assert |b| == |multiset(b)| == 0;
    } else {
      assert a[0] in multiset(b);
      var i :| 0 <= i < |b| && b[i] == a[0];
      PermutationOfRest(a, b, i);
      CountKindOfPermutation(a[1..], b[..i] + b[i + 1..], k);
      CountKindWithout(b, i, k);
    }
  }

  /** The kinds a record may have: none, then every kind in the fixed order. */
  function KindCandidates(): (cs: seq<Option<AlcoholType>>)
    ensures forall k :: k in cs
  {
    var cs := [None] + seq(8, i requires 0 <= i < 8 => Some(AllAlcoholTypes()[i]));
    assert forall k: Option<AlcoholType> :: k in cs by {
      forall k: Option<AlcoholType> ensures k in cs {
        if k.Some? {
          AllAlcoholTypesComplete(k.value);
          var i :| 0 <= i < 8 && AllAlcoholTypes()[i] == k.value;
          assert cs[i + 1] == k;
        } else {
          assert cs[0] == k;
        }
      }
    }
    cs
  }

  /** A candidate with the largest count among `cs`, the first such one. */
  function MostCommon(drinks: seq<DrinkRecord>, cs: seq<Option<AlcoholType>>): (k: Option<AlcoholType>)
    requires |cs| > 0
    ensures k in cs
    ensures forall c :: c in cs ==> CountKind(drinks, c) <= CountKind(drinks, k)
  {
    if |cs| == 1 then cs[0]
    else
      var best := MostCommon(drinks, cs[1..]);
      assert forall c :: c in cs ==> c == cs[0] || c in cs[1..];
      if CountKind(drinks, cs[0]) >= CountKind(drinks, best) then cs[0] else best
  }

  /** The kind that occurs most often among the drinks (ties: any of them). */
  function FavoriteKind(drinks: seq<DrinkRecord>): (k: Option<AlcoholType>)
    ensures forall c :: CountKind(drinks, c) <= CountKind(drinks, k)
  {
    var cs := KindCandidates();
    MostCommon(drinks, cs)
  }

  /** Any kind stored in some drink is counted at least once. */
  lemma {:induction false} CountKindPositive(drinks: seq<DrinkRecord>, i: nat)
    requires i < |drinks|
    ensures CountKind(drinks, drinks[i].alcoholType) > 0
  {
    if i > 0 {
      CountKindPositive(drinks[1..], i - 1);
    }
  }

  /** With at least one drink, the favourite kind occurs among them. */
  lemma FavoriteKindOccurs(drinks: seq<DrinkRecord>)
    requires |drinks| > 0
    ensures CountKind(drinks, FavoriteKind(drinks)) > 0
  {
    CountKindPositive(drinks, 0);
  }

  /** "Favourite kind" on the detail page: "-" without drinks, else the label of the most frequent kind. */
  function FavoriteDrink(records: seq<DrinkRecord>, p: Person, now: Moment): (s: string)
    ensures |DrinksOf(records, p)| == 0 <==> s == "-"
  {
    var ds := SortedDrinks(records, p, now);
    assert |ds| == |multiset(ds)| == |DrinksOf(records, p)|;
    if |ds| == 0 then "-"
    else
      TypeNameIsNotDash(FavoriteKind(ds));
      TypeName(FavoriteKind(ds))
  }

  lemma TypeNameIsNotDash(k: Option<AlcoholType>)
    ensures TypeName(k) != "-"
  {
    assert |TypeName(k)| >= 2;
  }

  /**
   * The favourite is a kind no other kind outnumbers among the person's
   * drinks, whichever order they are in, and it occurs among them.
   */
  lemma FavoriteDrinkIsMostFrequent(records: seq<DrinkRecord>, p: Person, now: Moment)
    requires |DrinksOf(records, p)| > 0
    ensures var ds := SortedDrinks(records, p, now);
            var k := FavoriteKind(ds);
              && FavoriteDrink(records, p, now) == TypeName(k)
              && CountKind(DrinksOf(records, p), k) > 0
              && forall c :: CountKind(DrinksOf(records, p), c) <= CountKind(DrinksOf(records, p), k)
  {
    var ds := SortedDrinks(records, p, now);
    var k := FavoriteKind(ds);
    FavoriteKindOccurs(ds);
    CountKindOfPermutation(ds, DrinksOf(records, p), k);
    forall c
      ensures CountKind(DrinksOf(records, p), c) <= CountKind(DrinksOf(records, p), k)
    {
      CountKindOfPermutation(ds, DrinksOf(records, p), c);
    }
  }
}
