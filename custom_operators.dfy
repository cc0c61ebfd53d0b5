/**
 * The operators of Sources/CustomOperators/CustomOperators.swift: the prefix
 * squaring operator `**` and the infix "degree of similarity" operator `≈`
 * on personal addresses.
 */
module CustomOperators {
  import opened Wrappers

  // ---------------------------------------------------------------------------
  // Prefix `**`
  // ---------------------------------------------------------------------------

  /** Prefix `**input`: the square of `input`, over unbounded integers. */
  function Square(input: int): (r: int)
    ensures r >= 0
    ensures r == 0 <==> input == 0
    ensures r >= input
  {
    input * input
  }

  // ---------------------------------------------------------------------------
  // Infix `≈`
  // ---------------------------------------------------------------------------

  /** The four answers `≈` can give. */
  datatype DegreeOfSimilarity =
    | ExactlyTheSame
    | AlmostTheSame
    | SlightlySimilar
    | CompletelyDifferent

  /** A postal address; `buildingName` is the only optional field. */
  datatype PersonalAddress = PersonalAddress(
    buildingNumber: int,
    buildingName: Option<string>,
    streetName: string,
    landmark: string,
    area: string,
    city: string,
    postcode: string,
    state: string,
    country: string)

  /** Swift's `UInt8`, the type of the match counter. */
  newtype UInt8 = x: int | 0 <= x < 0x100

  /** The fields `≈` compares. */
  datatype Field =
    | Country | State | City | Postcode | Area | Landmark | StreetName | BuildingName | BuildingNumber

  /** The order in which `≈` compares the fields. */
  const ComparisonOrder: seq<Field> :=
    [Country, State, City, Postcode, Area, Landmark, StreetName, BuildingName, BuildingNumber]

  /** The fields whose mismatch never ends the comparison early. */
  const SoftFields: seq<Field> := [Postcode, BuildingName, BuildingNumber]

  /** Whether field `f` of the two addresses is equal (for `buildingName`, two absent names are equal). */
  predicate FieldMatches(f: Field, lhs: PersonalAddress, rhs: PersonalAddress) {
    match f
    case Country => lhs.country == rhs.country
    case State => lhs.state == rhs.state
    case City => lhs.city == rhs.city
    case Postcode => lhs.postcode == rhs.postcode
    case Area => lhs.area == rhs.area
    case Landmark => lhs.landmark == rhs.landmark
    case StreetName => lhs.streetName == rhs.streetName
    case BuildingName => lhs.buildingName == rhs.buildingName
    case BuildingNumber => lhs.buildingNumber == rhs.buildingNumber
  }

  /**
   * The answer `≈` returns at once when field `f` differs, or `None` when a
   * mismatch on `f` only withholds a point from the match counter.
   */
  function MismatchVerdict(f: Field): Option<DegreeOfSimilarity> {
    match f
    case Country => Some(CompletelyDifferent)
    case State | City => Some(SlightlySimilar)
    case Area | Landmark | StreetName => Some(AlmostTheSame)
    case Postcode | BuildingName | BuildingNumber => None
  }

  /** The final `switch` on the match counter. */
  function CountBucket(count: int): DegreeOfSimilarity {
    if 1 <= count <= 4 then SlightlySimilar
    else if 5 <= count <= 7 then AlmostTheSame
    else if count == 8 || count == 9 then ExactlyTheSame
    else CompletelyDifferent
  }

  /**
   * Compares `fields` in order, starting from a counter worth `count`: a match
   * adds one to the counter, a mismatch on a field with a verdict returns that
   * verdict, and once every field is compared the counter is bucketed.
   */
  function Compare(fields: seq<Field>, lhs: PersonalAddress, rhs: PersonalAddress, count: nat): DegreeOfSimilarity
    decreases |fields|
  {
    if fields == [] then CountBucket(count)
    else if FieldMatches(fields[0], lhs, rhs) then Compare(fields[1..], lhs, rhs, count + 1)
    else match MismatchVerdict(fields[0])
      case Some(level) => level
      case None => Compare(fields[1..], lhs, rhs, count)
  }

  /** `lhs ≈ rhs`, as a function: the specification of `ApproxEqual`. */
  function Similarity(lhs: PersonalAddress, rhs: PersonalAddress): DegreeOfSimilarity {
    Compare(ComparisonOrder, lhs, rhs, 0)
  }

  /** The number of fields among `fields` on which the two addresses agree. */
  function MatchCount(fields: seq<Field>, lhs: PersonalAddress, rhs: PersonalAddress): (n: nat)
    ensures n <= |fields|
    ensures n == |fields| <==> forall i :: 0 <= i < |fields| ==> FieldMatches(fields[i], lhs, rhs)
    decreases |fields|
  {
    if fields == [] then 0
    else (if FieldMatches(fields[0], lhs, rhs) then 1 else 0) + MatchCount(fields[1..], lhs, rhs)
  }

  /** Every field among `fields` whose mismatch would end the comparison early matches. */
  predicate GatesMatch(fields: seq<Field>, lhs: PersonalAddress, rhs: PersonalAddress) {
    forall i :: 0 <= i < |fields| && MismatchVerdict(fields[i]).Some? ==> FieldMatches(fields[i], lhs, rhs)
  }

  /** The six fields whose mismatch ends the comparison early all match. */
  predicate AllGatesMatch(lhs: PersonalAddress, rhs: PersonalAddress) {
    && lhs.country == rhs.country
    && lhs.state == rhs.state
    && lhs.city == rhs.city
    && lhs.area == rhs.area
    && lhs.landmark == rhs.landmark
    && lhs.streetName == rhs.streetName
  }

  /** How many of `postcode`, `buildingName` and `buildingNumber` differ. */
  function SoftMismatches(lhs: PersonalAddress, rhs: PersonalAddress): nat {
    (if lhs.postcode != rhs.postcode then 1 else 0)
    + (if lhs.buildingName != rhs.buildingName then 1 else 0)
    + (if lhs.buildingNumber != rhs.buildingNumber then 1 else 0)
  }

  /**
   * `lhsValue ≈ rhsValue`, step by step as the source does it: a `UInt8`
   * counter, early returns on the gating fields, and a final switch.
   */
  method ApproxEqual(lhsValue: PersonalAddress, rhsValue: PersonalAddress) returns (r: DegreeOfSimilarity)
    ensures r == Similarity(lhsValue, rhsValue)
  {
    var countOfMatchingItems: UInt8 := 0;

    if lhsValue.country != rhsValue.country {
      CountryMismatch(lhsValue, rhsValue);
      return CompletelyDifferent;
    }

    // Slightly similar
    countOfMatchingItems := countOfMatchingItems + 1;

    if lhsValue.state == rhsValue.state {
      countOfMatchingItems := countOfMatchingItems + 1;
    } else {
      RegionMismatch(lhsValue, rhsValue);
      return SlightlySimilar;
    }

    if lhsValue.city == rhsValue.city {
      countOfMatchingItems := countOfMatchingItems + 1;
    } else {
      RegionMismatch(lhsValue, rhsValue);
      return SlightlySimilar;
    }

    if lhsValue.postcode == rhsValue.postcode {
      countOfMatchingItems := countOfMatchingItems + 1;
    }

    // Almost the same
    if lhsValue.area == rhsValue.area {
      countOfMatchingItems := countOfMatchingItems + 1;
    } else {
      LocalityMismatch(lhsValue, rhsValue);
      return AlmostTheSame;
    }

    if lhsValue.landmark == rhsValue.landmark {
      countOfMatchingItems := countOfMatchingItems + 1;
    } else {
      LocalityMismatch(lhsValue, rhsValue);
      return AlmostTheSame;
    }

    if lhsValue.streetName == rhsValue.streetName {
      countOfMatchingItems := countOfMatchingItems + 1;
    } else {
      LocalityMismatch(lhsValue, rhsValue);
      return AlmostTheSame;
    }

    // Exactly same
    if lhsValue.buildingName == rhsValue.buildingName {
      countOfMatchingItems := countOfMatchingItems + 1;
    }

    if lhsValue.buildingNumber == rhsValue.buildingNumber {
      countOfMatchingItems := countOfMatchingItems + 1;
    }

    SwitchCount(lhsValue, rhsValue);
    assert countOfMatchingItems as int == MatchCount(ComparisonOrder, lhsValue, rhsValue);
    r := CountBucket(countOfMatchingItems as int);
  }

  // ---------------------------------------------------------------------------
  // Lemmas about the comparison walk
  // ---------------------------------------------------------------------------

  /**
   * When every gating field before position `i` matches and the field at `i`
   * is a gating field that differs, the comparison returns that field's verdict.
   */
  lemma {:induction false} ShortCircuit(fields: seq<Field>, i: nat, lhs: PersonalAddress, rhs: PersonalAddress, count: nat)
    requires i < |fields|
    requires GatesMatch(fields[..i], lhs, rhs)
    requires !FieldMatches(fields[i], lhs, rhs) && MismatchVerdict(fields[i]).Some?
    ensures Compare(fields, lhs, rhs, count) == MismatchVerdict(fields[i]).value
    decreases i
  {
    if i > 0 {
      assert fields[..i][0] == fields[0];
      var next := if FieldMatches(fields[0], lhs, rhs) then count + 1 else count;
      assert fields[1..][..i - 1] == fields[..i][1..];
      ShortCircuit(fields[1..], i - 1, lhs, rhs, next);
    }
  }

  /**
   * When every gating field matches, the comparison runs to the end and
   * buckets the counter plus the number of matching fields.
   */
  lemma {:induction false} ReachesSwitch(fields: seq<Field>, lhs: PersonalAddress, rhs: PersonalAddress, count: nat)
    requires GatesMatch(fields, lhs, rhs)
    ensures Compare(fields, lhs, rhs, count) == CountBucket(count + MatchCount(fields, lhs, rhs))
    decreases |fields|
  {
    if fields != [] {
      var next := if FieldMatches(fields[0], lhs, rhs) then count + 1 else count;
      assert GatesMatch(fields[1..], lhs, rhs) by {
        forall i | 0 <= i < |fields[1..]| && MismatchVerdict(fields[1..][i]).Some?
          ensures FieldMatches(fields[1..][i], lhs, rhs)
        {
          assert fields[1..][i] == fields[i + 1];
        }
      }
      ReachesSwitch(fields[1..], lhs, rhs, next);
    }
  }

  /** Each step of the comparison is an equality test, so swapping the addresses changes nothing. */
  lemma {:induction false} CompareSymmetric(fields: seq<Field>, lhs: PersonalAddress, rhs: PersonalAddress, count: nat)
    ensures Compare(fields, lhs, rhs, count) == Compare(fields, rhs, lhs, count)
    decreases |fields|
  {
    if fields != [] {
      assert FieldMatches(fields[0], lhs, rhs) == FieldMatches(fields[0], rhs, lhs);
      CompareSymmetric(fields[1..], lhs, rhs, count + 1);
      CompareSymmetric(fields[1..], lhs, rhs, count);
    }
  }

  // ---------------------------------------------------------------------------
  // Properties of `≈`
  // ---------------------------------------------------------------------------

  /** Different countries: `completely_different`, whatever the other fields hold. */
  lemma CountryMismatch(lhs: PersonalAddress, rhs: PersonalAddress)
    requires lhs.country != rhs.country
    ensures Similarity(lhs, rhs) == CompletelyDifferent
  {
    ShortCircuit(ComparisonOrder, 0, lhs, rhs, 0);
  }

  /** Same country, but a different state or city: `slightly_similar`. */
  lemma RegionMismatch(lhs: PersonalAddress, rhs: PersonalAddress)
    requires lhs.country == rhs.country
    requires lhs.state != rhs.state || lhs.city != rhs.city
    ensures Similarity(lhs, rhs) == SlightlySimilar
  {
    if lhs.state != rhs.state {
      ShortCircuit(ComparisonOrder, 1, lhs, rhs, 0);
    } else {
      ShortCircuit(ComparisonOrder, 2, lhs, rhs, 0);
    }
  }

  /**
   * Same country, state and city, but a different area, landmark or street:
   * `almost_the_same`, whatever the postcode.
   */
  lemma LocalityMismatch(lhs: PersonalAddress, rhs: PersonalAddress)
    requires lhs.country == rhs.country && lhs.state == rhs.state && lhs.city == rhs.city
    requires lhs.area != rhs.area || lhs.landmark != rhs.landmark || lhs.streetName != rhs.streetName
    ensures Similarity(lhs, rhs) == AlmostTheSame
  {
    if lhs.area != rhs.area {
      ShortCircuit(ComparisonOrder, 4, lhs, rhs, 0);
    } else if lhs.landmark != rhs.landmark {
      ShortCircuit(ComparisonOrder, 5, lhs, rhs, 0);
    } else {
      ShortCircuit(ComparisonOrder, 6, lhs, rhs, 0);
    }
  }

  /**
   * When control reaches the final switch, the counter holds 9 less the soft
   * mismatches, which lies between 6 and 9: it never overflows a `UInt8`, and
   * neither the `1...4` arm nor the `default` arm can be taken.
   */
  lemma SwitchCount(lhs: PersonalAddress, rhs: PersonalAddress)
    requires AllGatesMatch(lhs, rhs)
    ensures MatchCount(ComparisonOrder, lhs, rhs) == 9 - SoftMismatches(lhs, rhs)
    ensures 6 <= MatchCount(ComparisonOrder, lhs, rhs) <= 9
    ensures Similarity(lhs, rhs) == CountBucket(MatchCount(ComparisonOrder, lhs, rhs))
  {
    ReachesSwitch(ComparisonOrder, lhs, rhs, 0);
  }

  /**
   * When all six gating fields match, the answer is `exactly_the_same` when at
   * most one of postcode, building name and building number differs, and
   * `almost_the_same` otherwise.
   */
  lemma AllGatesPassed(lhs: PersonalAddress, rhs: PersonalAddress)
    requires AllGatesMatch(lhs, rhs)
    ensures Similarity(lhs, rhs) == if SoftMismatches(lhs, rhs) <= 1 then ExactlyTheSame else AlmostTheSame
  {
    SwitchCount(lhs, rhs);
  }

  /** `completely_different` is returned exactly when the countries differ. */
  lemma CompletelyDifferentIffCountry(lhs: PersonalAddress, rhs: PersonalAddress)
    ensures Similarity(lhs, rhs) == CompletelyDifferent <==> lhs.country != rhs.country
  {
    if lhs.country != rhs.country {
      CountryMismatch(lhs, rhs);
    } else if lhs.state != rhs.state || lhs.city != rhs.city {
      RegionMismatch(lhs, rhs);
    } else if lhs.area != rhs.area || lhs.landmark != rhs.landmark || lhs.streetName != rhs.streetName {
      LocalityMismatch(lhs, rhs);
    } else {
      AllGatesPassed(lhs, rhs);
    }
  }

  /** Every address is `exactly_the_same` as itself; two absent building names count as a match. */
  lemma Reflexive(a: PersonalAddress)
    ensures Similarity(a, a) == ExactlyTheSame
  {
    AllGatesPassed(a, a);
  }

  /** `a ≈ b` and `b ≈ a` always agree. */
  lemma Symmetric(a: PersonalAddress, b: PersonalAddress)
    ensures Similarity(a, b) == Similarity(b, a)
  {
    CompareSymmetric(ComparisonOrder, a, b, 0);
  }

  /** The worked example: home and office differ in street, so they are `almost_the_same`. */
  lemma HomeOfficeExample()
    ensures
      var homeAddress := PersonalAddress(10, Some("Trees"), "10th Street", "Next to Golf Course",
                                         "Suburb", "Mumbai", "123001", "MH", "India");
      var officeAddress := PersonalAddress(22, Some("City IT Center"), "15th Street", "Next to Golf Course",
                                           "Suburb", "Mumbai", "123001", "MH", "India");
      Similarity(homeAddress, officeAddress) == AlmostTheSame
  {
    var homeAddress := PersonalAddress(10, Some("Trees"), "10th Street", "Next to Golf Course",
                                       "Suburb", "Mumbai", "123001", "MH", "India");
    var officeAddress := PersonalAddress(22, Some("City IT Center"), "15th Street", "Next to Golf Course",
                                         "Suburb", "Mumbai", "123001", "MH", "India");
    assert homeAddress.streetName != officeAddress.streetName by {
      assert homeAddress.streetName[0] != officeAddress.streetName[0] || homeAddress.streetName[1] != officeAddress.streetName[1];
    }
    LocalityMismatch(homeAddress, officeAddress);
  }
}
