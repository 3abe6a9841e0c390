/**
 * The simplified WWS (Woningwaarderingsstelsel) calculator of the back end:
 * four point categories summed into a total with a per-category breakdown,
 * a linear map from points to the maximum legal rent, and the entry point
 * that validates a raw input dictionary before chaining the two.
 *
 * Money is kept in integer euro cents; the size and the WOZ value are exact
 * reals, and Python's `int(...)` on a float is modelled by `Trunc`.
 */
module WwsCalculator {

  import opened Wrappers

  // ---------------------------------------------------------------------------
  // Constants of the point system
  // ---------------------------------------------------------------------------

  const PointsPerSqMeter: int := 1

  /** Points per energy label; keys are the upper-case label names. */
  const EnergyLabelPoints: map<string, int> :=
    map["A++" := 40, "A+" := 35, "A" := 30, "B" := 20, "C" := 10, "D" := 5]

  /** One point per roughly 3333 euro of WOZ value. */
  const WozValueFactor: real := 0.0003

  /** Flat points for a dwelling with at least one room. */
  const BasePointsRooms: int := 5

  /** `RENT_FACTOR_PER_POINT = 7.50`, in cents. */
  const RentFactorPerPointCents: int := 750

  /** `RENT_BASE = 50.00`, in cents. */
  const RentBaseCents: int := 5000

  // ---------------------------------------------------------------------------
  // Records
  // ---------------------------------------------------------------------------

  /** `WWSInputData`: the validated input of the calculator. */
  datatype WwsInputData = WwsInputData(
    sizeM2: real,
    rooms: int,
    energyLabel: Option<string>,
    wozValue: Option<real>)

  /**
   * The `item` text of a breakdown entry, kept as the values its f-string
   * interpolates (the surface in m², the upper-cased label, the WOZ value,
   * the number of rooms), or the fixed text of a fallback entry.
   */
  datatype ItemLabel =
    | SurfaceArea(sizeM2: real)
    | EnergyLabel(name: string)
    | EnergyLabelNotSpecified
    | WozValue(wozValue: real)
    | WozNotSpecified
    | NumberOfRooms(rooms: int)
    | InputError

  /** `WWSBreakdownItem`: one category of the breakdown and its points. */
  datatype WwsBreakdownItem = WwsBreakdownItem(item: ItemLabel, points: int)

  // ---------------------------------------------------------------------------
  // Python's int() on a float, and str.upper()
  // ---------------------------------------------------------------------------

  /** `int(x)` for a float `x`: the integer next to `x` in the direction of zero. */
  function Trunc(x: real): (r: int)
    ensures x >= 0.0 ==> r as real <= x < r as real + 1.0
    ensures x < 0.0 ==> r as real - 1.0 < x <= r as real
  {
    if x >= 0.0 then x.Floor else -((-x).Floor)
  }

  function UpperChar(c: char): char
  {
    if 'a' <= c <= 'z' then (c as int - 32) as char else c
  }

  /** `str.upper()` on ASCII text: every letter a-z becomes A-Z, all else stays. */
  function Upper(s: string): (r: string)
    ensures |r| == |s|
    ensures forall i :: 0 <= i < |s| ==> r[i] == UpperChar(s[i])
  {
    if s == [] then [] else [UpperChar(s[0])] + Upper(s[1..])
  }

  /** Two spellings of the same text that differ at most in letter case. */
  predicate SameIgnoringCase(s: string, t: string)
  {
    |s| == |t| && forall i :: 0 <= i < |s| ==> UpperChar(s[i]) == UpperChar(t[i])
  }

  // ---------------------------------------------------------------------------
  // The four categories
  // ---------------------------------------------------------------------------

  /** Surface points: the size truncated to whole square metres (factor 1). */
  function SurfacePoints(sizeM2: real): (p: int)
    ensures sizeM2 >= 0.0 ==> 0 <= p && p as real <= sizeM2 < p as real + 1.0
  {
    Trunc(sizeM2 * PointsPerSqMeter as real)
  }

  /** The guard of the energy-label branch: a non-empty label whose upper case is a key. */
  predicate LabelRecognized(energyLabel: Option<string>)
  {
    energyLabel.Some? && energyLabel.value != "" && Upper(energyLabel.value) in EnergyLabelPoints
  }

  /** Energy-label points: the table entry of the upper-cased label, or 0. */
  function LabelPoints(energyLabel: Option<string>): (p: int)
    ensures LabelRecognized(energyLabel) ==> p == EnergyLabelPoints[Upper(energyLabel.value)]
    ensures 0 <= p <= 40
    ensures p > 0 <==> LabelRecognized(energyLabel)
  {
    if LabelRecognized(energyLabel) then EnergyLabelPoints[Upper(energyLabel.value)] else 0
  }

  /** The guard of the WOZ branch: a value is present and positive. */
  predicate WozSpecified(wozValue: Option<real>)
  {
    wozValue.Some? && wozValue.value != 0.0 && wozValue.value > 0.0
  }

  /** WOZ points: the value times the factor, truncated; 0 when absent or not positive. */
  function WozPoints(wozValue: Option<real>): (p: int)
    ensures 0 <= p
    ensures WozSpecified(wozValue) ==>
      p as real <= wozValue.value * WozValueFactor < p as real + 1.0
    ensures !WozSpecified(wozValue) ==> p == 0
  {
    if WozSpecified(wozValue) then Trunc(wozValue.value * WozValueFactor) else 0
  }

  /** Room points: the flat base when there is at least one room, 0 otherwise. */
  function RoomPoints(rooms: int): (p: int)
    ensures p == BasePointsRooms <==> rooms > 0
    ensures p == 0 <==> rooms <= 0
  {
    if rooms > 0 then BasePointsRooms else 0
  }

  // ---------------------------------------------------------------------------
  // Specification of calculate_wws_points
  // ---------------------------------------------------------------------------

  function SurfaceItem(data: WwsInputData): WwsBreakdownItem
  {
    WwsBreakdownItem(SurfaceArea(data.sizeM2), SurfacePoints(data.sizeM2))
  }

  function LabelItem(data: WwsInputData): WwsBreakdownItem
  {
    if LabelRecognized(data.energyLabel)
    then WwsBreakdownItem(EnergyLabel(Upper(data.energyLabel.value)), LabelPoints(data.energyLabel))
    else WwsBreakdownItem(EnergyLabelNotSpecified, 0)
  }

  function WozItem(data: WwsInputData): WwsBreakdownItem
  {
    if WozSpecified(data.wozValue)
    then WwsBreakdownItem(WozValue(data.wozValue.value), WozPoints(data.wozValue))
    else WwsBreakdownItem(WozNotSpecified, 0)
  }

  function RoomsItem(data: WwsInputData): WwsBreakdownItem
  {
    WwsBreakdownItem(NumberOfRooms(data.rooms), RoomPoints(data.rooms))
  }

  /** The breakdown: one entry per category, always in this order. */
  function Breakdown(data: WwsInputData): (b: seq<WwsBreakdownItem>)
    ensures |b| == 4
    ensures b[0].item.SurfaceArea? && b[0].points == SurfacePoints(data.sizeM2)
    ensures b[1].item.EnergyLabel? || b[1].item.EnergyLabelNotSpecified?
    ensures b[1].points == LabelPoints(data.energyLabel)
    ensures b[2].item.WozValue? || b[2].item.WozNotSpecified?
    ensures b[2].points == WozPoints(data.wozValue)
    ensures b[3].item.NumberOfRooms? && b[3].points == RoomPoints(data.rooms)
  {
    [SurfaceItem(data), LabelItem(data), WozItem(data), RoomsItem(data)]
  }

  /** The total: the four category contributions added up. */
  function WwsPoints(data: WwsInputData): int
  {
    SurfacePoints(data.sizeM2) + LabelPoints(data.energyLabel)
      + WozPoints(data.wozValue) + RoomPoints(data.rooms)
  }

  /** The points recorded in a breakdown, added up from the first item. */
  function SumPoints(items: seq<WwsBreakdownItem>): int
  {
    if items == [] then 0 else items[0].points + SumPoints(items[1..])
  }

  lemma {:induction false} SumPointsAppend(items: seq<WwsBreakdownItem>, x: WwsBreakdownItem)
    ensures SumPoints(items + [x]) == SumPoints(items) + x.points
  {
    if items == [] {
      assert items + [x] == [x];
      assert [x][1..] == [];
    } else {
      assert (items + [x])[1..] == items[1..] + [x];
      SumPointsAppend(items[1..], x);
    }
  }

  /** The total always equals the points recorded in the breakdown. */
  lemma BreakdownSumsToTotal(data: WwsInputData)
    ensures SumPoints(Breakdown(data)) == WwsPoints(data)
  {
    var b := Breakdown(data);
    assert b[3..][1..] == [];
    assert SumPoints(b[3..]) == b[3].points;
    assert b[2..][1..] == b[3..];
    assert SumPoints(b[2..]) == b[2].points + b[3].points;
    assert b[1..][1..] == b[2..];
    assert SumPoints(b[1..]) == b[1].points + b[2].points + b[3].points;
  }

  /** Upper- and lower-case spellings of a label earn the same points. */
  lemma LabelPointsIgnoreCase(s: string, t: string)
    requires SameIgnoringCase(s, t)
    ensures Upper(s) == Upper(t)
    ensures LabelPoints(Some(s)) == LabelPoints(Some(t))
  {
  }

  /** Lower-case labels are recognised; an unknown label such as "Z" earns nothing. */
  lemma LabelExamples()
    ensures LabelPoints(Some("a++")) == 40
    ensures LabelPoints(Some("b")) == 20
    ensures LabelPoints(Some("Z")) == 0
    ensures LabelPoints(Some("")) == 0
    ensures LabelPoints(None) == 0
  {
    assert Upper("a++") == "A++";
    assert Upper("b") == "B";
    assert Upper("Z") == "Z";
  }

  // ---------------------------------------------------------------------------
  // calculate_wws_points
  // ---------------------------------------------------------------------------

  /**
   * Accumulates the total and appends one breakdown entry per category; every
   * addition to the total is paired with an entry of the same points, and a
   * category that contributes nothing appends an entry of 0 points.
   */
  method CalculateWwsPoints(data: WwsInputData) returns (totalPoints: int, breakdown: seq<WwsBreakdownItem>)
    ensures breakdown == Breakdown(data)
    ensures totalPoints == SumPoints(breakdown)
    ensures totalPoints == WwsPoints(data)
  {
    totalPoints := 0;
    breakdown := [];

    // 1. Surface area
    var surfacePoints := Trunc(data.sizeM2 * PointsPerSqMeter as real);
    totalPoints := totalPoints + surfacePoints;
    SumPointsAppend(breakdown, WwsBreakdownItem(SurfaceArea(data.sizeM2), surfacePoints));
    breakdown := breakdown + [WwsBreakdownItem(SurfaceArea(data.sizeM2), surfacePoints)];
    assert totalPoints == SumPoints(breakdown);

    // 2. Energy label
    var labelItem: WwsBreakdownItem;
    if data.energyLabel.Some? && data.energyLabel.value != "" && Upper(data.energyLabel.value) in EnergyLabelPoints {
      var labelPoints := EnergyLabelPoints[Upper(data.energyLabel.value)];
      totalPoints := totalPoints + labelPoints;
      labelItem := WwsBreakdownItem(EnergyLabel(Upper(data.energyLabel.value)), labelPoints);
    } else {
      labelItem := WwsBreakdownItem(EnergyLabelNotSpecified, 0);
    }
    SumPointsAppend(breakdown, labelItem);
    breakdown := breakdown + [labelItem];
    assert totalPoints == SumPoints(breakdown);

    // 3. WOZ value
    var wozItem: WwsBreakdownItem;
    if data.wozValue.Some? && data.wozValue.value != 0.0 && data.wozValue.value > 0.0 {
      var wozPoints := Trunc(data.wozValue.value * WozValueFactor);
      totalPoints := totalPoints + wozPoints;
      wozItem := WwsBreakdownItem(WozValue(data.wozValue.value), wozPoints);
    } else {
      wozItem := WwsBreakdownItem(WozNotSpecified, 0);
    }
    SumPointsAppend(breakdown, wozItem);
    breakdown := breakdown + [wozItem];
    assert totalPoints == SumPoints(breakdown);

    // 4. Rooms
    var roomPoints := if data.rooms > 0 then BasePointsRooms else 0;
    totalPoints := totalPoints + roomPoints;
    SumPointsAppend(breakdown, WwsBreakdownItem(NumberOfRooms(data.rooms), roomPoints));
    breakdown := breakdown + [WwsBreakdownItem(NumberOfRooms(data.rooms), roomPoints)];
  }

  // ---------------------------------------------------------------------------
  // calculate_max_legal_rent
  // ---------------------------------------------------------------------------

  /** The maximum legal rent in cents: nothing for no points, else 7.50 per point plus 50.00. */
  function MaxLegalRentCents(points: int): (cents: int)
    ensures cents >= 0
    ensures cents == 0 <==> points <= 0
    ensures points > 0 ==> cents >= RentFactorPerPointCents + RentBaseCents
    ensures points > 0 ==> (cents - RentBaseCents) % RentFactorPerPointCents == 0
  {
    if points <= 0 then 0 else points * RentFactorPerPointCents + RentBaseCents
  }

  /** The inverse of the rent formula on positive points. */
  function PointsForRentCents(cents: int): int
  {
    (cents - RentBaseCents) / RentFactorPerPointCents
  }

  /** Positive points give 7.50 per point plus 50.00, and can be read back from that rent. */
  lemma MaxLegalRentRoundTrip(points: int)
    requires points > 0
    ensures MaxLegalRentCents(points) == points * RentFactorPerPointCents + RentBaseCents
    ensures PointsForRentCents(MaxLegalRentCents(points)) == points
  {
  }

  /** More points never lower the rent, and strictly raise it once the points are positive. */
  lemma MaxLegalRentMonotonic(p: int, q: int)
    requires p < q
    ensures MaxLegalRentCents(p) <= MaxLegalRentCents(q)
    ensures 0 < p ==> MaxLegalRentCents(p) < MaxLegalRentCents(q)
  {
  }

  /** 140 points give 1100.00 and 100 points give 800.00. */
  lemma MaxLegalRentExamples()
    ensures MaxLegalRentCents(140) == 110000
    ensures MaxLegalRentCents(100) == 80000
    ensures MaxLegalRentCents(0) == 0 && MaxLegalRentCents(-3) == 0
  {
  }

  // ---------------------------------------------------------------------------
  // get_wws_details: validation of the raw input dictionary, then the chain
  // ---------------------------------------------------------------------------

  /** A value of the incoming JSON dictionary. */
  datatype JsonValue = JNull | JNum(n: real) | JStr(s: string) | JOther

  type InputDict = map<string, JsonValue>

  /** A required `float` field: present and a number. */
  predicate FloatField(d: InputDict, key: string)
  {
    key in d && d[key].JNum?
  }

  /** A required `int` field: present and a number without fractional part. */
  predicate IntField(d: InputDict, key: string)
  {
    key in d && d[key].JNum? && d[key].n.Floor as real == d[key].n
  }

  /** An optional field: absent, null, or of the expected kind. */
  predicate OptionalStrField(d: InputDict, key: string)
  {
    key !in d || d[key].JNull? || d[key].JStr?
  }

  predicate OptionalFloatField(d: InputDict, key: string)
  {
    key !in d || d[key].JNull? || d[key].JNum?
  }

  /** Construction of `WWSInputData` from a dictionary; `None` when validation fails. */
  function Validate(d: InputDict): (r: Option<WwsInputData>)
    ensures r.Some? <==>
      FloatField(d, "size_m2") && IntField(d, "rooms")
      && OptionalStrField(d, "energy_label") && OptionalFloatField(d, "woz_value")
    ensures r.Some? ==> r.value.sizeM2 == d["size_m2"].n && r.value.rooms as real == d["rooms"].n
    ensures r.Some? ==> (r.value.energyLabel.Some? <==> "energy_label" in d && d["energy_label"].JStr?)
    ensures r.Some? ==> (r.value.wozValue.Some? <==> "woz_value" in d && d["woz_value"].JNum?)
    ensures r.Some? && r.value.energyLabel.Some? ==> r.value.energyLabel.value == d["energy_label"].s
    ensures r.Some? && r.value.wozValue.Some? ==> r.value.wozValue.value == d["woz_value"].n
  {
    if FloatField(d, "size_m2") && IntField(d, "rooms")
       && OptionalStrField(d, "energy_label") && OptionalFloatField(d, "woz_value")
    then
      var labelValue := if "energy_label" in d && d["energy_label"].JStr? then Some(d["energy_label"].s) else None;
      var woz := if "woz_value" in d && d["woz_value"].JNum? then Some(d["woz_value"].n) else None;
      Some(WwsInputData(d["size_m2"].n, d["rooms"].n.Floor, labelValue, woz))
    else
      None
  }

  /** The dictionary a client sends for a given input (absent optionals as null). */
  function Encode(data: WwsInputData): InputDict
  {
    map[
      "size_m2" := JNum(data.sizeM2),
      "rooms" := JNum(data.rooms as real),
      "energy_label" := if data.energyLabel.Some? then JStr(data.energyLabel.value) else JNull,
      "woz_value" := if data.wozValue.Some? then JNum(data.wozValue.value) else JNull]
  }

  /** Every input survives being sent as a dictionary and validated again. */
  lemma ValidateEncode(data: WwsInputData)
    ensures Validate(Encode(data)) == Some(data)
  {
  }

  /**
   * The full assessment: on input that fails validation the fixed error triple,
   * otherwise the points, the maximum legal rent of those points and the breakdown.
   */
  method GetWwsDetails(d: InputDict) returns (points: int, maxRentCents: int, breakdown: seq<WwsBreakdownItem>)
    ensures Validate(d).None? ==>
      points == 0 && maxRentCents == 0 && breakdown == [WwsBreakdownItem(InputError, 0)]
    ensures Validate(d).Some? ==>
      points == WwsPoints(Validate(d).value) && breakdown == Breakdown(Validate(d).value)
    ensures maxRentCents == MaxLegalRentCents(points)
    ensures points == SumPoints(breakdown)
  {
    var parsed := Validate(d);
    if parsed.None? {
      return 0, 0, [WwsBreakdownItem(InputError, 0)];
    }
    points, breakdown := CalculateWwsPoints(parsed.value);
    maxRentCents := MaxLegalRentCents(points);
  }

  /** The dictionary of the module's own example run. */
  const SampleData: InputDict :=
    map["size_m2" := JNum(75.0), "rooms" := JNum(3.0), "energy_label" := JStr("A"), "woz_value" := JNum(300000.0)]

  /**
   * The example with exact arithmetic: 75 + 30 + 90 + 5 = 200 points and a maximum
   * rent of 1550.00. In binary floating point the WOZ product falls just short of
   * 90, so the module's own run reports 89 WOZ points, 199 in total and 1542.50.
   */
  lemma SampleDataAssessment()
    ensures Validate(SampleData) == Some(WwsInputData(75.0, 3, Some("A"), Some(300000.0)))
    ensures WwsPoints(Validate(SampleData).value) == 200
    ensures MaxLegalRentCents(200) == 155000
  {
    assert Upper("A") == "A";
    assert (3.0).Floor == 3;
    assert Trunc(300000.0 * WozValueFactor) == 90;
  }

  /** The binary double nearest to 0.0003, the factor as Python stores it. */
  const WozValueFactorAsDouble: real := 5534023222112865.0 / 18446744073709551616.0

  /**
   * The stored factor lies below 0.0003, so round WOZ values fall short of a whole
   * number of points: even multiplied exactly, 300000 and 100000 give 89 and 29.
   */
  lemma StoredWozFactorFallsShort()
    ensures WozValueFactorAsDouble < WozValueFactor
    ensures Trunc(300000.0 * WozValueFactorAsDouble) == 89
    ensures Trunc(100000.0 * WozValueFactorAsDouble) == 29
    ensures Trunc(300000.0 * WozValueFactor) == 90 && Trunc(100000.0 * WozValueFactor) == 30
  {
  }

  /** A dictionary keyed `surface_area` / `room_count` lacks the required fields and is rejected. */
  lemma MisnamedKeysRejected()
    ensures Validate(map["surface_area" := JNum(75.0), "energy_label" := JStr("B"),
                         "woz_value" := JNum(300000.0), "room_count" := JNum(3.0)]).None?
  {
  }
}
