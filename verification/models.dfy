/**
 * Bands, QSO records and callsign-lookup results (src/termlogger/models.py).
 *
 * Frequencies are whole hertz. The source keeps them as floating-point
 * megahertz; every band edge is a whole number of kilohertz, so each edge
 * and every frequency written with at most six decimals of a megahertz is
 * represented exactly.
 */
module Models {
  import opened Prelude
  import opened Strings

  /** Operating (emission) modes. */
  datatype Mode = SSB | CW | FM | AM | RTTY | PSK31 | FT8 | FT4 | JS8 | SSTV | DIGITAL

  /** Amateur bands. */
  datatype Band =
    | Band160m | Band80m | Band60m | Band40m | Band30m | Band20m | Band17m
    | Band15m | Band12m | Band10m | Band6m | Band2m | Band70cm

  /** The string value of each band, as shown to the operator and used by filters. */
  function BandName(b: Band): string {
    match b
    case Band160m => "160m"
    case Band80m => "80m"
    case Band60m => "60m"
    case Band40m => "40m"
    case Band30m => "30m"
    case Band20m => "20m"
    case Band17m => "17m"
    case Band15m => "15m"
    case Band12m => "12m"
    case Band10m => "10m"
    case Band6m => "6m"
    case Band2m => "2m"
    case Band70cm => "70cm"
  }

  /** An inclusive range of frequencies in hertz. */
  datatype FreqRange = FreqRange(low: int, high: int) {
    predicate Contains(f: int) { low <= f <= high }
  }

  /** The band frequency table: the edges of each band. */
  function Edges(b: Band): (r: FreqRange)
    ensures 0 < r.low < r.high
  {
    match b
    case Band160m => FreqRange(1_800_000, 2_000_000)
    case Band80m => FreqRange(3_500_000, 4_000_000)
    case Band60m => FreqRange(5_300_000, 5_400_000)
    case Band40m => FreqRange(7_000_000, 7_300_000)
    case Band30m => FreqRange(10_100_000, 10_150_000)
    case Band20m => FreqRange(14_000_000, 14_350_000)
    case Band17m => FreqRange(18_068_000, 18_168_000)
    case Band15m => FreqRange(21_000_000, 21_450_000)
    case Band12m => FreqRange(24_890_000, 24_990_000)
    case Band10m => FreqRange(28_000_000, 29_700_000)
    case Band6m => FreqRange(50_000_000, 54_000_000)
    case Band2m => FreqRange(144_000_000, 148_000_000)
    case Band70cm => FreqRange(420_000_000, 450_000_000)
  }

  /** The order in which the table is searched (its insertion order). */
  const BandOrder: seq<Band> :=
    [Band160m, Band80m, Band60m, Band40m, Band30m, Band20m, Band17m,
     Band15m, Band12m, Band10m, Band6m, Band2m, Band70cm]

  /** `f` lies in band `b`, both edges included. */
  predicate InBand(b: Band, f: int) {
    Edges(b).Contains(f)
  }

  /** Every band of an earlier entry lies wholly below every band of a later one. */
  predicate Ascending(order: seq<Band>) {
    forall i, j :: 0 <= i < j < |order| ==> Edges(order[i]).high < Edges(order[j]).low
  }

  lemma BandOrderAscending()
    ensures Ascending(BandOrder)
  {
  }

  lemma BandOrderComplete(b: Band)
    ensures b in BandOrder
  {
  }

  /** The search loop: the first band of `order` whose range holds `f`. */
  function FirstBandContaining(order: seq<Band>, f: int): (r: Option<Band>)
    ensures r.Some? ==> r.value in order && InBand(r.value, f)
    ensures r.None? ==> forall b :: b in order ==> !InBand(b, f)
  {
    if order == [] then None
    else if InBand(order[0], f) then Some(order[0])
    else FirstBandContaining(order[1..], f)
  }

  /** `frequency_to_band`: the band holding `f`, or `None` outside every band. */
  function FrequencyToBand(f: int): (r: Option<Band>)
    ensures r.Some? ==> InBand(r.value, f)
    ensures r.None? ==> forall b :: !InBand(b, f)
  {
    BandOrderCompleteAll();
    FirstBandContaining(BandOrder, f)
  }

  lemma BandOrderCompleteAll()
    ensures forall b :: b in BandOrder
  {
    forall b ensures b in BandOrder {
      BandOrderComplete(b);
    }
  }

  /** The ranges are pairwise disjoint: no frequency lies in two bands. */
  lemma {:induction false} BandsDisjoint(b1: Band, b2: Band, f: int)
    requires InBand(b1, f) && InBand(b2, f)
    ensures b1 == b2
  {
    BandOrderComplete(b1);
    BandOrderComplete(b2);
    BandOrderAscending();
    var i :| 0 <= i < |BandOrder| && BandOrder[i] == b1;
    var j :| 0 <= j < |BandOrder| && BandOrder[j] == b2;
    assert i == j;
  }

  /** `frequency_to_band(f)` is `b` exactly when `f` lies in `b`'s range, both edges included. */
  lemma FrequencyToBandExact(f: int, b: Band)
    ensures FrequencyToBand(f) == Some(b) <==> InBand(b, f)
  {
    var r := FrequencyToBand(f);
    if InBand(b, f) {
      BandsDisjoint(r.value, b, f);
    }
  }

  /** Searching the table in any order that lists every band gives the same answer. */
  lemma SearchOrderIrrelevant(order: seq<Band>, f: int)
    requires forall b :: b in order
    ensures FirstBandContaining(order, f) == FrequencyToBand(f)
  {
    var r := FirstBandContaining(order, f);
    var s := FrequencyToBand(f);
    if r.Some? {
      FrequencyToBandExact(f, r.value);
    } else {
      assert s.None?;
    }
  }

  /** 14.250 MHz is on 20 m. */
  lemma TwentyMetres()
    ensures FrequencyToBand(14_250_000) == Some(Band20m)
  {
    FrequencyToBandExact(14_250_000, Band20m);
  }

  /** 2.5 MHz and anything above 450 MHz lie in no band of the table. */
  lemma NoBandHolds(b: Band, f: int)
    requires f == 2_500_000 || f > 450_000_000
    ensures !InBand(b, f)
  {
    match b
    case Band80m =>
    case _ => assert Edges(b).high < 2_500_000 || 2_500_000 < Edges(b).low <= Edges(b).high <= 450_000_000;
  }

  /** 2.5 MHz and anything above 450 MHz lie outside every band. */
  lemma OutsideEveryBand(f: int)
    requires f == 2_500_000 || f > 450_000_000
    ensures FrequencyToBand(f) == None
  {
    var r := FrequencyToBand(f);
    if r.Some? {
      NoBandHolds(r.value, f);
    }
  }

  /** The fields of a QSO that carry a validation constraint. */
  datatype QsoField = CallsignField | FrequencyField | RstSentField | RstReceivedField | NotesField

  /** A logged contact. Frequency in hertz; the date and time are not part of this model. */
  datatype Qso = Qso(
    id: Option<int>,
    callsign: string,
    frequency: int,
    mode: Mode,
    rstSent: string,
    rstReceived: string,
    notes: string,
    contestId: Option<int>,
    exchangeSent: Option<string>,
    exchangeReceived: Option<string>)
  {
    /** The `band` property: derived from the frequency alone. */
    function BandOf(): (r: Option<Band>)
      ensures forall b :: r == Some(b) <==> InBand(b, frequency)
    {
      var r := FrequencyToBand(frequency);
      forall b ensures r == Some(b) <==> InBand(b, frequency) {
        FrequencyToBandExact(frequency, b);
      }
      r
    }
  }

  /** The field constraints a QSO record must satisfy. */
  predicate QsoValid(q: Qso) {
    && 1 <= |q.callsign| <= 15
    && q.frequency > 0
    && |q.rstSent| <= 5
    && |q.rstReceived| <= 5
    && |q.notes| <= 500
  }

  /** The fields whose constraint `q` breaks, in declaration order. */
  function Violations(q: Qso): seq<QsoField> {
    (if 1 <= |q.callsign| <= 15 then [] else [CallsignField])
    + (if q.frequency > 0 then [] else [FrequencyField])
    + (if |q.rstSent| <= 5 then [] else [RstSentField])
    + (if |q.rstReceived| <= 5 then [] else [RstReceivedField])
    + (if |q.notes| <= 500 then [] else [NotesField])
  }

  /** Record validation: the record itself, or every field it violates. */
  function Validate(q: Qso): (r: Result<Qso, seq<QsoField>>)
    ensures r.Ok? <==> QsoValid(q)
    ensures r.Ok? ==> r.value == q
    ensures r.Err? ==> |r.error| >= 1
    ensures r.Err? ==> (CallsignField in r.error <==> !(1 <= |q.callsign| <= 15))
    ensures r.Err? ==> (FrequencyField in r.error <==> q.frequency <= 0)
    ensures r.Err? ==> (RstSentField in r.error <==> |q.rstSent| > 5)
    ensures r.Err? ==> (RstReceivedField in r.error <==> |q.rstReceived| > 5)
    ensures r.Err? ==> (NotesField in r.error <==> |q.notes| > 500)
  {
    var v := Violations(q);
    if v == [] then Ok(q) else Err(v)
  }

  /** A QSO built from a callsign and frequency, every other field at its default. */
  function NewQso(callsign: string, frequency: int): Qso {
    Qso(None, callsign, frequency, SSB, "59", "59", "", None, None, None)
  }

  /** The defaults satisfy their constraints, so only the callsign and frequency can be rejected. */
  lemma NewQsoValidation(callsign: string, frequency: int)
    ensures Validate(NewQso(callsign, frequency)).Ok? <==> 1 <= |callsign| <= 15 && frequency > 0
    ensures Validate(NewQso(callsign, frequency)).Err? ==>
      Validate(NewQso(callsign, frequency)).error
        == (if 1 <= |callsign| <= 15 then [] else [CallsignField]) + (if frequency > 0 then [] else [FrequencyField])
  {
  }

  /** Python truthiness of an optional string: present and non-empty. */
  predicate Present(s: Option<string>) {
    s.Some? && s.value != ""
  }

  /** The result of a callsign lookup; latitude and longitude are not part of this model. */
  datatype CallsignLookupResult = CallsignLookupResult(
    callsign: string,
    name: Option<string>,
    address: Option<string>,
    city: Option<string>,
    state: Option<string>,
    country: Option<string>,
    gridSquare: Option<string>,
    qslVia: Option<string>,
    email: Option<string>)
  {
    /** The present ones of city, state and country, in that order. */
    function LocationParts(): (parts: seq<string>)
      ensures |parts| == (if Present(city) then 1 else 0) + (if Present(state) then 1 else 0)
        + (if Present(country) then 1 else 0)
      ensures Present(city) ==> parts[0] == city.value
      ensures Present(state) ==> parts[if Present(city) then 1 else 0] == state.value
      ensures Present(country) ==> parts[|parts| - 1] == country.value
      ensures forall k :: 0 <= k < |parts| ==> parts[k] != ""
    {
      (if Present(city) then [city.value] else [])
      + (if Present(state) then [state.value] else [])
      + (if Present(country) then [country.value] else [])
    }

    /** `location_str`: the parts joined with ", ", or "Unknown" when there are none. */
    function LocationStr(): (r: string)
      ensures r == "Unknown" <==> LocationParts() == [] || LocationParts() == ["Unknown"]
      ensures LocationParts() != [] && (forall k :: 0 <= k < |LocationParts()| ==> ',' !in LocationParts()[k]) ==>
        Split(r, ',') == PadTail(LocationParts(), " ")
      ensures var parts := LocationParts();
        && (|parts| == 1 ==> r == parts[0])
        && (|parts| == 2 ==> r == parts[0] + ", " + parts[1])
        && (|parts| == 3 ==> r == parts[0] + ", " + parts[1] + ", " + parts[2])
    {
      var parts := LocationParts();
      if parts == [] then "Unknown"
      else
        JoinedLocationUnknown(parts);
        JoinedLocationSplits(parts);
        JoinOfFew(", ", parts);
        Join(", ", parts)
    }

    /** The name, the location (unless it reads "Unknown") and the bracketed grid square. */
    function DisplayParts(): (parts: seq<string>)
      ensures |parts| == (if Present(name) then 1 else 0) + (if LocationStr() != "Unknown" then 1 else 0)
        + (if Present(gridSquare) then 1 else 0)
      ensures Present(name) ==> |parts| >= 1 && parts[0] == name.value
      ensures LocationStr() != "Unknown" ==>
        |parts| > (if Present(name) then 1 else 0) && parts[if Present(name) then 1 else 0] == LocationStr()
      ensures Present(gridSquare) ==> |parts| >= 1 && parts[|parts| - 1] == "[" + gridSquare.value + "]"
      ensures !Present(name) && !Present(gridSquare) ==>
        parts == if LocationStr() == "Unknown" then [] else [LocationStr()]
    {
      var loc := LocationStr();
      (if Present(name) then [name.value] else [])
      + (if loc != "Unknown" then [loc] else [])
      + (if Present(gridSquare) then ["[" + gridSquare.value + "]"] else [])
    }

    /** `display_str`: the display parts joined with " - ", or a fixed text when there are none. */
    function DisplayStr(): (r: string)
      ensures Present(name) ==> name.value <= r
      ensures Present(gridSquare) ==> EndsWith(r, "[" + gridSquare.value + "]")
      ensures !Present(name) && !Present(gridSquare) ==>
        r == if LocationStr() == "Unknown" then "No information available" else LocationStr()
      ensures var loc := LocationStr(); var grid := if gridSquare.Some? then "[" + gridSquare.value + "]" else "";
        && (Present(name) && loc == "Unknown" && !Present(gridSquare) ==> r == name.value)
        && (!Present(name) && loc == "Unknown" && Present(gridSquare) ==> r == grid)
        && (Present(name) && loc != "Unknown" && !Present(gridSquare) ==> r == name.value + " - " + loc)
        && (Present(name) && loc == "Unknown" && Present(gridSquare) ==> r == name.value + " - " + grid)
        && (!Present(name) && loc != "Unknown" && Present(gridSquare) ==> r == loc + " - " + grid)
        && (Present(name) && loc != "Unknown" && Present(gridSquare) ==>
              r == name.value + " - " + loc + " - " + grid)
    {
      var parts := DisplayParts();
      if parts == [] then "No information available"
      else
        JoinStartsWithFirst(" - ", parts);
        JoinEndsWithLast(" - ", parts);
        JoinOfFew(" - ", parts);
        Join(" - ", parts)
    }
  }

  /** A joined list of two or more parts holds the separator right after the first part. */
  lemma {:induction false} JoinHoldsSeparator(sep: string, parts: seq<string>)
    requires |parts| >= 2 && |sep| >= 1
    ensures |parts[0]| < |Join(sep, parts)| && Join(sep, parts)[|parts[0]|] == sep[0]
  {
    var rest := Join(sep, parts[1..]);
    assert Join(sep, parts) == parts[0] + sep + rest;
  }

  /** Joining one or more parts with ", " reads "Unknown" only for the single part "Unknown". */
  lemma JoinedLocationUnknown(parts: seq<string>)
    requires parts != []
    ensures Join(", ", parts) == "Unknown" <==> parts == ["Unknown"]
  {
    if |parts| >= 2 {
      JoinHoldsSeparator(", ", parts);
      assert ',' !in "Unknown";
    }
  }

  /** Splitting parts joined with ", " at the commas gives back comma-free parts,
      each after the first preceded by the separator's space. */
  lemma JoinedLocationSplits(parts: seq<string>)
    requires parts != []
    ensures (forall k :: 0 <= k < |parts| ==> ',' !in parts[k]) ==>
      Split(Join(", ", parts), ',') == PadTail(parts, " ")
  {
    if forall k :: 0 <= k < |parts| ==> ',' !in parts[k] {
      assert ", " == [','] + " ";
      SplitJoinPadded(parts, ',', " ");
    }
  }
}
