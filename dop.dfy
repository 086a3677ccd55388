/**
 * DOP and geometry helpers (dop_calculations.py): element-set text parsing, the design
 * matrix, the DOP guards and decomposition, the GDOP quality table, ground-track time
 * sampling with its envelope, and the per-satellite bounding boxes.
 *
 * Orbit propagation, observer geometry, trigonometry, determinant, inverse and square root
 * are parameters: `positionOf` gives a satellite's elevation/azimuth/range from the observer
 * at the chosen time, `subpoint` its latitude/longitude a number of seconds after the epoch,
 * each None where the propagation library raises.
 */
module DopCalculations {
  import opened Wrappers
  import opened Config
  import opened Stats
  import opened PyText
  import opened OrderedMap

  // ------------------------------------------------------------ element-set text

  /** The propagator object built from an element set, under its catalogue name. */
  datatype Satellite = Satellite(name: string, line1: string, line2: string)

  /** The first name in the directory whose catalogue id is `id` (the directory's order). */
  function FirstNameWithId(directory: seq<(string, int)>, id: int): (r: Option<string>)
    ensures r.Some? ==> (r.value, id) in directory
    ensures r.None? <==> forall k :: 0 <= k < |directory| ==> directory[k].1 != id
  {
    if |directory| == 0 then None
    else if directory[0].1 == id then Some(directory[0].0)
    else FirstNameWithId(directory[1..], id)
  }

  /** The directory scan of `parse_tle_data`: stop at the first entry with the id. */
  method FindName(directory: seq<(string, int)>, id: int) returns (name: Option<string>)
    ensures name == FirstNameWithId(directory, id)
  {
    name := None;
    var k := 0;
    while k < |directory|
      invariant 0 <= k <= |directory|
      invariant FirstNameWithId(directory, id) == FirstNameWithId(directory[k..], id)
    {
      assert directory[k..][1..] == directory[k + 1..];
      if directory[k].1 == id {
        name := Some(directory[k].0);
        return;
      }
      k := k + 1;
    }
  }

  /** Catalogue id in columns 2..6 of the first element line, if `int()` accepts it. */
  function CatalogId(line1: string): Option<int> {
    ParseInt(Slice(line1, 2, 7))
  }

  /** What an entry of the result promises: a non-empty name the directory gives the element set's id first. */
  predicate ValidEntry(directory: seq<(string, int)>, name: string, sat: Satellite) {
    && name != ""
    && sat.name == name
    && CatalogId(sat.line1).Some?
    && FirstNameWithId(directory, CatalogId(sat.line1).value) == Some(name)
  }

  /**
   * What one stripped pair of element lines contributes: the satellite under the directory's
   * name for its catalogue id, or nothing when the id does not parse, is unknown, or its
   * name is empty (falsy).
   */
  function EntryOf(line1: string, line2: string, directory: seq<(string, int)>): (r: Option<(string, Satellite)>)
    ensures r.Some? ==> ValidEntry(directory, r.value.0, r.value.1)
    ensures r.Some? ==> r.value.1.line1 == line1 && r.value.1.line2 == line2
    ensures r.None? <==> CatalogId(line1).None?
                         || FirstNameWithId(directory, CatalogId(line1).value) in {None, Some("")}
  {
    var id := CatalogId(line1);
    if id.None? then None
    else
      var name := FirstNameWithId(directory, id.value);
      if name.None? || name.value == "" then None
      else Some((name.value, Satellite(name.value, line1, line2)))
  }

  /** The triplet starting at line i: a title line (unused) and the two element lines. */
  function TripletEntry(lines: seq<string>, i: nat, directory: seq<(string, int)>): Option<(string, Satellite)>
    requires i + 2 < |lines|
  {
    EntryOf(Strip(lines[i + 1]), Strip(lines[i + 2]), directory)
  }

  /** The entries of the triplets among the first n lines (n a multiple of 3), in order. */
  function Triplets(lines: seq<string>, directory: seq<(string, int)>, n: nat): (es: seq<Option<(string, Satellite)>>)
    requires n % 3 == 0 && n <= |lines|
    ensures |es| == n / 3
  {
    if n == 0 then [] else Triplets(lines, directory, n - 3) + [TripletEntry(lines, n - 3, directory)]
  }

  /** The lines that form complete triplets: a trailing group of one or two lines is dropped. */
  function CompleteLines(n: nat): (m: nat)
    ensures m % 3 == 0 && m <= n < m + 3
  {
    n - n % 3
  }

  /** Assign the entries in order into an empty dictionary; later entries overwrite earlier ones. */
  function Collect(entries: seq<Option<(string, Satellite)>>): Dict<Satellite> {
    if |entries| == 0 then []
    else
      var acc := Collect(entries[..|entries| - 1]);
      var e := entries[|entries| - 1];
      if e.Some? then Put(acc, e.value.0, e.value.1) else acc
  }

  lemma CollectStep(entries: seq<Option<(string, Satellite)>>, e: Option<(string, Satellite)>)
    ensures Collect(entries + [e]) == if e.Some? then Put(Collect(entries), e.value.0, e.value.1) else Collect(entries)
  {
    assert (entries + [e])[..|entries|] == entries;
  }

  lemma NextTriplet(i: nat)
    requires i % 3 == 0
    ensures (i + 3) % 3 == 0
  {
  }

  lemma LastTriplet(n: nat, i: nat)
    requires i % 3 == 0 && i <= n && (i == n || n <= i + 2)
    ensures i == CompleteLines(n)
  {
  }

  /** The body of the parsing loop: look the id up and store the satellite under its name. */
  method AddTriplet(satellites: Dict<Satellite>, line1: string, line2: string, directory: seq<(string, int)>)
    returns (updated: Dict<Satellite>)
    ensures var e := EntryOf(line1, line2, directory);
      updated == if e.Some? then Put(satellites, e.value.0, e.value.1) else satellites
  {
    updated := satellites;
    var id := CatalogId(line1);
    if id.Some? {
      var name := FindName(directory, id.value);
      if name.Some? && name.value != "" {
        updated := Put(satellites, name.value, Satellite(name.value, line1, line2));
      }
    }
  }

  /** `parse_tle_data`: strip, split into lines, and read the complete triplets in order. */
  method ParseTle(text: string, directory: seq<(string, int)>) returns (satellites: Dict<Satellite>)
    ensures var lines := Split(Strip(text));
      satellites == Collect(Triplets(lines, directory, CompleteLines(|lines|)))
  {
    var lines := Split(Strip(text));
    satellites := [];
    var i := 0;
    while i < |lines|
      invariant i % 3 == 0 && i <= |lines|
      invariant satellites == Collect(Triplets(lines, directory, i))
    {
      if i + 2 >= |lines| {
        break;
      }
      var line1 := Strip(lines[i + 1]);
      var line2 := Strip(lines[i + 2]);
      CollectStep(Triplets(lines, directory, i), TripletEntry(lines, i, directory));
      satellites := AddTriplet(satellites, line1, line2, directory);
      NextTriplet(i);
      i := i + 3;
    }
    LastTriplet(|lines|, i);
  }

  /** Collecting keeps keys distinct, and every entry of the result is one of the entries given. */
  lemma {:induction false} CollectEntries(entries: seq<Option<(string, Satellite)>>)
    ensures DistinctKeys(Collect(entries))
    ensures forall i :: 0 <= i < |Collect(entries)| ==> Some(Collect(entries)[i]) in entries
  {
    if |entries| > 0 {
      var init := entries[..|entries| - 1];
      var acc := Collect(init);
      CollectEntries(init);
      var e := entries[|entries| - 1];
      var r := Collect(entries);
      if e.Some? {
        PutGet(acc, e.value.0, e.value.1, e.value.0);
        PutEntries(acc, e.value.0, e.value.1);
      }
      forall i | 0 <= i < |r| ensures Some(r[i]) in entries {
        if Some(r[i]) in init {
          var j :| 0 <= j < |init| && init[j] == Some(r[i]);
          assert entries[j] == init[j];
        }
      }
    }
  }

  /** Every entry a triplet produces is valid. */
  lemma {:induction false} TripletsValid(lines: seq<string>, directory: seq<(string, int)>, n: nat)
    requires n % 3 == 0 && n <= |lines|
    ensures forall e :: e in Triplets(lines, directory, n) && e.Some? ==> ValidEntry(directory, e.value.0, e.value.1)
  {
    if n > 0 {
      TripletsValid(lines, directory, n - 3);
    }
  }

  /**
   * The parsed dictionary has distinct keys, each a non-empty name of the directory, and the
   * satellite under a key carries that name and an id the directory gives that name first.
   */
  lemma ParsedKeys(lines: seq<string>, directory: seq<(string, int)>, n: nat)
    requires n % 3 == 0 && n <= |lines|
    ensures DistinctKeys(Collect(Triplets(lines, directory, n)))
    ensures forall i :: 0 <= i < |Collect(Triplets(lines, directory, n))| ==>
      var (k, v) := Collect(Triplets(lines, directory, n))[i];
      ValidEntry(directory, k, v) && exists id :: (k, id) in directory
  {
    var es := Triplets(lines, directory, n);
    var d := Collect(es);
    CollectEntries(es);
    TripletsValid(lines, directory, n);
    forall i | 0 <= i < |d| ensures ValidEntry(directory, d[i].0, d[i].1) && exists id :: (d[i].0, id) in directory {
      assert Some(d[i]) in es;
      assert (d[i].0, CatalogId(d[i].1.line1).value) in directory;
    }
  }

  /** Assigning a name last sets it. */
  lemma CollectAssigns(entries: seq<Option<(string, Satellite)>>, k: string, v: Satellite)
    ensures Get(Collect(entries + [Some((k, v))]), k) == Some(v)
  {
    CollectStep(entries, Some((k, v)));
    CollectEntries(entries);
    PutGet(Collect(entries), k, v, k);
  }

  /** Entries for other names, and failed triplets, leave a name's value alone. */
  lemma CollectKeeps(entries: seq<Option<(string, Satellite)>>, e: Option<(string, Satellite)>, k: string)
    requires e.None? || e.value.0 != k
    ensures Get(Collect(entries + [e]), k) == Get(Collect(entries), k)
  {
    CollectStep(entries, e);
    CollectEntries(entries);
    if e.Some? {
      PutGet(Collect(entries), e.value.0, e.value.1, k);
    }
  }

  /** The last entry for a name is the one kept for it: a later triplet for the same satellite overwrites an earlier one. */
  lemma {:induction false} CollectLastWins(entries: seq<Option<(string, Satellite)>>, t: nat, k: string, v: Satellite)
    requires t < |entries| && entries[t] == Some((k, v))
    requires forall u :: t < u < |entries| ==> entries[u].None? || entries[u].value.0 != k
    ensures Get(Collect(entries), k) == Some(v)
  {
    var init := entries[..|entries| - 1];
    var e := entries[|entries| - 1];
    assert entries == init + [e];
    if t == |entries| - 1 {
      CollectAssigns(init, k, v);
    } else {
      CollectLastWins(init, t, k, v);
      CollectKeeps(init, e, k);
    }
  }



  // ------------------------------------------------------------ design matrix

  /** Look angles of a satellite from the observer, in degrees, and its range in km. */
  datatype Position = Position(elevation: real, azimuth: real, distance: real)

  /** A design-matrix row: the line-of-sight unit vector (east, north, up) and the clock column. */
  datatype Row = Row(east: real, north: real, up: real, clock: real)

  /** NumPy's pi. */
  const PI: real := 3.141592653589793

  function Radians(degrees: real): real {
    degrees * PI / 180.0
  }

  function RowOf(p: Position, sin: real -> real, cos: real -> real): (r: Row)
    ensures r.clock == 1.0
  {
    var az, el := Radians(p.azimuth), Radians(p.elevation);
    Row(cos(el) * sin(az), cos(el) * cos(az), sin(el), 1.0)
  }

  /** The known positions strictly above the elevation mask, in input order. */
  function AboveMask(positions: seq<Option<Position>>, mask: real): (r: seq<Position>)
    ensures |r| <= |positions|
    ensures forall k :: 0 <= k < |r| ==> r[k].elevation > mask && Some(r[k]) in positions
  {
    if |positions| == 0 then []
    else
      var init := positions[..|positions| - 1];
      var last := positions[|positions| - 1];
      var r := AboveMask(init, mask);
      assert forall k :: 0 <= k < |r| ==> Some(r[k]) in positions by {
        forall k | 0 <= k < |r| ensures Some(r[k]) in positions {
          var j :| 0 <= j < |init| && init[j] == Some(r[k]);
          assert positions[j] == Some(r[k]);
        }
      }
      if last.Some? && last.value.elevation > mask then r + [last.value] else r
  }

  /** Every known position above the mask is kept. */
  lemma {:induction false} AboveMaskComplete(positions: seq<Option<Position>>, mask: real, j: nat)
    requires j < |positions| && positions[j].Some? && positions[j].value.elevation > mask
    ensures positions[j].value in AboveMask(positions, mask)
  {
    if j < |positions| - 1 {
      AboveMaskComplete(positions[..|positions| - 1], mask, j);
    }
  }

  function DesignRows(positions: seq<Option<Position>>, mask: real, sin: real -> real, cos: real -> real): (h: seq<Row>)
    ensures |h| == |AboveMask(positions, mask)|
    ensures forall k :: 0 <= k < |h| ==> h[k] == RowOf(AboveMask(positions, mask)[k], sin, cos)
  {
    var v := AboveMask(positions, mask);
    seq(|v|, k requires 0 <= k < |v| => RowOf(v[k], sin, cos))
  }

  /** `calculate_design_matrix`: one row per known position strictly above the mask, appended in order. */
  method DesignMatrix(positions: seq<Option<Position>>, mask: real, sin: real -> real, cos: real -> real)
    returns (h: seq<Row>)
    ensures h == DesignRows(positions, mask, sin, cos)
    ensures forall k :: 0 <= k < |h| ==> h[k].clock == 1.0
  {
    h := [];
    for i := 0 to |positions|
      invariant h == DesignRows(positions[..i], mask, sin, cos)
    {
      assert positions[..i + 1][..i] == positions[..i];
      var p := positions[i];
      if p.Some? && p.value.elevation > mask {
        h := h + [RowOf(p.value, sin, cos)];
      }
    }
    assert positions[..|positions|] == positions;
  }

  // ------------------------------------------------------------ DOP values

  function Column(r: Row, j: nat): real
    requires j < 4
  {
    if j == 0 then r.east else if j == 1 then r.north else if j == 2 then r.up else r.clock
  }

  /** Entry (j, k) of H^T H: the dot product of columns j and k. */
  function ColumnDot(h: seq<Row>, j: nat, k: nat): real
    requires j < 4 && k < 4
  {
    if |h| == 0 then 0.0 else ColumnDot(h[..|h| - 1], j, k) + Column(h[|h| - 1], j) * Column(h[|h| - 1], k)
  }

  type Matrix4 = m: seq<seq<real>> | |m| == 4 && forall i :: 0 <= i < 4 ==> |m[i]| == 4
    witness [[0.0, 0.0, 0.0, 0.0], [0.0, 0.0, 0.0, 0.0], [0.0, 0.0, 0.0, 0.0], [0.0, 0.0, 0.0, 0.0]]

  function Gram(h: seq<Row>): Matrix4 {
    seq(4, j requires 0 <= j < 4 => seq(4, k requires 0 <= k < 4 => ColumnDot(h, j, k)))
  }

  lemma {:induction false} ColumnDotSymmetric(h: seq<Row>, j: nat, k: nat)
    requires j < 4 && k < 4
    ensures ColumnDot(h, j, k) == ColumnDot(h, k, j)
  {
    if |h| > 0 {
      ColumnDotSymmetric(h[..|h| - 1], j, k);
    }
  }

  lemma {:induction false} ClockColumnCount(h: seq<Row>)
    requires forall k :: 0 <= k < |h| ==> h[k].clock == 1.0
    ensures ColumnDot(h, 3, 3) == |h| as real
  {
    if |h| > 0 {
      ClockColumnCount(h[..|h| - 1]);
    }
  }

  /** H^T H is symmetric, and with clock entries of 1 its (3,3) entry is the number of rows. */
  lemma GramProperties(h: seq<Row>)
    ensures forall j, k :: 0 <= j < 4 && 0 <= k < 4 ==> Gram(h)[j][k] == Gram(h)[k][j]
    ensures (forall k :: 0 <= k < |h| ==> h[k].clock == 1.0) ==> Gram(h)[3][3] == |h| as real
  {
    forall j, k | 0 <= j < 4 && 0 <= k < 4 ensures Gram(h)[j][k] == Gram(h)[k][j] {
      ColumnDotSymmetric(h, j, k);
    }
    if forall k :: 0 <= k < |h| ==> h[k].clock == 1.0 {
      ClockColumnCount(h);
    }
  }

  datatype Dop = Dop(gdop: real, pdop: real, hdop: real, vdop: real, tdop: real)

  /** The five DOP values from the covariance factor Q = (H^T H)^-1. */
  function DopOf(q: Matrix4, sqrt: real -> real): Dop {
    Dop(sqrt(q[0][0] + q[1][1] + q[2][2] + q[3][3]),
        sqrt(q[0][0] + q[1][1] + q[2][2]),
        sqrt(q[0][0] + q[1][1]),
        sqrt(q[2][2]),
        sqrt(q[3][3]))
  }

  /**
   * `calculate_dop_values`: None with fewer than four rows, when det(H^T H) is 0, or when the
   * inversion fails; otherwise the DOP values of the inverse.
   */
  function DopValues(h: seq<Row>, det: Matrix4 -> real, inv: Matrix4 -> Option<Matrix4>, sqrt: real -> real): (r: Option<Dop>)
    ensures r.Some? <==> |h| >= 4 && det(Gram(h)) != 0.0 && inv(Gram(h)).Some?
    ensures r.Some? ==> r.value == DopOf(inv(Gram(h)).value, sqrt)
  {
    if |h| < 4 then None
    else
      var g := Gram(h);
      if det(g) == 0.0 then None
      else
        var q := inv(g);
        if q.None? then None else Some(DopOf(q.value, sqrt))
  }

  /** With a non-negative diagonal, GDOP^2 = PDOP^2 + TDOP^2 and PDOP^2 = HDOP^2 + VDOP^2. */
  lemma DopQuadrature(q: Matrix4, sqrt: real -> real)
    requires IsSqrt(sqrt)
    requires forall i :: 0 <= i < 4 ==> q[i][i] >= 0.0
    ensures var d := DopOf(q, sqrt);
      && d.gdop * d.gdop == d.pdop * d.pdop + d.tdop * d.tdop
      && d.pdop * d.pdop == d.hdop * d.hdop + d.vdop * d.vdop
      && d.hdop <= d.pdop <= d.gdop
  {
    var a, b, c, e := q[0][0], q[1][1], q[2][2], q[3][3];
    var d := DopOf(q, sqrt);
    assert d.gdop * d.gdop == a + b + c + e;
    assert d.pdop * d.pdop == a + b + c;
    assert d.hdop * d.hdop == a + b;
    assert d.vdop * d.vdop == c;
    assert d.tdop * d.tdop == e;
    SqrtMonotone(sqrt, a + b, a + b + c);
    SqrtMonotone(sqrt, a + b + c, a + b + c + e);
  }

  lemma ProductPositive(x: real, y: real)
    requires x > 0.0 && y > 0.0
    ensures x * y > 0.0
  {
  }

  lemma DifferenceOfSquares(a: real, b: real)
    ensures (a - b) * (a + b) == a * a - b * b
  {
  }

  /** Squaring is strictly increasing on the non-negative reals, so it reflects order. */
  lemma RootOrder(a: real, b: real)
    requires a >= 0.0 && b >= 0.0 && a * a <= b * b
    ensures a <= b
  {
    if a > b {
      ProductPositive(a - b, a + b);
      DifferenceOfSquares(a, b);
      assert false;
    }
  }

  lemma SqrtMonotone(sqrt: real -> real, x: real, y: real)
    requires IsSqrt(sqrt) && 0.0 <= x <= y
    ensures sqrt(x) <= sqrt(y)
  {
    RootOrder(sqrt(x), sqrt(y));
  }


  // ------------------------------------------------------------ DOP for a location

  /** The known positions of the satellites, in dictionary order. */
  function Located(sats: Dict<Satellite>, positionOf: Satellite -> Option<Position>): (r: seq<Position>)
    ensures |r| <= |sats|
  {
    if |sats| == 0 then []
    else
      var init := Located(sats[..|sats| - 1], positionOf);
      var p := positionOf(sats[|sats| - 1].1);
      if p.Some? then init + [p.value] else init
  }

  /** Names of the satellites with a known position strictly above the mask, in dictionary order. */
  function VisibleNames(sats: Dict<Satellite>, positionOf: Satellite -> Option<Position>, mask: real): (r: seq<string>)
    ensures |r| <= |sats|
  {
    if |sats| == 0 then []
    else
      var init := VisibleNames(sats[..|sats| - 1], positionOf, mask);
      var p := positionOf(sats[|sats| - 1].1);
      if p.Some? && p.value.elevation > mask then init + [sats[|sats| - 1].0] else init
  }

  function LiftPositions(ps: seq<Position>): (r: seq<Option<Position>>)
    ensures |r| == |ps|
  {
    seq(|ps|, k requires 0 <= k < |ps| => Some(ps[k]))
  }

  /** One visible name per design-matrix row: both use the same strict elevation test. */
  lemma {:induction false} VisibleMatchesRows(sats: Dict<Satellite>, positionOf: Satellite -> Option<Position>, mask: real)
    ensures |VisibleNames(sats, positionOf, mask)| == |AboveMask(LiftPositions(Located(sats, positionOf)), mask)|
  {
    if |sats| > 0 {
      var init := sats[..|sats| - 1];
      VisibleMatchesRows(init, positionOf, mask);
      var li := LiftPositions(Located(init, positionOf));
      var p := positionOf(sats[|sats| - 1].1);
      var l := LiftPositions(Located(sats, positionOf));
      if p.Some? {
        assert l[..|l| - 1] == li;
      } else {
        assert l == li;
      }
    }
  }

  /**
   * `calculate_dop_for_location`: collect the known positions and the names above the mask
   * in dictionary order, build the design matrix and compute the DOP values.
   */
  method DopForLocation(
    sats: Dict<Satellite>, positionOf: Satellite -> Option<Position>, mask: real,
    sin: real -> real, cos: real -> real,
    det: Matrix4 -> real, inv: Matrix4 -> Option<Matrix4>, sqrt: real -> real)
    returns (dop: Option<Dop>, visible: seq<string>, positions: seq<Position>)
    ensures positions == Located(sats, positionOf)
    ensures visible == VisibleNames(sats, positionOf, mask)
    ensures dop == DopValues(DesignRows(LiftPositions(positions), mask, sin, cos), det, inv, sqrt)
    ensures |visible| == |DesignRows(LiftPositions(positions), mask, sin, cos)|
  {
    positions := [];
    visible := [];
    for i := 0 to |sats|
      invariant positions == Located(sats[..i], positionOf)
      invariant visible == VisibleNames(sats[..i], positionOf, mask)
    {
      assert sats[..i + 1][..i] == sats[..i];
      var pos := positionOf(sats[i].1);
      if pos.Some? {
        positions := positions + [pos.value];
        if pos.value.elevation > mask {
          visible := visible + [sats[i].0];
        }
      }
    }
    assert sats[..|sats|] == sats;
    var h := DesignMatrix(LiftPositions(positions), mask, sin, cos);
    dop := DopValues(h, det, inv, sqrt);
    VisibleMatchesRows(sats, positionOf, mask);
  }

  // ------------------------------------------------------------ GDOP quality

  /** `get_dop_quality`: the first label whose bound lies strictly above the GDOP, else Poor. */
  function QualityFrom(table: seq<(string, real)>, gdop: real): string {
    if |table| == 0 then "Poor"
    else if gdop < table[0].1 then table[0].0
    else QualityFrom(table[1..], gdop)
  }

  function DopQuality(gdop: real): string {
    QualityFrom(DOP_QUALITY_BOUNDS, gdop)
  }

  /** Position of a quality label in the table, Poor last. */
  function QualityRank(quality: string): nat {
    if quality == "Excellent" then 0
    else if quality == "Good" then 1
    else if quality == "Moderate" then 2
    else if quality == "Fair" then 3
    else 4
  }

  /** The table scan written out: the first bound strictly above the GDOP decides. */
  lemma QualityClosedForm(gdop: real)
    ensures DopQuality(gdop) ==
      if gdop < 2.0 then "Excellent" else if gdop < 4.0 then "Good"
      else if gdop < 6.0 then "Moderate" else if gdop < 8.0 then "Fair" else "Poor"
  {
    var t0 := DOP_QUALITY_BOUNDS;
    var t1 := [("Good", 4.0), ("Moderate", 6.0), ("Fair", 8.0)];
    var t2 := [("Moderate", 6.0), ("Fair", 8.0)];
    var t3 := [("Fair", 8.0)];
    assert t0[1..] == t1 && t1[1..] == t2 && t2[1..] == t3 && t3[1..] == [];
    assert QualityFrom(t3, gdop) == if gdop < 8.0 then "Fair" else "Poor";
    assert QualityFrom(t2, gdop) == if gdop < 6.0 then "Moderate" else QualityFrom(t3, gdop);
    assert QualityFrom(t1, gdop) == if gdop < 4.0 then "Good" else QualityFrom(t2, gdop);
  }

  /** The quality bands: below 2, [2, 4), [4, 6), [6, 8), and from 8 on. */
  lemma QualityBands(gdop: real)
    ensures DopQuality(gdop) == "Excellent" <==> gdop < 2.0
    ensures DopQuality(gdop) == "Good" <==> 2.0 <= gdop < 4.0
    ensures DopQuality(gdop) == "Moderate" <==> 4.0 <= gdop < 6.0
    ensures DopQuality(gdop) == "Fair" <==> 6.0 <= gdop < 8.0
    ensures DopQuality(gdop) == "Poor" <==> gdop >= 8.0
  {
    QualityClosedForm(gdop);
    assert "Excellent"[0] == 'E' && "Good"[0] == 'G' && "Moderate"[0] == 'M' && "Fair"[0] == 'F' && "Poor"[0] == 'P';
  }


  /** A bound belongs to the band above it: a GDOP of exactly 2 is Good, not Excellent. */
  lemma QualityAtBound()
    ensures DopQuality(2.0) == "Good"
  {
    QualityBands(2.0);
  }

  /** A larger GDOP never gets a better label. */
  lemma QualityMonotone(g1: real, g2: real)
    requires g1 <= g2
    ensures QualityRank(DopQuality(g1)) <= QualityRank(DopQuality(g2))
  {
    QualityBands(g1);
    QualityBands(g2);
  }

  // ------------------------------------------------------------ ground track

  /** Python's `int(a / b)`: the quotient truncated toward zero. */
  function TruncDiv(a: int, b: int): (q: int)
    requires b != 0
    ensures a >= 0 && b > 0 ==> q == a / b
  {
    var q := (if a >= 0 then a else -a) / (if b >= 0 then b else -b);
    if (a >= 0) == (b > 0) then q else -q
  }

  /** Whole seconds in the propagation duration: `timedelta.seconds + 86400 * timedelta.days`. */
  function DurationSeconds(propDays: real): int {
    (propDays * 86400.0).Floor
  }

  /** Sample offsets (seconds after the epoch): `np.arange(1, n_steps - 1) * step`. */
  function Offsets(nSteps: int, step: int): (r: seq<int>)
    ensures |r| == if nSteps >= 2 then nSteps - 2 else 0
    ensures forall k :: 0 <= k < |r| ==> r[k] == (k + 1) * step
  {
    var n := if nSteps >= 2 then nSteps - 2 else 0;
    seq(n, k requires 0 <= k < n => (k + 1) * step)
  }

  /** The sample offsets of a duration at a time step, None when the step is 0 minutes. */
  function SampleOffsets(durationSeconds: int, timestepMinutes: int): (r: Option<seq<int>>)
    ensures r.None? <==> timestepMinutes == 0
  {
    var step := 60 * timestepMinutes;
    if step == 0 then None
    else Some(Offsets(TruncDiv(durationSeconds, step) + 1, step))
  }

  /** Multiplying by a non-negative factor keeps order. */
  lemma MulMonotone(a: int, b: int, c: int)
    requires a <= b && c >= 0
    ensures a * c <= b * c
  {
  }

  /** Euclidean division rounds a non-negative quotient down. */
  lemma QuotientBound(n: int, d: int)
    requires n >= 0 && d > 0
    ensures (n / d) * d <= n
  {
  }

  /** The (k+1)-th multiple of the step, for k below q - 1, lies strictly between 0 and n when q steps fit in n. */
  lemma OffsetInside(k: nat, q: int, step: int, n: int)
    requires k < q - 1 && step > 0 && q * step <= n
    ensures 0 < (k + 1) * step < n
  {
    MulMonotone(k + 1, q - 1, step);
    MulMonotone(1, k + 1, step);
    assert (q - 1) * step == q * step - step;
  }

  /** Samples are evenly spaced by the step and lie strictly inside the propagation window. */
  lemma OffsetsInsideWindow(durationSeconds: int, timestepMinutes: int)
    requires durationSeconds >= 0 && timestepMinutes > 0
    ensures var step := 60 * timestepMinutes; var r := SampleOffsets(durationSeconds, timestepMinutes).value;
      && |r| == (if durationSeconds / step >= 1 then durationSeconds / step - 1 else 0)
      && (forall k :: 0 <= k < |r| - 1 ==> r[k + 1] - r[k] == step)
      && (forall k :: 0 <= k < |r| ==> 0 < r[k] < durationSeconds)
  {
    var step := 60 * timestepMinutes;
    var q := durationSeconds / step;
    var r := SampleOffsets(durationSeconds, timestepMinutes).value;
    assert r == Offsets(q + 1, step);
    QuotientBound(durationSeconds, step);
    forall k | 0 <= k < |r| ensures 0 < r[k] < durationSeconds {
      OffsetInside(k, q, step, durationSeconds);
    }
    forall k | 0 <= k < |r| - 1 ensures r[k + 1] - r[k] == step {
      assert (k + 2) * step == (k + 1) * step + step;
    }
  }


  /** The default sampling (15-minute step over 1.5 days) gives 143 offsets, from 900 s to 128700 s. */
  lemma DefaultSampling()
    ensures DurationSeconds(DEFAULT_PROP_DURATION_DAYS) == 129600
    ensures var r := SampleOffsets(129600, DEFAULT_TIMESTEP_MINUTES).value;
      |r| == 143 && r[0] == 900 && r[142] == 128700
  {
  }

  /** Latitude/longitude envelope of a propagated ground track. */
  datatype GeoBox = GeoBox(
    offsets: seq<int>, latitudes: seq<real>, longitudes: seq<real>,
    minLon: real, maxLon: real, meanLon: real,
    minLat: real, maxLat: real, meanLat: real)

  /** Sub-satellite points at each offset, None as soon as one propagation fails. */
  function Track(sat: Satellite, epoch: real, offsets: seq<int>, subpoint: (Satellite, real) -> Option<(real, real)>): (r: Option<seq<(real, real)>>)
    ensures r.Some? ==> |r.value| == |offsets|
    ensures r.Some? ==> forall k :: 0 <= k < |offsets| ==> subpoint(sat, epoch + offsets[k] as real) == Some(r.value[k])
  {
    if |offsets| == 0 then Some([])
    else
      var init := Track(sat, epoch, offsets[..|offsets| - 1], subpoint);
      var p := subpoint(sat, epoch + offsets[|offsets| - 1] as real);
      if init.None? || p.None? then None else Some(init.value + [p.value])
  }

  /**
   * `get_geo_box_vectorized`: None where the source raises (a zero step, a failed
   * propagation, or no samples for `min`); otherwise the track and its envelope.
   */
  function GeoBoxOf(sat: Satellite, epoch: real, timestepMinutes: int, propDays: real,
                    subpoint: (Satellite, real) -> Option<(real, real)>): (r: Option<GeoBox>)
    ensures var offsets := SampleOffsets(DurationSeconds(propDays), timestepMinutes);
      r.None? <==> offsets.None? || |offsets.value| == 0 || Track(sat, epoch, offsets.value, subpoint).None?
    ensures r.Some? ==> r.value.offsets == SampleOffsets(DurationSeconds(propDays), timestepMinutes).value
    ensures r.Some? ==> |r.value.latitudes| == |r.value.longitudes| == |r.value.offsets| > 0
    ensures r.Some? ==> forall k :: 0 <= k < |r.value.offsets| ==>
      subpoint(sat, epoch + r.value.offsets[k] as real) == Some((r.value.latitudes[k], r.value.longitudes[k]))
  {
    var offsets := SampleOffsets(DurationSeconds(propDays), timestepMinutes);
    if offsets.None? then None
    else
      var track := Track(sat, epoch, offsets.value, subpoint);
      if track.None? || |track.value| == 0 then None
      else
        var pts := track.value;
        var lats := seq(|pts|, k requires 0 <= k < |pts| => pts[k].0);
        var lons := seq(|pts|, k requires 0 <= k < |pts| => pts[k].1);
        Some(GeoBox(offsets.value, lats, lons, Min(lons), Max(lons), Mean(lons), Min(lats), Max(lats), Mean(lats)))
  }

  /** Each axis of a box satisfies min <= mean <= max and bounds every sample. */
  lemma GeoBoxEnvelope(sat: Satellite, epoch: real, timestepMinutes: int, propDays: real,
                       subpoint: (Satellite, real) -> Option<(real, real)>)
    requires GeoBoxOf(sat, epoch, timestepMinutes, propDays, subpoint).Some?
    ensures var b := GeoBoxOf(sat, epoch, timestepMinutes, propDays, subpoint).value;
      && b.minLon <= b.meanLon <= b.maxLon && b.minLat <= b.meanLat <= b.maxLat
      && (forall k :: 0 <= k < |b.longitudes| ==> b.minLon <= b.longitudes[k] <= b.maxLon)
      && (forall k :: 0 <= k < |b.latitudes| ==> b.minLat <= b.latitudes[k] <= b.maxLat)
  {
    var b := GeoBoxOf(sat, epoch, timestepMinutes, propDays, subpoint).value;
    MinMeanMax(b.longitudes);
    MinMeanMax(b.latitudes);
    MinMaxBound(b.longitudes);
    MinMaxBound(b.latitudes);
  }

  /** The dictionary of the successful results of `f` over the first `count` entries, assigned in order. */
  function Successes<A, B>(d: Dict<A>, f: A -> Option<B>, count: nat): Dict<B>
    requires count <= |d|
  {
    if count == 0 then []
    else
      var acc := Successes(d, f, count - 1);
      var b := f(d[count - 1].1);
      if b.Some? then Put(acc, d[count - 1].0, b.value) else acc
  }

  /** The dictionary of successful results never holds a name twice. */
  lemma {:induction false} SuccessesDistinct<A, B>(d: Dict<A>, f: A -> Option<B>, count: nat)
    requires count <= |d|
    ensures DistinctKeys(Successes(d, f, count))
  {
    if count > 0 {
      SuccessesDistinct(d, f, count - 1);
      var b := f(d[count - 1].1);
      if b.Some? {
        PutGet(Successes(d, f, count - 1), d[count - 1].0, b.value, d[count - 1].0);
      }
    }
  }

  /** The names with a result among the first `count` entries are among those entries' names. */
  lemma {:induction false} SuccessesAmong<A, B>(d: Dict<A>, f: A -> Option<B>, count: nat)
    requires count <= |d|
    ensures forall k :: k in Keys(Successes(d, f, count)) ==> k in Keys(d[..count])
  {
    if count > 0 {
      SuccessesAmong(d, f, count - 1);
      var acc := Successes(d, f, count - 1);
      var key := d[count - 1].0;
      var b := f(d[count - 1].1);
      PrefixKeys(d, count - 1);
      forall k | k in Keys(Successes(d, f, count)) ensures k in Keys(d[..count]) {
        if k != key {
          assert k in Keys(acc);
        }
      }
    }
  }

  /** The names of a one-longer prefix are the prefix's names and then the next name. */
  lemma PrefixKeys<A>(d: Dict<A>, n: nat)
    requires n < |d|
    ensures Keys(d[..n + 1]) == Keys(d[..n]) + [d[n].0]
  {
  }

  /** With distinct names, an entry has a result exactly when `f` succeeds on it, and it is that result. */
  lemma {:induction false} SuccessesExactly<A, B>(d: Dict<A>, f: A -> Option<B>, count: nat, i: nat)
    requires DistinctKeys(d) && i < count <= |d|
    ensures Get(Successes(d, f, count), d[i].0) == f(d[i].1)
  {
    var acc := Successes(d, f, count - 1);
    var b := f(d[count - 1].1);
    SuccessesDistinct(d, f, count - 1);
    if i < count - 1 {
      SuccessesExactly(d, f, count - 1, i);
      if b.Some? {
        PutGet(acc, d[count - 1].0, b.value, d[i].0);
      }
    } else if b.Some? {
      PutGet(acc, d[i].0, b.value, d[i].0);
    } else {
      SuccessesAmong(d, f, count - 1);
      assert d[i].0 !in Keys(d[..count - 1]);
    }
  }

  /** The box computation for one satellite with the run's settings. */
  function BoxOf(epoch: real, timestepMinutes: int, propDays: real,
                 subpoint: (Satellite, real) -> Option<(real, real)>): Satellite -> Option<GeoBox>
  {
    sat => GeoBoxOf(sat, epoch, timestepMinutes, propDays, subpoint)
  }

  /** The boxes dictionary after the first `count` satellites; failures are skipped. */
  function Boxes(sats: Dict<Satellite>, epoch: real, timestepMinutes: int, propDays: real,
                 subpoint: (Satellite, real) -> Option<(real, real)>, count: nat): Dict<GeoBox>
    requires count <= |sats|
  {
    Successes(sats, BoxOf(epoch, timestepMinutes, propDays, subpoint), count)
  }

  /** `calculate_bounding_boxes`: a box for every satellite whose computation succeeds. */
  method BoundingBoxes(sats: Dict<Satellite>, epoch: real, timestepMinutes: int, propDays: real,
                       subpoint: (Satellite, real) -> Option<(real, real)>)
    returns (boxes: Dict<GeoBox>)
    ensures boxes == Boxes(sats, epoch, timestepMinutes, propDays, subpoint, |sats|)
  {
    boxes := [];
    for i := 0 to |sats|
      invariant boxes == Boxes(sats, epoch, timestepMinutes, propDays, subpoint, i)
    {
      var b := GeoBoxOf(sats[i].1, epoch, timestepMinutes, propDays, subpoint);
      if b.Some? {
        boxes := Put(boxes, sats[i].0, b.value);
      }
    }
  }

  /** With distinct names, a satellite has a box exactly when its computation succeeds, and it is that box. */
  lemma BoxesPresentExactlyOnSuccess(sats: Dict<Satellite>, epoch: real, timestepMinutes: int, propDays: real,
                                     subpoint: (Satellite, real) -> Option<(real, real)>, i: nat)
    requires DistinctKeys(sats) && i < |sats|
    ensures Get(Boxes(sats, epoch, timestepMinutes, propDays, subpoint, |sats|), sats[i].0)
         == GeoBoxOf(sats[i].1, epoch, timestepMinutes, propDays, subpoint)
  {
    SuccessesExactly(sats, BoxOf(epoch, timestepMinutes, propDays, subpoint), |sats|, i);
  }

  /** Box names are distinct and all are satellite names. */
  lemma BoxesDistinct(sats: Dict<Satellite>, epoch: real, timestepMinutes: int, propDays: real,
                      subpoint: (Satellite, real) -> Option<(real, real)>)
    requires DistinctKeys(sats)
    ensures DistinctKeys(Boxes(sats, epoch, timestepMinutes, propDays, subpoint, |sats|))
    ensures forall k :: k in Keys(Boxes(sats, epoch, timestepMinutes, propDays, subpoint, |sats|)) ==> k in Keys(sats)
  {
    SuccessesDistinct(sats, BoxOf(epoch, timestepMinutes, propDays, subpoint), |sats|);
    SuccessesAmong(sats, BoxOf(epoch, timestepMinutes, propDays, subpoint), |sats|);
    assert sats[..|sats|] == sats;
  }
}
