/**
 * The Maidenhead Locator System encoder of src/utils/maidenhead.ts, on exact
 * reals.  The coordinates are shifted to adjustedLon in [0, 360] and
 * adjustedLat in [0, 180]; each level then picks the index of the cell that
 * holds them at that level: field (20 x 10 degrees, letters), square
 * (2 x 1, digits), subsquare (1/12 x 1/24, lower-case letters) and extended
 * square (1/120 x 1/240, digits).
 */
module Maidenhead {
  import opened Wrappers
  import opened Decimal

  datatype RangeError = LatitudeOutOfRange | LongitudeOutOfRange

  /** JavaScript's `x % m`: the remainder of the division truncated toward zero. */
  function JsRem(x: real, m: real): (r: real)
    requires m > 0.0
    ensures x >= 0.0 ==> r == x - (x / m).Floor as real * m
    ensures x >= 0.0 ==> 0.0 <= r < m
  {
    var q := x / m;
    var t := if q >= 0.0 then q.Floor else -((-q).Floor);
    if x >= 0.0 then RemainderBounds(x, m); x - t as real * m
    else x - t as real * m
  }

  /** For a non-negative x the quotient is non-negative and the floored remainder lies in [0, m). */
  lemma RemainderBounds(x: real, m: real)
    requires x >= 0.0 && m > 0.0
    ensures x / m >= 0.0
    ensures 0.0 <= x - (x / m).Floor as real * m < m
  {
    var q := x / m;
    var f := q.Floor as real;
    assert q * m == x;
    if q < 0.0 { MulStrictMonotone(q, 0.0, m); }
    assert f <= q < f + 1.0;
    MulMonotone(f, q, m);
    MulStrictMonotone(q, f + 1.0, m);
    assert (f + 1.0) * m == f * m + m;
    assert x < f * m + m;
    assert x - f * m < m;
  }

  lemma MulMonotone(a: real, b: real, m: real)
    requires a <= b && m > 0.0
    ensures a * m <= b * m
  {
    assert (b - a) * m >= 0.0;
  }

  lemma MulStrictMonotone(a: real, b: real, m: real)
    requires a < b && m > 0.0
    ensures a * m < b * m
  {
    assert (b - a) * m > 0.0;
  }

  /** `String.fromCharCode(code)` for a code of the Basic Latin block. */
  function FromCharCode(code: int): (c: char)
    requires 0 <= code < 128
    ensures c as int == code
  {
    code as char
  }

  // Per-level indices: each promises its range and that the shifted
  // coordinate (or its remainder in the enclosing cell) lies in the cell
  // the index names.

  function FieldLonIndex(adjustedLon: real): (i: int)
    requires 0.0 <= adjustedLon <= 360.0
    ensures 0 <= i <= 18 && (i == 18 <==> adjustedLon == 360.0)
    ensures 20.0 * i as real <= adjustedLon < 20.0 * i as real + 20.0
  {
    (adjustedLon / 20.0).Floor
  }

  function FieldLatIndex(adjustedLat: real): (i: int)
    requires 0.0 <= adjustedLat <= 180.0
    ensures 0 <= i <= 18 && (i == 18 <==> adjustedLat == 180.0)
    ensures 10.0 * i as real <= adjustedLat < 10.0 * i as real + 10.0
  {
    (adjustedLat / 10.0).Floor
  }

  function SquareLonIndex(adjustedLon: real): (i: nat)
    requires 0.0 <= adjustedLon
    ensures i <= 9
    ensures 2.0 * i as real <= JsRem(adjustedLon, 20.0) < 2.0 * i as real + 2.0
  {
    (JsRem(adjustedLon, 20.0) / 2.0).Floor
  }

  function SquareLatIndex(adjustedLat: real): (i: nat)
    requires 0.0 <= adjustedLat
    ensures i <= 9
    ensures i as real <= JsRem(adjustedLat, 10.0) < i as real + 1.0
  {
    (JsRem(adjustedLat, 10.0) / 1.0).Floor
  }

  function SubsquareLonIndex(adjustedLon: real): (i: int)
    requires 0.0 <= adjustedLon
    ensures 0 <= i <= 23
    ensures var rest := adjustedLon - (adjustedLon / 2.0).Floor as real * 2.0;
      i as real / 12.0 <= rest < (i + 1) as real / 12.0
  {
    ((adjustedLon - (adjustedLon / 2.0).Floor as real * 2.0) * 12.0).Floor
  }

  function SubsquareLatIndex(adjustedLat: real): (i: int)
    requires 0.0 <= adjustedLat
    ensures 0 <= i <= 23
    ensures var rest := adjustedLat - (adjustedLat / 1.0).Floor as real * 1.0;
      i as real / 24.0 <= rest < (i + 1) as real / 24.0
  {
    ((adjustedLat - (adjustedLat / 1.0).Floor as real * 1.0) * 24.0).Floor
  }

  function ExtendedLonIndex(adjustedLon: real): (i: nat)
    requires 0.0 <= adjustedLon
    ensures i <= 9
    ensures i as real / 120.0 <= JsRem(adjustedLon, 1.0 / 12.0) < (i + 1) as real / 120.0
  {
    (JsRem(adjustedLon, 1.0 / 12.0) / (1.0 / 120.0)).Floor
  }

  function ExtendedLatIndex(adjustedLat: real): (i: nat)
    requires 0.0 <= adjustedLat
    ensures i <= 9
    ensures i as real / 240.0 <= JsRem(adjustedLat, 1.0 / 24.0) < (i + 1) as real / 240.0
  {
    (JsRem(adjustedLat, 1.0 / 24.0) / (1.0 / 240.0)).Floor
  }

  // The four character pairs.

  predicate IsFieldLetter(c: char) { 'A' <= c <= 'S' }
  predicate IsSubsquareLetter(c: char) { 'a' <= c <= 'x' }

  /** Two capital letters, A plus the field indices, longitude first. */
  function FieldPair(adjustedLon: real, adjustedLat: real): (r: string)
    requires 0.0 <= adjustedLon <= 360.0 && 0.0 <= adjustedLat <= 180.0
    ensures |r| == 2 && IsFieldLetter(r[0]) && IsFieldLetter(r[1])
    ensures r[0] as int == 65 + FieldLonIndex(adjustedLon)
    ensures r[1] as int == 65 + FieldLatIndex(adjustedLat)
  {
    [FromCharCode(65 + FieldLonIndex(adjustedLon)), FromCharCode(65 + FieldLatIndex(adjustedLat))]
  }

  /** Two decimal digits, the square indices, longitude first. */
  function SquarePair(adjustedLon: real, adjustedLat: real): (r: string)
    requires 0.0 <= adjustedLon && 0.0 <= adjustedLat
    ensures |r| == 2 && IsDigit(r[0]) && IsDigit(r[1])
    ensures DigitValue(r[0]) == SquareLonIndex(adjustedLon)
    ensures DigitValue(r[1]) == SquareLatIndex(adjustedLat)
  {
    ShowDigit(SquareLonIndex(adjustedLon));
    ShowDigit(SquareLatIndex(adjustedLat));
    Show(SquareLonIndex(adjustedLon)) + Show(SquareLatIndex(adjustedLat))
  }

  /** Two lower-case letters, a plus the subsquare indices, longitude first. */
  function SubsquarePair(adjustedLon: real, adjustedLat: real): (r: string)
    requires 0.0 <= adjustedLon && 0.0 <= adjustedLat
    ensures |r| == 2 && IsSubsquareLetter(r[0]) && IsSubsquareLetter(r[1])
    ensures r[0] as int == 97 + SubsquareLonIndex(adjustedLon)
    ensures r[1] as int == 97 + SubsquareLatIndex(adjustedLat)
  {
    [FromCharCode(97 + SubsquareLonIndex(adjustedLon)), FromCharCode(97 + SubsquareLatIndex(adjustedLat))]
  }

  /** Two decimal digits, the extended square indices, longitude first. */
  function ExtendedPair(adjustedLon: real, adjustedLat: real): (r: string)
    requires 0.0 <= adjustedLon && 0.0 <= adjustedLat
    ensures |r| == 2 && IsDigit(r[0]) && IsDigit(r[1])
    ensures DigitValue(r[0]) == ExtendedLonIndex(adjustedLon)
    ensures DigitValue(r[1]) == ExtendedLatIndex(adjustedLat)
  {
    ShowDigit(ExtendedLonIndex(adjustedLon));
    ShowDigit(ExtendedLatIndex(adjustedLat));
    Show(ExtendedLonIndex(adjustedLon)) + Show(ExtendedLatIndex(adjustedLat))
  }

  /** The number of character pairs `precision` asks for. */
  function Levels(precision: int): (n: nat)
    ensures 1 <= n <= 4
  {
    if precision < 2 then 1 else if precision < 3 then 2 else if precision < 4 then 3 else 4
  }

  predicate InRange(lat: real, lon: real)
  {
    -90.0 <= lat <= 90.0 && -180.0 <= lon <= 180.0
  }

  /**
   * `toMaidenhead(lat, lon, precision)`: a range error for a coordinate off
   * the globe (the latitude is checked first), otherwise the field pair
   * followed by as many further pairs as `precision` asks for (3 when the
   * caller leaves it out).
   */
  function ToMaidenhead(lat: real, lon: real, precision: int := 3): (r: Result<string, RangeError>)
    ensures r.Err? <==> !InRange(lat, lon)
    ensures r == Err(LatitudeOutOfRange) <==> (lat < -90.0 || lat > 90.0)
    ensures r.Ok? ==> |r.value| == 2 * Levels(precision) && WellFormed(r.value)
  {
    if lat < -90.0 || lat > 90.0 then Err(LatitudeOutOfRange)
    else if lon < -180.0 || lon > 180.0 then Err(LongitudeOutOfRange)
    else
      var adjustedLon := lon + 180.0;
      var adjustedLat := lat + 90.0;
      var field := FieldPair(adjustedLon, adjustedLat);
      if precision < 2 then Ok(field)
      else
        var square := field + SquarePair(adjustedLon, adjustedLat);
        if precision < 3 then Ok(square)
        else
          var subsquare := square + SubsquarePair(adjustedLon, adjustedLat);
          if precision < 4 then Ok(subsquare)
          else Ok(subsquare + ExtendedPair(adjustedLon, adjustedLat))
  }

  // Reading a locator back.

  /**
   * The shape of every locator the encoder emits: an even length of 2 to 8,
   * field letters A..S, square digits, subsquare letters a..x and extended
   * square digits.
   */
  predicate WellFormed(loc: string)
  {
    |loc| in {2, 4, 6, 8} &&
    IsFieldLetter(loc[0]) && IsFieldLetter(loc[1]) &&
    (|loc| >= 4 ==> IsDigit(loc[2]) && IsDigit(loc[3])) &&
    (|loc| >= 6 ==> IsSubsquareLetter(loc[4]) && IsSubsquareLetter(loc[5])) &&
    (|loc| >= 8 ==> IsDigit(loc[6]) && IsDigit(loc[7]))
  }

  /** West edge of the cell a locator names, as a shifted longitude. */
  function CellWest(loc: string): real
    requires WellFormed(loc)
  {
    20.0 * (loc[0] as int - 'A' as int) as real
    + (if |loc| >= 4 then 2.0 * DigitValue(loc[2]) as real else 0.0)
    + (if |loc| >= 6 then (loc[4] as int - 'a' as int) as real / 12.0 else 0.0)
    + (if |loc| >= 8 then DigitValue(loc[6]) as real / 120.0 else 0.0)
  }

  /** South edge of the cell a locator names, as a shifted latitude. */
  function CellSouth(loc: string): real
    requires WellFormed(loc)
  {
    10.0 * (loc[1] as int - 'A' as int) as real
    + (if |loc| >= 4 then DigitValue(loc[3]) as real else 0.0)
    + (if |loc| >= 6 then (loc[5] as int - 'a' as int) as real / 24.0 else 0.0)
    + (if |loc| >= 8 then DigitValue(loc[7]) as real / 240.0 else 0.0)
  }

  /** Cell width in degrees of longitude of a locator of the given number of pairs. */
  function CellWidth(levels: nat): real
  {
    if levels <= 1 then 20.0 else if levels == 2 then 2.0 else if levels == 3 then 1.0 / 12.0 else 1.0 / 120.0
  }

  /** Cell height in degrees of latitude of a locator of the given number of pairs. */
  function CellHeight(levels: nat): real
  {
    if levels <= 1 then 10.0 else if levels == 2 then 1.0 else if levels == 3 then 1.0 / 24.0 else 1.0 / 240.0
  }

  // Properties of the encoder.

  /**
   * The nested longitude cells: the west edges of the field, square,
   * subsquare and extended square that the four indices name, each holding
   * the shifted longitude.
   */
  lemma LonCells(adjustedLon: real)
    requires 0.0 <= adjustedLon <= 360.0
    ensures var w1 := 20.0 * FieldLonIndex(adjustedLon) as real;
      var w2 := w1 + 2.0 * SquareLonIndex(adjustedLon) as real;
      var w3 := w2 + SubsquareLonIndex(adjustedLon) as real / 12.0;
      var w4 := w3 + ExtendedLonIndex(adjustedLon) as real / 120.0;
      w1 <= adjustedLon < w1 + 20.0 &&
      w2 <= adjustedLon < w2 + 2.0 &&
      w3 <= adjustedLon < w3 + 1.0 / 12.0 &&
      w4 <= adjustedLon < w4 + 1.0 / 120.0
  {
    var f, sq, u := FieldLonIndex(adjustedLon), SquareLonIndex(adjustedLon), SubsquareLonIndex(adjustedLon);
    var w2 := 20.0 * f as real + 2.0 * sq as real;
    assert JsRem(adjustedLon, 20.0) == adjustedLon - 20.0 * f as real;
    assert (adjustedLon / 2.0).Floor == 10 * f + sq;
    var w3 := w2 + u as real / 12.0;
    assert (adjustedLon / (1.0 / 12.0)).Floor == 240 * f + 24 * sq + u;
    assert JsRem(adjustedLon, 1.0 / 12.0) == adjustedLon - w3;
  }

  /** The nested latitude cells, as LonCells does for longitude. */
  lemma LatCells(adjustedLat: real)
    requires 0.0 <= adjustedLat <= 180.0
    ensures var s1 := 10.0 * FieldLatIndex(adjustedLat) as real;
      var s2 := s1 + SquareLatIndex(adjustedLat) as real;
      var s3 := s2 + SubsquareLatIndex(adjustedLat) as real / 24.0;
      var s4 := s3 + ExtendedLatIndex(adjustedLat) as real / 240.0;
      s1 <= adjustedLat < s1 + 10.0 &&
      s2 <= adjustedLat < s2 + 1.0 &&
      s3 <= adjustedLat < s3 + 1.0 / 24.0 &&
      s4 <= adjustedLat < s4 + 1.0 / 240.0
  {
    var f, sq, u := FieldLatIndex(adjustedLat), SquareLatIndex(adjustedLat), SubsquareLatIndex(adjustedLat);
    var s2 := 10.0 * f as real + sq as real;
    assert JsRem(adjustedLat, 10.0) == adjustedLat - 10.0 * f as real;
    assert (adjustedLat / 1.0).Floor == 10 * f + sq;
    var s3 := s2 + u as real / 24.0;
    assert (adjustedLat / (1.0 / 24.0)).Floor == 240 * f + 24 * sq + u;
    assert JsRem(adjustedLat, 1.0 / 24.0) == adjustedLat - s3;
  }

  /**
   * The extended-square pair, written in the source as a remainder of the
   * raw shifted coordinate, is the subdivision into ten of what is left of
   * the coordinate inside its subsquare: in exact arithmetic the two
   * derivations agree.
   */
  lemma ExtendedSquareFromSubsquareRemainder(adjustedLon: real, adjustedLat: real)
    requires 0.0 <= adjustedLon <= 360.0 && 0.0 <= adjustedLat <= 180.0
    ensures var west := 20.0 * FieldLonIndex(adjustedLon) as real
        + 2.0 * SquareLonIndex(adjustedLon) as real + SubsquareLonIndex(adjustedLon) as real / 12.0;
      ExtendedLonIndex(adjustedLon) == ((adjustedLon - west) * 120.0).Floor
    ensures var south := 10.0 * FieldLatIndex(adjustedLat) as real
        + SquareLatIndex(adjustedLat) as real + SubsquareLatIndex(adjustedLat) as real / 24.0;
      ExtendedLatIndex(adjustedLat) == ((adjustedLat - south) * 240.0).Floor
  {
    LonCells(adjustedLon);
    LatCells(adjustedLat);
  }

  /**
   * Reading the locator back gives a cell of the size its length implies
   * that holds the point encoded.
   */
  lemma EncodedCellContainsPoint(lat: real, lon: real, precision: int)
    requires InRange(lat, lon)
    ensures var loc := ToMaidenhead(lat, lon, precision).value;
      CellWest(loc) <= lon + 180.0 < CellWest(loc) + CellWidth(Levels(precision)) &&
      CellSouth(loc) <= lat + 90.0 < CellSouth(loc) + CellHeight(Levels(precision))
  {
    LonCells(lon + 180.0);
    LatCells(lat + 90.0);
  }

  /** The locator length for each precision: 2, 4, 6 or 8 characters. */
  lemma LocatorLength(lat: real, lon: real, precision: int)
    requires InRange(lat, lon)
    ensures var n := |ToMaidenhead(lat, lon, precision).value|;
      (precision < 2 ==> n == 2) && (precision == 2 ==> n == 4) &&
      (precision == 3 ==> n == 6) && (precision >= 4 ==> n == 8)
  {
  }

  /** A higher precision only appends pairs: the shorter locator is a prefix of the longer one. */
  lemma PrefixStable(lat: real, lon: real, p: int, q: int)
    requires p <= q
    ensures ToMaidenhead(lat, lon, p).Ok? <==> ToMaidenhead(lat, lon, q).Ok?
    ensures ToMaidenhead(lat, lon, p).Ok? ==>
      ToMaidenhead(lat, lon, p).value <= ToMaidenhead(lat, lon, q).value
  {
  }

  /**
   * The field letters stay within A..R except on the east edge (lon = 180)
   * and at the north pole (lat = 90), which the range check lets through
   * and which give the letter S.
   */
  lemma FieldLetterS(lat: real, lon: real, precision: int)
    requires InRange(lat, lon)
    ensures var loc := ToMaidenhead(lat, lon, precision).value;
      ('A' <= loc[0] <= 'R' <==> lon < 180.0) && (loc[0] == 'S' <==> lon == 180.0) &&
      ('A' <= loc[1] <= 'R' <==> lat < 90.0) && (loc[1] == 'S' <==> lat == 90.0)
  {
  }

  /** Leaving out the precision is asking for 3 pairs: field, square and subsquare. */
  lemma DefaultPrecision(lat: real, lon: real)
    ensures ToMaidenhead(lat, lon) == ToMaidenhead(lat, lon, 3)
    ensures ToMaidenhead(lat, lon).Ok? ==> |ToMaidenhead(lat, lon).value| == 6
  {
  }

  /** The locator of a point in the Lake District, with the precision left out. */
  lemma LakeDistrictExample()
    ensures ToMaidenhead(54.454, -3.212) == Ok("IO84jk")
  {
    var lon, lat := 176.788, 144.454;
    assert FieldPair(lon, lat) == "IO" by {
      assert FieldLonIndex(lon) == 8 && FieldLatIndex(lat) == 14;
    }
    assert SquarePair(lon, lat) == "84" by {
      assert JsRem(lon, 20.0) == 16.788 && SquareLonIndex(lon) == 8;
      assert JsRem(lat, 10.0) == 4.454 && SquareLatIndex(lat) == 4;
      ShowDigit(8);
      ShowDigit(4);
    }
    assert SubsquarePair(lon, lat) == "jk" by {
      assert (lon / 2.0).Floor == 88 && SubsquareLonIndex(lon) == 9;
      assert (lat / 1.0).Floor == 144 && SubsquareLatIndex(lat) == 10;
    }
    assert ToMaidenhead(54.454, -3.212, 3) == Ok(FieldPair(lon, lat) + SquarePair(lon, lat) + SubsquarePair(lon, lat));
    assert "IO" + "84" + "jk" == "IO84jk";
  }

  /** A locator at full precision near London. */
  lemma LondonExample()
    ensures ToMaidenhead(51.5, -0.1, 4) == Ok("IO91wm80")
  {
    var lon, lat := 179.9, 141.5;
    assert FieldPair(lon, lat) == "IO" by {
      assert FieldLonIndex(lon) == 8 && FieldLatIndex(lat) == 14;
    }
    assert SquarePair(lon, lat) == "91" by {
      assert JsRem(lon, 20.0) == 19.9 && SquareLonIndex(lon) == 9;
      assert JsRem(lat, 10.0) == 1.5 && SquareLatIndex(lat) == 1;
      ShowDigit(9);
      ShowDigit(1);
    }
    assert SubsquarePair(lon, lat) == "wm" by {
      assert (lon / 2.0).Floor == 89 && SubsquareLonIndex(lon) == 22;
      assert (lat / 1.0).Floor == 141 && SubsquareLatIndex(lat) == 12;
    }
    assert ExtendedPair(lon, lat) == "80" by {
      assert (lon / (1.0 / 12.0)).Floor == 2158;
      assert JsRem(lon, 1.0 / 12.0) == 0.8 / 12.0 && ExtendedLonIndex(lon) == 8;
      assert (lat / (1.0 / 24.0)).Floor == 3396;
      assert JsRem(lat, 1.0 / 24.0) == 0.0 && ExtendedLatIndex(lat) == 0;
      ShowDigit(8);
      ShowDigit(0);
    }
    assert ToMaidenhead(51.5, -0.1, 4) == Ok(FieldPair(lon, lat) + SquarePair(lon, lat) + SubsquarePair(lon, lat) + ExtendedPair(lon, lat));
    assert "IO" + "91" + "wm" + "80" == "IO91wm80";
  }

  /** The north-east corner of the globe passes the range check and encodes with S field letters. */
  lemma NorthEastCornerExample()
    ensures ToMaidenhead(90.0, 180.0, 4) == Ok("SS00aa00")
  {
    var lon, lat := 360.0, 180.0;
    assert FieldPair(lon, lat) == "SS" by {
      assert FieldLonIndex(lon) == 18 && FieldLatIndex(lat) == 18;
    }
    assert SquarePair(lon, lat) == "00" by {
      assert JsRem(lon, 20.0) == 0.0 && SquareLonIndex(lon) == 0;
      assert JsRem(lat, 10.0) == 0.0 && SquareLatIndex(lat) == 0;
      ShowDigit(0);
    }
    assert SubsquarePair(lon, lat) == "aa" by {
      assert (lon / 2.0).Floor == 180 && SubsquareLonIndex(lon) == 0;
      assert (lat / 1.0).Floor == 180 && SubsquareLatIndex(lat) == 0;
    }
    assert ExtendedPair(lon, lat) == "00" by {
      assert (lon / (1.0 / 12.0)).Floor == 4320;
      assert JsRem(lon, 1.0 / 12.0) == 0.0 && ExtendedLonIndex(lon) == 0;
      assert (lat / (1.0 / 24.0)).Floor == 4320;
      assert JsRem(lat, 1.0 / 24.0) == 0.0 && ExtendedLatIndex(lat) == 0;
      ShowDigit(0);
    }
    assert ToMaidenhead(90.0, 180.0, 4) == Ok(FieldPair(lon, lat) + SquarePair(lon, lat) + SubsquarePair(lon, lat) + ExtendedPair(lon, lat));
    assert "SS" + "00" + "aa" + "00" == "SS00aa00";
  }
}
