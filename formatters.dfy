/**
 * Display formatters for summit identifiers, heights and dates
 * (src/utils/formatters.ts).  Identifiers are non-negative integers.
 */
module Formatters {
  import opened Wrappers
  import opened Decimal

  /** The last Lakeland Wainwright id: the ids above it are Outlying Fells, numbered from 1 after subtracting it. */
  const LastWainwright: nat := 214

  /** The width of `String(n).padStart(3, '0')`: three digits, or all of them when n has more. */
  function PaddedWidth(n: nat): nat
  {
    if n < 1000 then 3 else |Show(n)|
  }

  /**
   * `String(n).padStart(3, '0')`: at least three digits, never truncated,
   * and it reads back as n.
   */
  function PadId(n: nat): (r: string)
    ensures IsDigits(r) && Value(r) == n
    ensures |r| == PaddedWidth(n)
    ensures n >= 100 ==> r == Show(n)
  {
    PaddedValue(n, 3);
    assert n < 1000 ==> |Show(n)| <= 3 by {
      if |Show(n)| > 3 {
        PowMonotone(3, |Show(n)| - 1);
      }
    }
    PadStart(Show(n), 3, '0')
  }

  /** `formatSotaId`: null stays null, otherwise "G/LD-" and the padded number. */
  function FormatSotaId(sotaid: Option<nat>): (r: Option<string>)
    ensures r.None? <==> sotaid.None?
    ensures sotaid.Some? ==>
      |r.value| == 5 + PaddedWidth(sotaid.value) && r.value[..5] == "G/LD-" &&
      IsDigits(r.value[5..]) && Value(r.value[5..]) == sotaid.value
  {
    match sotaid
    case None => None
    case Some(n) =>
      var s := "G/LD-" + PadId(n);
      assert s[5..] == PadId(n);
      Some(s)
  }

  /**
   * `formatWotaId`: ids up to 214 are Lakeland Wainwrights ("LDW-"), the
   * rest Outlying Fells ("LDO-") numbered from 1 after subtracting 214.
   */
  function FormatWotaId(wotaid: nat): (r: string)
    ensures |r| >= 7 && r[3] == '-' && IsDigits(r[4..])
    ensures wotaid <= LastWainwright ==>
      |r| == 4 + PaddedWidth(wotaid) && r[..4] == "LDW-" && Value(r[4..]) == wotaid
    ensures wotaid > LastWainwright ==>
      |r| == 4 + PaddedWidth(wotaid - LastWainwright) && r[..4] == "LDO-" &&
      Value(r[4..]) == wotaid - LastWainwright
  {
    if wotaid <= LastWainwright then
      var s := "LDW-" + PadId(wotaid);
      assert s[4..] == PadId(wotaid);
      s
    else
      var s := "LDO-" + PadId(wotaid - LastWainwright);
      assert s[4..] == PadId(wotaid - LastWainwright);
      s
  }

  /** Distinct WOTA ids are displayed differently: the prefix tells the branch, the digits the number. */
  lemma FormatWotaIdInjective(a: nat, b: nat)
    ensures FormatWotaId(a) == FormatWotaId(b) ==> a == b
  {
    if FormatWotaId(a) == FormatWotaId(b) {
      var s := FormatWotaId(a);
      assert s[2] == if a <= LastWainwright then 'W' else 'O';
    }
  }

  /** `formatHeight`: positive heights in metres, anything else "Unknown". */
  function FormatHeight(height: int): (r: string)
    ensures height > 0 ==>
      |r| >= 2 && r[|r| - 1] == 'm' && r[0] != '0' &&
      IsDigits(r[..|r| - 1]) && Value(r[..|r| - 1]) == height
    ensures height <= 0 ==> r == "Unknown"
  {
    if height > 0 then
      var s := Show(height) + "m";
      assert s[..|s| - 1] == Show(height);
      s
    else "Unknown"
  }

  /** A height display never passes for a known height when the height is unknown, and vice versa. */
  lemma FormatHeightInjective(a: int, b: int)
    requires a > 0 || b > 0
    ensures FormatHeight(a) == FormatHeight(b) ==> a == b
  {
  }

  /**
   * `formatDate`: "Never" for null; otherwise the locale rendering, which is
   * outside this model and passed in as `localeDate`.
   */
  function FormatDate<D>(date: Option<D>, localeDate: D -> string): (r: string)
    ensures date.None? ==> r == "Never"
    ensures date.Some? ==> r == localeDate(date.value)
  {
    match date
    case None => "Never"
    case Some(d) => localeDate(d)
  }

  /**
   * `formatDateTime`: "Unknown" for null; otherwise the en-GB locale rendering,
   * passed in as `localeDateTime`.
   */
  function FormatDateTime<D>(datetime: Option<D>, localeDateTime: D -> string): (r: string)
    ensures datetime.None? ==> r == "Unknown"
    ensures datetime.Some? ==> r == localeDateTime(datetime.value)
  {
    match datetime
    case None => "Unknown"
    case Some(d) => localeDateTime(d)
  }

  /** A one-digit SOTA number is zero-padded to three digits. */
  lemma FormatSotaIdOf1()
    ensures FormatSotaId(Some(1)) == Some("G/LD-001")
  {
    assert Show(1) == "1";
    assert Repeat('0', 2) == "00";
    assert PadId(1) == "001";
    assert "G/LD-" + "001" == "G/LD-001";
  }

  /** A one-digit SOTA number is zero-padded to three digits. */
  lemma FormatSotaIdOf5()
    ensures FormatSotaId(Some(5)) == Some("G/LD-005")
  {
    assert Show(5) == "5";
    assert Repeat('0', 2) == "00";
    assert PadId(5) == "005";
    assert "G/LD-" + "005" == "G/LD-005";
  }

  /** A one-digit SOTA number is zero-padded to three digits. */
  lemma FormatSotaIdOf9()
    ensures FormatSotaId(Some(9)) == Some("G/LD-009")
  {
    assert Show(9) == "9";
    assert Repeat('0', 2) == "00";
    assert PadId(9) == "009";
    assert "G/LD-" + "009" == "G/LD-009";
  }

  /** A two-digit SOTA number is zero-padded to three digits. */
  lemma FormatSotaIdOf10()
    ensures FormatSotaId(Some(10)) == Some("G/LD-010")
  {
    assert Show(10) == "10";
    assert Repeat('0', 1) == "0";
    assert PadId(10) == "010";
    assert "G/LD-" + "010" == "G/LD-010";
  }

  /** A two-digit SOTA number is zero-padded to three digits. */
  lemma FormatSotaIdOf42()
    ensures FormatSotaId(Some(42)) == Some("G/LD-042")
  {
    assert Show(42) == "42";
    assert Repeat('0', 1) == "0";
    assert PadId(42) == "042";
    assert "G/LD-" + "042" == "G/LD-042";
  }

  /** A two-digit SOTA number is zero-padded to three digits. */
  lemma FormatSotaIdOf99()
    ensures FormatSotaId(Some(99)) == Some("G/LD-099")
  {
    assert Show(99) == "99";
    assert Repeat('0', 1) == "0";
    assert PadId(99) == "099";
    assert "G/LD-" + "099" == "G/LD-099";
  }

  /** A three-digit SOTA number is shown as it is. */
  lemma FormatSotaIdOf100()
    ensures FormatSotaId(Some(100)) == Some("G/LD-100")
  {
    assert Show(100) == "100";
    assert PadId(100) == "100";
    assert "G/LD-" + "100" == "G/LD-100";
  }

  /** A three-digit SOTA number is shown as it is. */
  lemma FormatSotaIdOf123()
    ensures FormatSotaId(Some(123)) == Some("G/LD-123")
  {
    assert Show(123) == "123";
    assert PadId(123) == "123";
    assert "G/LD-" + "123" == "G/LD-123";
  }

  /** A three-digit SOTA number is shown as it is. */
  lemma FormatSotaIdOf999()
    ensures FormatSotaId(Some(999)) == Some("G/LD-999")
  {
    assert Show(999) == "999";
    assert PadId(999) == "999";
    assert "G/LD-" + "999" == "G/LD-999";
  }

  /** A four-digit SOTA number is not truncated. */
  lemma FormatSotaIdOf1000()
    ensures FormatSotaId(Some(1000)) == Some("G/LD-1000")
  {
    assert Show(1000) == "1000";
    assert PadId(1000) == "1000";
    assert "G/LD-" + "1000" == "G/LD-1000";
  }

  /** A four-digit SOTA number is not truncated. */
  lemma FormatSotaIdOf1234()
    ensures FormatSotaId(Some(1234)) == Some("G/LD-1234")
  {
    assert Show(1234) == "1234";
    assert PadId(1234) == "1234";
    assert "G/LD-" + "1234" == "G/LD-1234";
  }

  /** A missing SOTA number stays missing. */
  lemma FormatSotaIdOfNull()
    ensures FormatSotaId(None) == None
  {
  }

  /** A Wainwright id is zero-padded to three digits. */
  lemma FormatWotaIdOf0()
    ensures FormatWotaId(0) == "LDW-000"
  {
    assert Show(0) == "0";
    assert Repeat('0', 2) == "00";
    assert PadId(0) == "000";
    assert "LDW-" + "000" == "LDW-000";
  }

  /** A Wainwright id is zero-padded to three digits. */
  lemma FormatWotaIdOf1()
    ensures FormatWotaId(1) == "LDW-001"
  {
    assert Show(1) == "1";
    assert Repeat('0', 2) == "00";
    assert PadId(1) == "001";
    assert "LDW-" + "001" == "LDW-001";
  }

  /** A Wainwright id is zero-padded to three digits. */
  lemma FormatWotaIdOf42()
    ensures FormatWotaId(42) == "LDW-042"
  {
    assert Show(42) == "42";
    assert Repeat('0', 1) == "0";
    assert PadId(42) == "042";
    assert "LDW-" + "042" == "LDW-042";
  }

  /** A three-digit Wainwright id is shown as it is. */
  lemma FormatWotaIdOf123()
    ensures FormatWotaId(123) == "LDW-123"
  {
    assert Show(123) == "123";
    assert PadId(123) == "123";
    assert "LDW-" + "123" == "LDW-123";
  }

  /** 214 is the last Wainwright. */
  lemma FormatWotaIdOf214()
    ensures FormatWotaId(214) == "LDW-214"
  {
    assert Show(214) == "214";
    assert PadId(214) == "214";
    assert "LDW-" + "214" == "LDW-214";
  }

  /** 215 is Outlying Fell 215 - 214 = 1, zero-padded. */
  lemma FormatWotaIdOf215()
    ensures FormatWotaId(215) == "LDO-001"
  {
    assert Show(1) == "1";
    assert Repeat('0', 2) == "00";
    assert PadId(1) == "001";
    assert "LDO-" + "001" == "LDO-001";
  }

  /** 216 is Outlying Fell 216 - 214 = 2, zero-padded. */
  lemma FormatWotaIdOf216()
    ensures FormatWotaId(216) == "LDO-002"
  {
    assert Show(2) == "2";
    assert Repeat('0', 2) == "00";
    assert PadId(2) == "002";
    assert "LDO-" + "002" == "LDO-002";
  }

  /** 300 is Outlying Fell 300 - 214 = 86, zero-padded. */
  lemma FormatWotaIdOf300()
    ensures FormatWotaId(300) == "LDO-086"
  {
    assert Show(86) == "86";
    assert Repeat('0', 1) == "0";
    assert PadId(86) == "086";
    assert "LDO-" + "086" == "LDO-086";
  }

  /** 428 is Outlying Fell 428 - 214 = 214. */
  lemma FormatWotaIdOf428()
    ensures FormatWotaId(428) == "LDO-214"
  {
    assert Show(214) == "214";
    assert PadId(214) == "214";
    assert "LDO-" + "214" == "LDO-214";
  }

  /** 999 is Outlying Fell 999 - 214 = 785. */
  lemma FormatWotaIdOf999()
    ensures FormatWotaId(999) == "LDO-785"
  {
    assert Show(785) == "785";
    assert PadId(785) == "785";
    assert "LDO-" + "785" == "LDO-785";
  }

  /** 1000 is Outlying Fell 1000 - 214 = 786. */
  lemma FormatWotaIdOf1000()
    ensures FormatWotaId(1000) == "LDO-786"
  {
    assert Show(786) == "786";
    assert PadId(786) == "786";
    assert "LDO-" + "786" == "LDO-786";
  }

  /** 1234 is Outlying Fell 1234 - 214 = 1020, not truncated. */
  lemma FormatWotaIdOf1234()
    ensures FormatWotaId(1234) == "LDO-1020"
  {
    assert Show(1020) == "1020";
    assert PadId(1020) == "1020";
    assert "LDO-" + "1020" == "LDO-1020";
  }

  /** Positive heights get a metre suffix; zero and negative ones are unknown. */
  lemma FormatHeightExamples()
    ensures FormatHeight(100) == "100m"
    ensures FormatHeight(978) == "978m"
    ensures FormatHeight(1000) == "1000m"
    ensures FormatHeight(0) == "Unknown"
    ensures FormatHeight(-1) == "Unknown"
  {
    assert Show(100) == "100";
    assert Show(978) == "978";
    assert Show(1000) == "1000";
  }
}
