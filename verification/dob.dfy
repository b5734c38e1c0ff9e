/**
 * The date-of-birth field: the input mask that shows "dd / mm / yyyy" while
 * typing, and the parser that turns the stored "dd/mm/yyyy" into "yyyy-mm-dd"
 * for the lead payload.
 */
module Dob {
  import opened Text

  /** The mask: the first eight digits, with " / " after the 2nd and the 4th. */
  function FormatDob(digits: string): (out: string)
    ensures |digits| < 2 ==> out == digits
    ensures 2 <= |digits| < 4 ==> out == digits[..2] + " / " + digits[2..]
    ensures 4 <= |digits| <= 8 ==> out == digits[..2] + " / " + digits[2..4] + " / " + digits[4..]
    ensures |digits| > 8 ==> out == digits[..2] + " / " + digits[2..4] + " / " + digits[4..8]
  {
    var n := |digits|;
    var o0 := if n >= 1 then [digits[0]] else "";
    var o1 := if n >= 2 then o0 + [digits[1]] else o0;
    var o2 := if n >= 2 then o1 + " / " else o1;
    var o3 := if n >= 3 then o2 + [digits[2]] else o2;
    var o4 := if n >= 4 then o3 + [digits[3]] else o3;
    var o5 := if n >= 4 then o4 + " / " else o4;
    var o6 := if n >= 5 then o5 + [digits[4]] else o5;
    var o7 := if n >= 6 then o6 + [digits[5]] else o6;
    var o8 := if n >= 7 then o7 + [digits[6]] else o7;
    var out := if n >= 8 then o8 + [digits[7]] else o8;
    var m := if n > 8 then 8 else n;
    assert n >= 4 ==> o5 == digits[..2] + " / " + digits[2..4] + " / ";
    assert n >= 4 ==> out == o5 + digits[4..m];
    out
  }

  /** What one `input` event leaves behind: the shown value and the stored "dob". */
  datatype MaskedDob = MaskedDob(display: string, stored: string)

  /** The `input` handler: keep at most eight digits, mask them, store without whitespace. */
  function OnDobInput(value: string): (m: MaskedDob)
    ensures |KeepDigits(value)| >= 8 ==>
      var d := KeepDigits(value);
      m.stored == d[..2] + "/" + d[2..4] + "/" + d[4..8]
    ensures var d := KeepDigits(value);
      KeepDigits(m.stored) == KeepDigits(m.display) == (if |d| > 8 then d[..8] else d)
    ensures forall k :: 0 <= k < |m.stored| ==> !IsSpace(m.stored[k])
  {
    var all := KeepDigits(value);
    var digits := if |all| > 8 then all[..8] else all;
    var display := FormatDob(digits);
    MaskKeepsDigits(digits);
    KeepDigitsOfRemoveSpaces(display);
    StoredOfFirstEight(all);
    MaskedDob(display, RemoveSpaces(display))
  }

  /** Eight or more digits are stored as the first eight in "dd/mm/yyyy" form. */
  lemma StoredOfFirstEight(all: string)
    requires AllDigits(all)
    ensures |all| >= 8 ==>
      RemoveSpaces(FormatDob(if |all| > 8 then all[..8] else all)) == all[..2] + "/" + all[2..4] + "/" + all[4..8]
  {
    if |all| >= 8 {
      var digits := if |all| > 8 then all[..8] else all;
      StoredOfEightDigits(digits);
      assert digits[..2] == all[..2] && digits[2..4] == all[2..4] && digits[4..8] == all[4..8];
    }
  }

  /** Whitespace is not a digit, so removing it first changes no digit filter. */
  lemma {:induction false} KeepDigitsOfRemoveSpaces(x: string)
    ensures KeepDigits(RemoveSpaces(x)) == KeepDigits(x)
    decreases |x|
  {
    if |x| > 0 {
      KeepDigitsOfRemoveSpaces(x[1..]);
      var h := if IsSpace(x[0]) then "" else [x[0]];
      KeepDigitsAppend(h, RemoveSpaces(x[1..]));
      assert h == "" ==> KeepDigits(h) == "";
      assert h != "" ==> KeepDigits(h) == (if IsDigit(x[0]) then [x[0]] else "") by {
        if h != "" {
          assert h[1..] == "";
        }
      }
    }
  }

  lemma RemoveSpacesOfSeparator()
    ensures RemoveSpaces(" / ") == "/"
  {
    assert " / "[1..] == "/ ";
    assert "/ "[1..] == " ";
    assert " "[1..] == "";
  }

  /** Removing whitespace from "x / b" leaves "/" between the two. */
  lemma RemoveSpacesAcross(x: string, b: string)
    ensures RemoveSpaces(x + " / " + b) == RemoveSpaces(x) + "/" + RemoveSpaces(b)
  {
    var sep := " / ";
    RemoveSpacesOfSeparator();
    RemoveSpacesAppend(x, sep);
    assert RemoveSpaces(x + sep) == RemoveSpaces(x) + "/";
    RemoveSpacesAppend(x + sep, b);
  }

  /** Digits hold no whitespace. */
  lemma RemoveSpacesOfDigits(d: string)
    requires AllDigits(d)
    ensures RemoveSpaces(d) == d
  {
    assert forall k :: 0 <= k < |d| ==> !IsSpace(d[k]);
  }

  lemma StoredOfEightDigits(d: string)
    requires |d| == 8 && AllDigits(d)
    ensures RemoveSpaces(FormatDob(d)) == d[..2] + "/" + d[2..4] + "/" + d[4..8]
  {
    var a, b, c := d[..2], d[2..4], d[4..];
    assert FormatDob(d) == a + " / " + b + " / " + c;
    assert AllDigits(a) && AllDigits(b) && AllDigits(c);
    RemoveSpacesOfFields(a, b, c);
    assert d[4..8] == c;
  }

  /** The masked form of three digit fields, without its whitespace. */
  lemma RemoveSpacesOfFields(a: string, b: string, c: string)
    requires AllDigits(a) && AllDigits(b) && AllDigits(c)
    ensures RemoveSpaces(a + " / " + b + " / " + c) == a + "/" + b + "/" + c
  {
    RemoveSpacesOfDigits(a);
    RemoveSpacesOfDigits(b);
    RemoveSpacesOfDigits(c);
    RemoveSpacesAcross(a, b);
    RemoveSpacesAcross(a + " / " + b, c);
  }

  lemma KeepDigitsOfSeparator()
    ensures KeepDigits(" / ") == ""
  {
    assert " / "[1..] == "/ ";
    assert "/ "[1..] == " ";
    assert " "[1..] == "";
  }

  /** Filtering digits out of "x / b" drops the separator. */
  lemma KeepDigitsAcross(x: string, b: string)
    ensures KeepDigits(x + " / " + b) == KeepDigits(x) + KeepDigits(b)
  {
    var sep := " / ";
    KeepDigitsOfSeparator();
    KeepDigitsAppend(x, sep);
    assert KeepDigits(x + sep) == KeepDigits(x);
    KeepDigitsAppend(x + sep, b);
  }

  /** Filtering digits out of "a / b / c" keeps a, b and c. */
  lemma KeepDigitsOfThree(a: string, b: string, c: string)
    requires AllDigits(a) && AllDigits(b) && AllDigits(c)
    ensures KeepDigits(a + " / " + b + " / " + c) == a + b + c
  {
    KeepDigitsAcross(a, b);
    KeepDigitsAcross(a + " / " + b, c);
  }

  /** The mask only inserts separators: the digits it shows are exactly the ones typed. */
  lemma MaskKeepsDigits(d: string)
    requires AllDigits(d) && |d| <= 8
    ensures KeepDigits(FormatDob(d)) == d
  {
    if |d| < 2 {
    } else if |d| < 4 {
      var a, b := d[..2], d[2..];
      assert AllDigits(a) && AllDigits(b);
      KeepDigitsAcross(a, b);
      assert a + b == d;
    } else {
      var a, b, c := d[..2], d[2..4], d[4..];
      assert AllDigits(a) && AllDigits(b) && AllDigits(c);
      KeepDigitsOfThree(a, b, c);
      assert a + b + c == d;
    }
  }

  /** Re-running the handler on the value it displayed changes nothing. */
  lemma MaskIdempotent(value: string)
    ensures OnDobInput(OnDobInput(value).display) == OnDobInput(value)
  {
    var all := KeepDigits(value);
    var digits := if |all| > 8 then all[..8] else all;
    MaskKeepsDigits(digits);
  }

  /** With eight or more digits typed, the handler shows the mask of the first eight. */
  lemma DisplayOfTyped(typed: string)
    requires |KeepDigits(typed)| >= 8
    ensures OnDobInput(typed).display == FormatDob(KeepDigits(typed)[..8])
  {
    var all := KeepDigits(typed);
    assert |all| == 8 ==> all == all[..8];
  }

  /**
   * The payload's `dob`: "dd/mm/yyyy" becomes "yyyy-mm-dd" with day and month
   * padded to two digits; no "/" or an empty day, month or year gives "".
   */
  function ParseDob(value: string): (dob: string)
    ensures '/' !in value ==> dob == ""
    ensures var parts := Split(value, '/');
      dob != "" <==> '/' in value && |parts| >= 3 && parts[0] != "" && parts[1] != "" && parts[2] != ""
  {
    if '/' !in value then ""
    else
      var parts := Split(value, '/');
      var dd := parts[0];
      var mm := if |parts| > 1 then parts[1] else "";
      var yyyy := if |parts| > 2 then parts[2] else "";
      if dd != "" && mm != "" && yyyy != "" then yyyy + "-" + PadStart2(mm) + "-" + PadStart2(dd)
      else ""
  }

  /** Splitting "dd/mm/yyyy..." at '/' gives the three fields first. */
  lemma SplitFields(dd: string, mm: string, yyyy: string, tail: string)
    requires '/' !in dd && '/' !in mm && '/' !in yyyy
    requires tail == "" || tail[0] == '/'
    ensures var parts := Split(dd + "/" + mm + "/" + yyyy + tail, '/');
      |parts| >= 3 && parts[0] == dd && parts[1] == mm && parts[2] == yyyy
  {
    var third := yyyy + tail;
    var second := mm + ['/'] + third;
    assert dd + "/" + mm + "/" + yyyy + tail == dd + ['/'] + second;
    SplitAtFirst(dd, '/', second);
    SplitAtFirst(mm, '/', third);
    if tail == "" {
      assert third == yyyy;
    } else {
      assert third == yyyy + ['/'] + tail[1..];
      SplitAtFirst(yyyy, '/', tail[1..]);
    }
  }

  /** Three non-empty '/'-free fields (and anything after a third '/') parse to "yyyy-mm-dd". */
  lemma ParseDobFields(dd: string, mm: string, yyyy: string, tail: string)
    requires dd != "" && mm != "" && yyyy != ""
    requires '/' !in dd && '/' !in mm && '/' !in yyyy
    requires tail == "" || tail[0] == '/'
    ensures ParseDob(dd + "/" + mm + "/" + yyyy + tail) == yyyy + "-" + PadStart2(mm) + "-" + PadStart2(dd)
  {
    var v := dd + "/" + mm + "/" + yyyy + tail;
    assert v[|dd|] == '/';
    SplitFields(dd, mm, yyyy, tail);
  }

  /** An empty day, month or year field gives "", whatever follows the third field. */
  lemma ParseDobEmptyField(dd: string, mm: string, yyyy: string, tail: string)
    requires dd == "" || mm == "" || yyyy == ""
    requires '/' !in dd && '/' !in mm && '/' !in yyyy
    requires tail == "" || tail[0] == '/'
    ensures ParseDob(dd + "/" + mm + "/" + yyyy + tail) == ""
  {
    SplitFields(dd, mm, yyyy, tail);
  }

  /** Only two fields: the year is missing and the result is "". */
  lemma ParseDobMissingYear(dd: string, mm: string)
    requires '/' !in dd && '/' !in mm
    ensures ParseDob(dd + "/" + mm) == ""
  {
    var v := dd + "/" + mm;
    SplitAtFirst(dd, '/', mm);
    assert v == dd + ['/'] + mm;
    assert v[|dd|] == '/';
  }

  /** A stretch of digits holds no '/'. */
  lemma NoSlashInDigits(d: string, i: int, j: int)
    requires AllDigits(d) && 0 <= i <= j <= |d|
    ensures '/' !in d[i..j]
  {
    assert forall k :: 0 <= k < j - i ==> d[i..j][k] == d[i + k];
  }

  /** The date the digits ddmmyyyy stand for, written "yyyy-mm-dd". */
  function IsoDate(d: string): string
    requires |d| >= 8
  {
    d[4..8] + "-" + d[2..4] + "-" + d[..2]
  }

  /** The same date parsed from the mask's display value: " yyyy- mm -dd ". */
  function SpacedIsoDate(d: string): string
    requires |d| >= 8
  {
    (" " + d[4..8]) + "-" + (" " + d[2..4] + " ") + "-" + (d[..2] + " ")
  }

  /** Only the first eight digits make the date. */
  lemma DatesOfPrefix(d: string)
    requires |d| >= 8
    ensures IsoDate(d[..8]) == IsoDate(d) && SpacedIsoDate(d[..8]) == SpacedIsoDate(d)
  {
    var d8 := d[..8];
    assert d8[..2] == d[..2] && d8[2..4] == d[2..4] && d8[4..8] == d[4..8];
  }

  /** Eight typed digits ddmmyyyy reach the payload as yyyy-mm-dd. */
  lemma MaskThenParse(value: string)
    requires |KeepDigits(value)| >= 8
    ensures var d := KeepDigits(value);
      ParseDob(OnDobInput(value).stored) == d[4..8] + "-" + d[2..4] + "-" + d[..2]
  {
    var d := KeepDigits(value);
    ParseStoredDigits(d);
  }

  /** Eight or more digits, stored as "dd/mm/yyyy" from the first eight, parse to "yyyy-mm-dd". */
  lemma ParseStoredDigits(d: string)
    requires AllDigits(d) && |d| >= 8
    ensures ParseDob(d[..2] + "/" + d[2..4] + "/" + d[4..8]) == d[4..8] + "-" + d[2..4] + "-" + d[..2]
  {
    var a, b, c := d[..2], d[2..4], d[4..8];
    NoSlashInDigits(d, 0, 2);
    NoSlashInDigits(d, 2, 4);
    NoSlashInDigits(d, 4, 8);
    ParseDobFields(a, b, c, "");
    assert a + "/" + b + "/" + c + "" == a + "/" + b + "/" + c;
  }

  /** A full masked value trims to itself: it starts and ends with a digit. */
  lemma TrimMaskedDob(d: string)
    requires |d| == 8 && AllDigits(d)
    ensures Trim(FormatDob(d)) == FormatDob(d)
  {
    var v := FormatDob(d);
    assert v[0] == d[0] && v[|v| - 1] == d[7];
  }

  /** The display value of eight digits split at its two slashes. */
  lemma DisplayFields(d: string)
    requires |d| == 8 && AllDigits(d)
    ensures var dd, mm, yyyy := d[..2] + " ", " " + d[2..4] + " ", " " + d[4..8];
      && FormatDob(d) == dd + "/" + mm + "/" + yyyy + ""
      && '/' !in dd && '/' !in mm && '/' !in yyyy
  {
    NoSlashInDigits(d, 0, 2);
    NoSlashInDigits(d, 2, 4);
    NoSlashInDigits(d, 4, 8);
    assert d[4..] == d[4..8];
  }

  /** Parsing the trimmed display value of eight digits keeps the mask's spaces. */
  lemma ParseTrimmedDisplay(d: string)
    requires |d| == 8 && AllDigits(d)
    ensures ParseDob(Trim(FormatDob(d))) == SpacedIsoDate(d)
  {
    TrimMaskedDob(d);
    DisplayFields(d);
    var dd, mm, yyyy := d[..2] + " ", " " + d[2..4] + " ", " " + d[4..8];
    ParseDobFields(dd, mm, yyyy, "");
    assert PadStart2(mm) == mm && PadStart2(dd) == dd;
  }

  /** Parsing the display value of eight digits without whitespace gives "yyyy-mm-dd". */
  lemma ParseStrippedDisplay(d: string)
    requires |d| == 8 && AllDigits(d)
    ensures ParseDob(RemoveSpaces(Trim(FormatDob(d)))) == IsoDate(d)
  {
    TrimMaskedDob(d);
    StoredOfEightDigits(d);
    var a, b, c := d[..2], d[2..4], d[4..8];
    NoSlashInDigits(d, 0, 2);
    NoSlashInDigits(d, 2, 4);
    NoSlashInDigits(d, 4, 8);
    ParseDobFields(a, b, c, "");
    assert a + "/" + b + "/" + c + "" == a + "/" + b + "/" + c;
  }

  /** The typed digits' display value, trimmed, parses with the mask's spaces kept. */
  lemma TrimmedDisplayOfTyped(typed: string)
    requires |KeepDigits(typed)| >= 8
    ensures var d := KeepDigits(typed);
      ParseDob(Trim(OnDobInput(typed).display)) == SpacedIsoDate(d)
  {
    var d := KeepDigits(typed);
    var d8 := d[..8];
    assert AllDigits(d8);
    DisplayOfTyped(typed);
    ParseTrimmedDisplay(d8);
    DatesOfPrefix(d);
  }

  /** The typed digits' display value without whitespace parses to "yyyy-mm-dd". */
  lemma StrippedDisplayOfTyped(typed: string)
    requires |KeepDigits(typed)| >= 8
    ensures var d := KeepDigits(typed);
      ParseDob(RemoveSpaces(Trim(OnDobInput(typed).display))) == IsoDate(d)
  {
    var d := KeepDigits(typed);
    var d8 := d[..8];
    assert AllDigits(d8);
    DisplayOfTyped(typed);
    ParseStrippedDisplay(d8);
    DatesOfPrefix(d);
  }
}
