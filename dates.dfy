/**
 * The "today" tokens flight identifiers are matched against
 * (`DATE_PATTERNS`, generate_rss.js:9-29): the zero-padded day of the month,
 * month·day and day·month, and the two- and three-letter upper-case prefixes
 * of the English month and weekday names, with only the text prefixes
 * de-duplicated.
 */
module Dates {
  import opened Text

  const MonthNames: seq<string> :=
    ["January", "February", "March", "April", "May", "June",
     "July", "August", "September", "October", "November", "December"]

  const DayNames: seq<string> :=
    ["Sunday", "Monday", "Tuesday", "Wednesday", "Thursday", "Friday", "Saturday"]

  /** A local calendar date: `getDate()` (1-31), `getMonth()` (0-11), `getDay()` (0-6, Sunday first). */
  predicate ValidDate(day: int, month: int, weekday: int) {
    1 <= day <= 31 && 0 <= month < 12 && 0 <= weekday < 7
  }

  predicate Distinct(s: seq<string>) {
    forall i, j :: 0 <= i < j < |s| ==> s[i] != s[j]
  }

  /**
   * `s.filter((v, i, a) => a.indexOf(v) === i)`: keep an element only where
   * it occurs for the first time.
   */
  function Dedup(s: seq<string>): (r: seq<string>)
    ensures forall x :: x in r <==> x in s
    ensures Distinct(r)
    ensures |r| <= |s|
  {
    if s == [] then []
    else
      var init := Dedup(s[..|s| - 1]);
      var last := s[|s| - 1];
      if last in s[..|s| - 1] then init else init + [last]
  }

  /** `a.indexOf(x)` for an `x` that occurs: the index of its first occurrence. */
  function IndexOf(a: seq<string>, x: string): (i: nat)
    requires x in a
    ensures i < |a| && a[i] == x
    ensures forall j :: 0 <= j < i ==> a[j] != x
  {
    if a[0] == x then 0 else 1 + IndexOf(a[1..], x)
  }

  lemma IndexOfExtended(a: seq<string>, last: string, x: string)
    requires x in a
    ensures IndexOf(a + [last], x) == IndexOf(a, x)
  {
    var i, k := IndexOf(a + [last], x), IndexOf(a, x);
    assert (a + [last])[k] == x;
  }

  /**
   * The filter keeps first occurrences in the order of the input: along the
   * result, the index of each entry's first occurrence in `s` increases.
   */
  lemma {:induction false} DedupKeepsFirstOrder(s: seq<string>)
    ensures forall i, j :: 0 <= i < j < |Dedup(s)| ==> IndexOf(s, Dedup(s)[i]) < IndexOf(s, Dedup(s)[j])
  {
    if s != [] {
      var init, last := s[..|s| - 1], s[|s| - 1];
      assert s == init + [last];
      DedupKeepsFirstOrder(init);
      var extra := if last in init then [] else [last];
      assert Dedup(s) == Dedup(init) + extra;
      OrderExtend(init, last, Dedup(init), extra);
    }
  }

  /** One step of `DedupKeepsFirstOrder`: appending a last element, kept only if new. */
  lemma OrderExtend(init: seq<string>, last: string, r0: seq<string>, extra: seq<string>)
    requires forall x :: x in r0 ==> x in init
    requires forall a, b :: 0 <= a < b < |r0| ==> IndexOf(init, r0[a]) < IndexOf(init, r0[b])
    requires extra == [] || (extra == [last] && last !in init)
    ensures forall i, j :: 0 <= i < j < |r0 + extra| ==>
      IndexOf(init + [last], (r0 + extra)[i]) < IndexOf(init + [last], (r0 + extra)[j])
  {
    var s, r := init + [last], r0 + extra;
    forall x | x in init ensures IndexOf(s, x) == IndexOf(init, x) && IndexOf(s, x) < |init| {
      IndexOfExtended(init, last, x);
    }
    forall i, j | 0 <= i < j < |r| ensures IndexOf(s, r[i]) < IndexOf(s, r[j]) {
      assert r[i] == r0[i] && r0[i] in init;
      if j < |r0| {
        assert r[j] == r0[j] && r0[j] in init;
      } else {
        assert r[j] == last && IndexOf(s, last) == |init|;
      }
    }
  }

  /** De-duplicating a sequence without repeats leaves it as it is. */
  lemma {:induction false} DedupOfDistinct(s: seq<string>)
    requires Distinct(s)
    ensures Dedup(s) == s
  {
    if s != [] {
      var init := s[..|s| - 1];
      assert Distinct(init);
      DedupOfDistinct(init);
      assert s[|s| - 1] !in init;
      assert init + [s[|s| - 1]] == s;
    }
  }

  /** `fullMonthName.substring(0, n).toUpperCase()`. */
  function MonthPrefix(month: int, n: nat): string
    requires 0 <= month < 12 && n <= 3
  {
    ToUpper(MonthNames[month][..n])
  }

  /** `fullDayName.substring(0, n).toUpperCase()`. */
  function DayPrefix(weekday: int, n: nat): string
    requires 0 <= weekday < 7 && n <= 3
  {
    ToUpper(DayNames[weekday][..n])
  }

  function NumericPatterns(day: int, month: int): seq<string>
    requires 1 <= day <= 31 && 0 <= month < 12
  {
    var dd := Pad2(day);
    var mm := Pad2(month + 1);
    [dd, mm + dd, dd + mm]
  }

  function TextPatterns(month: int, weekday: int): seq<string>
    requires 0 <= month < 12 && 0 <= weekday < 7
  {
    Dedup([MonthPrefix(month, 2), MonthPrefix(month, 3), DayPrefix(weekday, 2), DayPrefix(weekday, 3)])
  }

  /** `DATE_PATTERNS` for the given local date. */
  function DatePatterns(day: int, month: int, weekday: int): (r: seq<string>)
    requires ValidDate(day, month, weekday)
    ensures |r| == 7
  {
    TextPrefixesDistinct(month, weekday);
    DedupOfDistinct([MonthPrefix(month, 2), MonthPrefix(month, 3), DayPrefix(weekday, 2), DayPrefix(weekday, 3)]);
    NumericPatterns(day, month) + TextPatterns(month, weekday)
  }

  /** The three-letter month abbreviations, written out. */
  const MonthAbbrevs: seq<string> := ["JAN", "FEB", "MAR", "APR", "MAY", "JUN", "JUL", "AUG", "SEP", "OCT", "NOV", "DEC"]

  /** The three-letter weekday abbreviations, written out. */
  const DayAbbrevs: seq<string> := ["SUN", "MON", "TUE", "WED", "THU", "FRI", "SAT"]

  lemma UpperOfTitle(s: string, t: string)
    requires |s| == 3 && |t| == 3
    requires t[0] == s[0] && 'a' <= s[1] <= 'z' && 'a' <= s[2] <= 'z'
    requires t[1] as int == s[1] as int - 32 && t[2] as int == s[2] as int - 32
    requires 'A' <= s[0] <= 'Z'
    ensures ToUpper(s) == t
  {
  }

  /** The first three letters of each month name. */
  const MonthTitles: seq<string> := ["Jan", "Feb", "Mar", "Apr", "May", "Jun", "Jul", "Aug", "Sep", "Oct", "Nov", "Dec"]

  /** The first three letters of each weekday name. */
  const DayTitles: seq<string> := ["Sun", "Mon", "Tue", "Wed", "Thu", "Fri", "Sat"]

  lemma MonthNameStart(month: int)
    requires 0 <= month < 12
    ensures MonthNames[month][..3] == MonthTitles[month]
  {
    match month
    case 0 => assert MonthNames[0][..3] == "Jan";
    case 1 => assert MonthNames[1][..3] == "Feb";
    case 2 => assert MonthNames[2][..3] == "Mar";
    case 3 => assert MonthNames[3][..3] == "Apr";
    case 4 => assert MonthNames[4][..3] == "May";
    case 5 => assert MonthNames[5][..3] == "Jun";
    case 6 => assert MonthNames[6][..3] == "Jul";
    case 7 => assert MonthNames[7][..3] == "Aug";
    case 8 => assert MonthNames[8][..3] == "Sep";
    case 9 => assert MonthNames[9][..3] == "Oct";
    case 10 => assert MonthNames[10][..3] == "Nov";
    case 11 => assert MonthNames[11][..3] == "Dec";
  }

  lemma MonthTitleUpper(month: int)
    requires 0 <= month < 12
    ensures ToUpper(MonthTitles[month]) == MonthAbbrevs[month]
  {
    if month < 6 {
      FirstHalfTitleUpper(month);
    } else {
      SecondHalfTitleUpper(month);
    }
  }

  lemma FirstHalfTitleUpper(month: int)
    requires 0 <= month < 6
    ensures ToUpper(MonthTitles[month]) == MonthAbbrevs[month]
  {
    match month
    case 0 => UpperOfTitle("Jan", "JAN");
    case 1 => UpperOfTitle("Feb", "FEB");
    case 2 => UpperOfTitle("Mar", "MAR");
    case 3 => UpperOfTitle("Apr", "APR");
    case 4 => UpperOfTitle("May", "MAY");
    case 5 => UpperOfTitle("Jun", "JUN");
  }

  lemma SecondHalfTitleUpper(month: int)
    requires 6 <= month < 12
    ensures ToUpper(MonthTitles[month]) == MonthAbbrevs[month]
  {
    match month
    case 6 => UpperOfTitle("Jul", "JUL");
    case 7 => UpperOfTitle("Aug", "AUG");
    case 8 => UpperOfTitle("Sep", "SEP");
    case 9 => UpperOfTitle("Oct", "OCT");
    case 10 => UpperOfTitle("Nov", "NOV");
    case 11 => UpperOfTitle("Dec", "DEC");
  }

  lemma DayNameStart(weekday: int)
    requires 0 <= weekday < 7
    ensures DayNames[weekday][..3] == DayTitles[weekday]
  {
    match weekday
    case 0 => assert DayNames[0][..3] == "Sun";
    case 1 => assert DayNames[1][..3] == "Mon";
    case 2 => assert DayNames[2][..3] == "Tue";
    case 3 => assert DayNames[3][..3] == "Wed";
    case 4 => assert DayNames[4][..3] == "Thu";
    case 5 => assert DayNames[5][..3] == "Fri";
    case 6 => assert DayNames[6][..3] == "Sat";
  }

  lemma DayTitleUpper(weekday: int)
    requires 0 <= weekday < 7
    ensures ToUpper(DayTitles[weekday]) == DayAbbrevs[weekday]
  {
    match weekday
    case 0 => UpperOfTitle("Sun", "SUN");
    case 1 => UpperOfTitle("Mon", "MON");
    case 2 => UpperOfTitle("Tue", "TUE");
    case 3 => UpperOfTitle("Wed", "WED");
    case 4 => UpperOfTitle("Thu", "THU");
    case 5 => UpperOfTitle("Fri", "FRI");
    case 6 => UpperOfTitle("Sat", "SAT");
  }

  /** Upper-casing the first three letters of a month name gives its abbreviation. */
  lemma MonthPrefixIsAbbrev(month: int)
    requires 0 <= month < 12
    ensures MonthPrefix(month, 3) == MonthAbbrevs[month]
    ensures MonthPrefix(month, 2) == MonthAbbrevs[month][..2]
  {
    MonthNameStart(month);
    MonthTitleUpper(month);
    assert MonthNames[month][..2] == MonthNames[month][..3][..2];
    UpperPrefix(MonthNames[month][..3], 2);
  }

  /** Upper-casing the first three letters of a weekday name gives its abbreviation. */
  lemma DayPrefixIsAbbrev(weekday: int)
    requires 0 <= weekday < 7
    ensures DayPrefix(weekday, 3) == DayAbbrevs[weekday]
    ensures DayPrefix(weekday, 2) == DayAbbrevs[weekday][..2]
  {
    DayNameStart(weekday);
    DayTitleUpper(weekday);
    assert DayNames[weekday][..2] == DayNames[weekday][..3][..2];
    UpperPrefix(DayNames[weekday][..3], 2);
  }

  lemma UpperPrefix(s: string, n: nat)
    requires n <= |s|
    ensures ToUpper(s[..n]) == ToUpper(s)[..n]
  {
  }

  /** No month prefix is a weekday prefix, so the four text prefixes are pairwise distinct. */
  lemma TextPrefixesDistinct(month: int, weekday: int)
    requires 0 <= month < 12 && 0 <= weekday < 7
    ensures Distinct([MonthPrefix(month, 2), MonthPrefix(month, 3), DayPrefix(weekday, 2), DayPrefix(weekday, 3)])
  {
    MonthPrefixIsAbbrev(month);
    DayPrefixIsAbbrev(weekday);
    var m2 := MonthAbbrevs[month][..2];
    var d2 := DayAbbrevs[weekday][..2];
    MonthStems(month);
    DayStems(weekday);
    assert MonthPrefix(month, 3)[..2] == m2 && DayPrefix(weekday, 3)[..2] == d2;
  }

  lemma MonthStems(month: int)
    requires 0 <= month < 12
    ensures MonthAbbrevs[month][..2] in {"JA", "FE", "MA", "AP", "JU", "AU", "SE", "OC", "NO", "DE"}
  {
    match month
    case 0 => assert MonthAbbrevs[0][..2] == "JA";
    case 1 => assert MonthAbbrevs[1][..2] == "FE";
    case 2 => assert MonthAbbrevs[2][..2] == "MA";
    case 3 => assert MonthAbbrevs[3][..2] == "AP";
    case 4 => assert MonthAbbrevs[4][..2] == "MA";
    case 5 => assert MonthAbbrevs[5][..2] == "JU";
    case 6 => assert MonthAbbrevs[6][..2] == "JU";
    case 7 => assert MonthAbbrevs[7][..2] == "AU";
    case 8 => assert MonthAbbrevs[8][..2] == "SE";
    case 9 => assert MonthAbbrevs[9][..2] == "OC";
    case 10 => assert MonthAbbrevs[10][..2] == "NO";
    case 11 => assert MonthAbbrevs[11][..2] == "DE";
  }

  lemma DayStems(weekday: int)
    requires 0 <= weekday < 7
    ensures DayAbbrevs[weekday][..2] in {"SU", "MO", "TU", "WE", "TH", "FR", "SA"}
  {
    match weekday
    case 0 => assert DayAbbrevs[0][..2] == "SU";
    case 1 => assert DayAbbrevs[1][..2] == "MO";
    case 2 => assert DayAbbrevs[2][..2] == "TU";
    case 3 => assert DayAbbrevs[3][..2] == "WE";
    case 4 => assert DayAbbrevs[4][..2] == "TH";
    case 5 => assert DayAbbrevs[5][..2] == "FR";
    case 6 => assert DayAbbrevs[6][..2] == "SA";
  }
  lemma AbbrevLetters(month: int, weekday: int)
    requires 0 <= month < 12 && 0 <= weekday < 7
    ensures |MonthAbbrevs[month]| == 3 && |DayAbbrevs[weekday]| == 3
    ensures forall i :: 0 <= i < 3 ==> 'A' <= MonthAbbrevs[month][i] <= 'Z'
    ensures forall i :: 0 <= i < 3 ==> 'A' <= DayAbbrevs[weekday][i] <= 'Z'
  {
  }

  /**
   * `DATE_PATTERNS` always has seven entries: the padded day, month·day,
   * day·month, then the month's two- and three-letter prefixes and the
   * weekday's, none of them removed by the de-duplication.
   */
  lemma DatePatternsLayout(day: int, month: int, weekday: int)
    requires ValidDate(day, month, weekday)
    ensures var r := DatePatterns(day, month, weekday);
      && |r| == 7
      && |r[0]| == 2 && DecimalValue(r[0]) == day
      && DecimalValue(Pad2(month + 1)) == month + 1
      && r[1] == Pad2(month + 1) + r[0]
      && r[2] == r[0] + Pad2(month + 1)
      && r[3] == MonthAbbrevs[month][..2] && r[4] == MonthAbbrevs[month]
      && r[5] == DayAbbrevs[weekday][..2] && r[6] == DayAbbrevs[weekday]
      && Distinct(r[3..])
  {
    var text := [MonthPrefix(month, 2), MonthPrefix(month, 3), DayPrefix(weekday, 2), DayPrefix(weekday, 3)];
    TextPrefixesDistinct(month, weekday);
    DedupOfDistinct(text);
    MonthPrefixIsAbbrev(month);
    DayPrefixIsAbbrev(weekday);
    Pad2RoundTrip(day);
    Pad2RoundTrip(month + 1);
    assert DatePatterns(day, month, weekday)[3..] == text;
  }

  /** A non-empty run of capitals and digits. */
  predicate UpperToken(s: string) {
    s != [] && forall i :: 0 <= i < |s| ==> IsUpperOrDigit(s[i])
  }

  lemma UpperTokenNoSpace(s: string)
    requires UpperToken(s)
    ensures NoSpace(s)
  {
    forall i | 0 <= i < |s| ensures !IsSpace(s[i]) {
      assert IsUpperOrDigit(s[i]);
    }
  }

  lemma UpperTokenConcat(a: string, b: string)
    requires UpperToken(a) && UpperToken(b)
    ensures UpperToken(a + b)
  {
    forall i | 0 <= i < |a + b| ensures IsUpperOrDigit((a + b)[i]) {
      if i < |a| {
        assert (a + b)[i] == a[i];
      } else {
        assert (a + b)[i] == b[i - |a|];
      }
    }
  }

  lemma AbbrevTokens(month: int, weekday: int)
    requires 0 <= month < 12 && 0 <= weekday < 7
    ensures UpperToken(MonthAbbrevs[month]) && UpperToken(MonthAbbrevs[month][..2])
    ensures UpperToken(DayAbbrevs[weekday]) && UpperToken(DayAbbrevs[weekday][..2])
  {
    AbbrevLetters(month, weekday);
  }

  /** Every entry is a non-empty run of upper-case letters and digits, with no white space. */
  lemma DatePatternsWellFormed(day: int, month: int, weekday: int)
    requires ValidDate(day, month, weekday)
    ensures var r := DatePatterns(day, month, weekday);
      forall k :: 0 <= k < |r| ==>
        r[k] != [] && NoSpace(r[k]) && (forall i :: 0 <= i < |r[k]| ==> IsUpperOrDigit(r[k][i]))
  {
    var r := DatePatterns(day, month, weekday);
    PatternsAreTokens(day, month, weekday);
    forall k | 0 <= k < |r|
      ensures r[k] != [] && NoSpace(r[k]) && (forall i :: 0 <= i < |r[k]| ==> IsUpperOrDigit(r[k][i]))
    {
      UpperTokenNoSpace(r[k]);
    }
  }

  lemma PatternsAreTokens(day: int, month: int, weekday: int)
    requires ValidDate(day, month, weekday)
    ensures |DatePatterns(day, month, weekday)| == 7
    ensures forall k :: 0 <= k < 7 ==> UpperToken(DatePatterns(day, month, weekday)[k])
  {
    DatePatternsLayout(day, month, weekday);
    var r := DatePatterns(day, month, weekday);
    var dd, mm := Pad2(day), Pad2(month + 1);
    assert r[0] == dd;
    assert UpperToken(dd) && UpperToken(mm);
    UpperTokenConcat(mm, dd);
    UpperTokenConcat(dd, mm);
    AbbrevTokens(month, weekday);
    SevenTokens(r);
  }

  lemma SevenTokens(r: seq<string>)
    requires |r| == 7 && UpperToken(r[0]) && UpperToken(r[1]) && UpperToken(r[2]) && UpperToken(r[3])
    requires UpperToken(r[4]) && UpperToken(r[5]) && UpperToken(r[6])
    ensures forall k :: 0 <= k < 7 ==> UpperToken(r[k])
  {
  }

  /**
   * Only the text prefixes are de-duplicated: month·day and day·month are the
   * same entry exactly when the day of the month equals the month number.
   */
  lemma NumericRepeat(day: int, month: int, weekday: int)
    requires ValidDate(day, month, weekday)
    ensures var r := DatePatterns(day, month, weekday);
      r[1] == r[2] <==> day == month + 1
  {
    DatePatternsLayout(day, month, weekday);
    var dd, mm := Pad2(day), Pad2(month + 1);
    if mm + dd == dd + mm {
      assert mm == (mm + dd)[..2] && dd == (dd + mm)[..2];
    }
    Pad2Injective(day, month + 1);
  }
}
