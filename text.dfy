/**
 * String operations the feed generator relies on: JavaScript's `trim`,
 * `toUpperCase` (on ASCII letters), `includes`, `padStart(2, '0')` and
 * string truthiness.
 */
module Text {
  import opened Wrappers

  /** The characters `String.prototype.trim` removes (WhiteSpace and LineTerminator). */
  predicate IsSpace(c: char) {
    c == ' ' || c == '\t' || c == '\n' || c == '\r' || c == '\U{B}' || c == '\U{C}'
    || c == '\U{A0}' || c == '\U{1680}' || ('\U{2000}' <= c <= '\U{200A}')
    || c == '\U{2028}' || c == '\U{2029}' || c == '\U{202F}' || c == '\U{205F}'
    || c == '\U{3000}' || c == '\U{FEFF}'
  }

  predicate AllSpace(s: string) {
    forall i :: 0 <= i < |s| ==> IsSpace(s[i])
  }

  predicate NoSpace(s: string) {
    forall i :: 0 <= i < |s| ==> !IsSpace(s[i])
  }

  /** A JavaScript value of string type is truthy when it is present and non-empty. */
  predicate Truthy(o: Option<string>) {
    o.Some? && o.value != ""
  }

  /** `o || fallback` for an optional string. */
  function OrElse(o: Option<string>, fallback: string): (r: string)
    ensures Truthy(o) ==> r == o.value
    ensures !Truthy(o) ==> r == fallback
  {
    if Truthy(o) then o.value else fallback
  }

  /** `a || b` for two optional strings. */
  function OrOpt(a: Option<string>, b: Option<string>): (r: Option<string>)
    ensures Truthy(a) ==> r == a
    ensures !Truthy(a) ==> r == b
  {
    if Truthy(a) then a else b
  }

  // ---------------------------------------------------------------- trim

  function TrimStart(s: string): (r: string)
    ensures |r| <= |s| && r == s[|s| - |r|..]
    ensures AllSpace(s[..|s| - |r|])
    ensures r != [] ==> !IsSpace(r[0])
  {
    if s != [] && IsSpace(s[0]) then
      var r := TrimStart(s[1..]);
      assert s[1..][|s| - 1 - |r|..] == s[|s| - |r|..];
      assert forall i :: 1 <= i < |s| - |r| ==> s[i] == s[1..][..|s| - 1 - |r|][i - 1];
      r
    else s
  }

  function TrimEnd(s: string): (r: string)
    ensures |r| <= |s| && r == s[..|r|]
    ensures AllSpace(s[|r|..])
    ensures r != [] ==> !IsSpace(r[|r| - 1])
  {
    if s != [] && IsSpace(s[|s| - 1]) then TrimEnd(s[..|s| - 1]) else s
  }

  /** How many white-space characters `trim` drops from the front of `s`. */
  function LeadingSpace(s: string): (n: nat)
    ensures n <= |s|
  {
    |s| - |TrimStart(s)|
  }

  /**
   * `s.trim()`: the slice of `s` left after dropping white space at both ends;
   * what is dropped is all white space and what is kept starts and ends with
   * a character that is not.
   */
  function Trim(s: string): (r: string)
    ensures LeadingSpace(s) + |r| <= |s|
    ensures r == s[LeadingSpace(s)..LeadingSpace(s) + |r|]
    ensures AllSpace(s[..LeadingSpace(s)]) && AllSpace(s[LeadingSpace(s) + |r|..])
    ensures r != [] ==> !IsSpace(r[0]) && !IsSpace(r[|r| - 1])
  {
    var t := TrimStart(s);
    var r := TrimEnd(t);
    assert t[|r|..] == s[|s| - |t| + |r|..];
    r
  }

  lemma {:induction false} TrimStartOfClean(s: string)
    requires s == [] || !IsSpace(s[0])
    ensures TrimStart(s) == s
  {
  }

  /** `trim` is idempotent: a trimmed string trims to itself. */
  lemma TrimIdempotent(s: string)
    ensures Trim(Trim(s)) == Trim(s)
  {
    var r := Trim(s);
    TrimStartOfClean(r);
    assert TrimEnd(r) == r;
  }

  /** A string without white space at either end. */
  predicate Clean(s: string) {
    s == [] || (!IsSpace(s[0]) && !IsSpace(s[|s| - 1]))
  }

  /** A string with no space at either end is its own trim. */
  lemma {:induction false} TrimOfClean(s: string)
    requires Clean(s)
    ensures Trim(s) == s
  {
    TrimStartOfClean(s);
  }

  // ---------------------------------------------------------- upper case

  /** `toUpperCase` on one character, for the ASCII letters this program sees. */
  function UpperChar(c: char): (u: char)
    ensures 'a' <= c <= 'z' ==> u as int == c as int - 32
    ensures !('a' <= c <= 'z') ==> u == c
  {
    if 'a' <= c <= 'z' then (c as int - 32) as char else c
  }

  function ToUpper(s: string): (r: string)
    ensures |r| == |s|
    ensures forall i :: 0 <= i < |s| ==> r[i] == UpperChar(s[i])
  {
    if s == [] then [] else [UpperChar(s[0])] + ToUpper(s[1..])
  }

  lemma ToUpperConcat(a: string, b: string)
    ensures ToUpper(a + b) == ToUpper(a) + ToUpper(b)
  {
    assert ToUpper(a + b) == ToUpper(a) + ToUpper(b) by {
      assert forall i :: 0 <= i < |a + b| ==> ToUpper(a + b)[i] == (ToUpper(a) + ToUpper(b))[i];
    }
  }

  lemma ToUpperKeepsSpace(s: string)
    requires AllSpace(s)
    ensures ToUpper(s) == s
  {
    assert forall i :: 0 <= i < |s| ==> ToUpper(s)[i] == s[i];
  }

  predicate IsUpperOrDigit(c: char) {
    'A' <= c <= 'Z' || '0' <= c <= '9'
  }

  // ----------------------------------------------------------- includes

  /** `p` occurs in `s` starting at index `i`. */
  predicate OccursAt(s: string, p: string, i: int) {
    0 <= i && i + |p| <= |s| && s[i..i + |p|] == p
  }

  /** `s.includes(p)`: `p` occurs in `s` at some position. */
  predicate Contains(s: string, p: string) {
    exists i | 0 <= i <= |s| :: OccursAt(s, p, i)
  }

  lemma ContainsLeft(a: string, b: string, p: string)
    requires Contains(a, p)
    ensures Contains(a + b, p)
  {
    var i :| 0 <= i <= |a| && OccursAt(a, p, i);
    assert (a + b)[i..i + |p|] == a[i..i + |p|];
    assert OccursAt(a + b, p, i);
  }

  lemma ContainsRight(a: string, b: string, p: string)
    requires Contains(b, p)
    ensures Contains(a + b, p)
  {
    var i :| 0 <= i <= |b| && OccursAt(b, p, i);
    assert (a + b)[|a| + i..|a| + i + |p|] == b[i..i + |p|];
    assert OccursAt(a + b, p, |a| + i);
  }

  lemma OccursInLeft(a: string, b: string, p: string, i: int)
    requires OccursAt(a + b, p, i) && i + |p| <= |a|
    ensures OccursAt(a, p, i)
  {
    assert a[i..i + |p|] == (a + b)[i..i + |p|];
  }

  lemma OccursInRight(a: string, b: string, p: string, i: int)
    requires OccursAt(a + b, p, i) && i >= |a|
    ensures OccursAt(b, p, i - |a|)
  {
    var j := i - |a|;
    forall k | j <= k < j + |p| ensures b[k] == (a + b)[k + |a|] {
    }
    assert b[j..j + |p|] == (a + b)[i..i + |p|];
  }

  /** An occurrence that overlaps the white space `w` puts white space in the pattern. */
  lemma StraddleHasSpace(a: string, w: string, b: string, p: string, i: int)
    requires w != [] && AllSpace(w) && p != []
    requires OccursAt(a + w + b, p, i) && |a| < i + |p| && i < |a| + |w|
    ensures !NoSpace(p)
  {
    var s := a + w + b;
    var k := if i <= |a| then |a| else i;
    assert s[k] == w[k - |a|];
    assert s[i..i + |p|][k - i] == s[k];
  }

  /**
   * A pattern without white space that occurs in `a + w + b`, where `w` is
   * white space, occurs wholly in `a` or wholly in `b`.
   */
  lemma ContainsAcrossSpace(a: string, w: string, b: string, p: string)
    requires w != [] && AllSpace(w) && NoSpace(p)
    ensures Contains(a + w + b, p) <==> Contains(a, p) || Contains(b, p)
  {
    var s := a + w + b;
    if p == [] {
      assert a[0..0] == p && OccursAt(a, p, 0);
      assert s[0..0] == p && OccursAt(s, p, 0);
    } else {
      if Contains(a, p) {
        ContainsLeft(a, w + b, p);
        assert a + (w + b) == s;
      }
      if Contains(b, p) {
        ContainsRight(a + w, b, p);
      }
      if Contains(s, p) {
        var i :| 0 <= i <= |s| && OccursAt(s, p, i);
        if i + |p| <= |a| {
          assert a + (w + b) == s;
          OccursInLeft(a, w + b, p, i);
        } else if i >= |a| + |w| {
          OccursInRight(a + w, b, p, i);
        } else {
          StraddleHasSpace(a, w, b, p, i);
        }
      }
    }
  }

  /**
   * Three fields laid out as `w + a + w + b + w + c + w2`, with white-space
   * separators, contain a pattern without white space exactly when one of
   * the fields does.
   */
  lemma ContainsInFields(w: string, w2: string, a: string, b: string, c: string, p: string)
    requires w != [] && AllSpace(w) && w2 != [] && AllSpace(w2) && NoSpace(p)
    ensures Contains(w + a + w + b + w + c + w2, p) <==> Contains(a, p) || Contains(b, p) || Contains(c, p)
  {
    if p == [] {
      assert a[0..0] == p && OccursAt(a, p, 0);
      var s := w + a + w + b + w + c + w2;
      assert s[0..0] == p && OccursAt(s, p, 0);
    } else {
      var tail3 := c + w2;
      var tail2 := b + w + tail3;
      var tail1 := a + w + tail2;
      ContainsAcrossSpace(c, w2, [], p);
      assert c + w2 + [] == tail3;
      ContainsAcrossSpace(b, w, tail3, p);
      ContainsAcrossSpace(a, w, tail2, p);
      ContainsAcrossSpace([], w, tail1, p);
      EmptyHasNoPattern(p);
      assert [] + w + tail1 == w + a + w + b + w + c + w2;
    }
  }

  lemma EmptyHasNoPattern(p: string)
    requires p != []
    ensures !Contains([], p)
  {
  }

  // -------------------------------------------------------------- lines

  /** The lines joined with a newline between each two. */
  function JoinLines(lines: seq<string>): string {
    if lines == [] then ""
    else if |lines| == 1 then lines[0]
    else lines[0] + "\n" + JoinLines(lines[1..])
  }

  /** Appending a line to a joined text joins one more line. */
  lemma {:induction false} JoinLinesSnoc(lines: seq<string>, line: string)
    requires lines != []
    ensures JoinLines(lines + [line]) == JoinLines(lines) + "\n" + line
  {
    if |lines| == 1 {
      assert lines + [line] == [lines[0], line];
      assert [lines[0], line][1..] == [line];
    } else {
      assert (lines + [line])[1..] == lines[1..] + [line];
      JoinLinesSnoc(lines[1..], line);
    }
  }

  /** The index of the first newline of `s`, `|s|` if there is none. */
  function NewlineIndex(s: string): (i: nat)
    ensures i <= |s|
    ensures forall k :: 0 <= k < i ==> s[k] != '\n'
    ensures i < |s| ==> s[i] == '\n'
  {
    if s == [] then 0 else if s[0] == '\n' then 0 else 1 + NewlineIndex(s[1..])
  }

  /** `s.split('\n')`. */
  function SplitLines(s: string): (r: seq<string>)
    ensures r != []
    decreases |s|
  {
    var i := NewlineIndex(s);
    if i == |s| then [s] else [s[..i]] + SplitLines(s[i + 1..])
  }

  predicate NoNewline(s: string) {
    forall k :: 0 <= k < |s| ==> s[k] != '\n'
  }

  /** Splitting a text made of lines without newlines gives back the lines. */
  lemma {:induction false} SplitJoinLines(lines: seq<string>)
    requires lines != []
    requires forall k :: 0 <= k < |lines| ==> NoNewline(lines[k])
    ensures SplitLines(JoinLines(lines)) == lines
  {
    var l := lines[0];
    assert NoNewline(l);
    if |lines| == 1 {
      NewlineIndexOfClean(l);
    } else {
      var rest := JoinLines(lines[1..]);
      var s := l + "\n" + rest;
      NewlineIndexAfter(l, rest);
      assert s[..|l|] == l;
      assert s[|l| + 1..] == rest;
      SplitJoinLines(lines[1..]);
      assert lines == [l] + lines[1..];
    }
  }

  lemma {:induction false} NewlineIndexOfClean(s: string)
    requires NoNewline(s)
    ensures NewlineIndex(s) == |s|
  {
    if s != [] {
      assert NoNewline(s[1..]);
      NewlineIndexOfClean(s[1..]);
    }
  }

  lemma {:induction false} NewlineIndexAfter(l: string, rest: string)
    requires NoNewline(l)
    ensures NewlineIndex(l + "\n" + rest) == |l|
  {
    if l != [] {
      assert (l + "\n" + rest)[1..] == l[1..] + "\n" + rest;
      assert NoNewline(l[1..]);
      NewlineIndexAfter(l[1..], rest);
    }
  }

  // ------------------------------------------------------------ numbers

  function Digit(d: int): (c: char)
    requires 0 <= d < 10
    ensures '0' <= c <= '9'
  {
    ('0' as int + d) as char
  }

  /** `String(n).padStart(2, '0')` for a number below one hundred. */
  function Pad2(n: int): (r: string)
    requires 0 <= n < 100
    ensures |r| == 2 && '0' <= r[0] <= '9' && '0' <= r[1] <= '9'
  {
    if n < 10 then ['0', Digit(n)] else [Digit(n / 10), Digit(n % 10)]
  }

  /** The number a string of decimal digits denotes. */
  function DecimalValue(s: string): int
    requires forall i :: 0 <= i < |s| ==> '0' <= s[i] <= '9'
  {
    if s == [] then 0 else DecimalValue(s[..|s| - 1]) * 10 + (s[|s| - 1] as int - '0' as int)
  }

  /** Padding loses nothing: the two digits read back as the number. */
  lemma Pad2RoundTrip(n: int)
    requires 0 <= n < 100
    ensures DecimalValue(Pad2(n)) == n
  {
    var r := Pad2(n);
    assert r[..1][..0] == [];
    assert DecimalValue(r[..1]) == r[0] as int - '0' as int;
    assert r[..|r| - 1] == r[..1];
  }

  lemma Pad2Injective(m: int, n: int)
    requires 0 <= m < 100 && 0 <= n < 100
    ensures Pad2(m) == Pad2(n) <==> m == n
  {
    if Pad2(m) == Pad2(n) {
      Pad2RoundTrip(m);
      Pad2RoundTrip(n);
    }
  }
}
