/** The few Python string built-ins the core relies on: `str.strip()`,
    splitting at single separator characters (`re.split` with a pattern of
    one-character alternatives, and `str.split(sep)`), `'%d'` formatting and
    `int()` on a string. Each comes with the partner that pins it down: the
    strip idempotence, the split/join round trips, and the format/parse round trip. */
module Text {
  import opened Wrappers

  /** Python 3's `str.isspace()`: the characters `str.strip()` removes. */
  predicate IsSpace(c: char) {
    || c == ' '
    || '\t' <= c <= '\r'
    || '\U{1C}' <= c <= '\U{1F}'
    || c == '\U{85}' || c == '\U{A0}' || c == '\U{1680}'
    || '\U{2000}' <= c <= '\U{200A}'
    || c == '\U{2028}' || c == '\U{2029}' || c == '\U{202F}' || c == '\U{205F}'
    || c == '\U{3000}'
  }

  /** Python's `str.strip()`: `s` without its leading and trailing
      whitespace. What is left neither starts nor ends with whitespace. */
  function Strip(s: string): (r: string)
    ensures |r| <= |s|
    ensures r == [] || (!IsSpace(r[0]) && !IsSpace(r[|r| - 1]))
  {
    if s != [] && IsSpace(s[0]) then Strip(s[1..])
    else if s != [] && IsSpace(s[|s| - 1]) then Strip(s[..|s| - 1])
    else s
  }

  /** `s[i..j]` has only whitespace of `s` on either side. */
  predicate SpaceAround(s: string, i: int, j: int) {
    && 0 <= i <= j <= |s|
    && (forall k :: 0 <= k < i ==> IsSpace(s[k]))
    && (forall k :: j <= k < |s| ==> IsSpace(s[k]))
  }

  /** The strip is a slice of `s` with only whitespace cut off on either side. */
  lemma {:induction false} StripIsSlice(s: string)
    ensures exists i, j :: SpaceAround(s, i, j) && Strip(s) == s[i..j]
    decreases |s|, 1
  {
    if s != [] && IsSpace(s[0]) {
      StripFront(s);
    } else if s != [] && IsSpace(s[|s| - 1]) {
      StripBack(s);
    } else {
      assert SpaceAround(s, 0, |s|) && s[0..|s|] == s;
    }
  }

  lemma {:induction false} StripFront(s: string)
    requires s != [] && IsSpace(s[0])
    ensures exists i, j :: SpaceAround(s, i, j) && Strip(s) == s[i..j]
    decreases |s|, 0
  {
    var t := s[1..];
    StripIsSlice(t);
    var i, j :| SpaceAround(t, i, j) && Strip(t) == t[i..j];
    assert t[i..j] == s[i + 1..j + 1];
    assert forall k :: 0 < k < |s| ==> s[k] == t[k - 1];
    assert SpaceAround(s, i + 1, j + 1);
  }

  lemma {:induction false} StripBack(s: string)
    requires s != [] && !IsSpace(s[0]) && IsSpace(s[|s| - 1])
    ensures exists i, j :: SpaceAround(s, i, j) && Strip(s) == s[i..j]
    decreases |s|, 0
  {
    var t := s[..|s| - 1];
    StripIsSlice(t);
    var i, j :| SpaceAround(t, i, j) && Strip(t) == t[i..j];
    assert t[i..j] == s[i..j];
    assert forall k :: 0 <= k < |t| ==> s[k] == t[k];
    assert SpaceAround(s, i, j);
  }

  /** A string that neither starts nor ends with whitespace is its own strip. */
  lemma StripKeeps(s: string)
    requires s == [] || (!IsSpace(s[0]) && !IsSpace(s[|s| - 1]))
    ensures Strip(s) == s
  {
  }

  /** Stripping twice is stripping once. */
  lemma StripIdempotent(s: string)
    ensures Strip(Strip(s)) == Strip(s)
  {
    StripKeeps(Strip(s));
  }

  /** Only characters of `s` survive the strip. */
  lemma StripChars(s: string, c: char)
    requires c in Strip(s)
    ensures c in s
  {
    StripIsSlice(s);
    var i, j :| SpaceAround(s, i, j) && Strip(s) == s[i..j];
    var k :| 0 <= k < |s[i..j]| && s[i..j][k] == c;
    assert s[i + k] == c;
  }

  /** Cuts `s` at every character of `seps`; two adjacent separators give an
      empty piece and so does a separator at either end. With a set of
      single characters this is `re.split('a|b|...', s)`; with one character
      it is `s.split(sep)`. */
  function Split(s: string, seps: set<char>): (r: seq<string>)
    ensures |r| >= 1
  {
    if s == [] then [[]]
    else
      var rest := Split(s[1..], seps);
      if s[0] in seps then [[]] + rest
      else [[s[0]] + rest[0]] + rest[1..]
  }

  /** No piece of a split holds a separator. */
  lemma {:induction false} SplitPiecesAvoid(s: string, seps: set<char>)
    ensures forall i :: 0 <= i < |Split(s, seps)| ==> NoneOf(Split(s, seps)[i], seps)
    decreases |s|
  {
    if s != [] {
      SplitPiecesAvoid(s[1..], seps);
      var rest := Split(s[1..], seps);
      if s[0] !in seps {
        var head := [s[0]] + rest[0];
        assert forall k :: 1 <= k < |head| ==> head[k] == rest[0][k - 1];
      }
    }
  }

  /** The separator characters of `s`, in order: the cuts a split makes. */
  function Cuts(s: string, seps: set<char>): (r: string)
    ensures |r| <= |s|
    ensures forall k :: 0 <= k < |r| ==> r[k] in seps
  {
    if s == [] then []
    else (if s[0] in seps then [s[0]] else []) + Cuts(s[1..], seps)
  }

  /** The pieces with the cuts put back between them, in order. */
  function Weave(pieces: seq<string>, cuts: string): string
    requires |pieces| == |cuts| + 1
  {
    if cuts == [] then pieces[0] else pieces[0] + [cuts[0]] + Weave(pieces[1..], cuts[1..])
  }

  /** A split loses nothing: there is one more piece than there are
      separators in `s`, and putting each separator back between the pieces
      it cut apart gives `s` again, whatever characters `seps` holds. */
  lemma {:induction false} SplitWeave(s: string, seps: set<char>)
    ensures |Split(s, seps)| == |Cuts(s, seps)| + 1
    ensures Weave(Split(s, seps), Cuts(s, seps)) == s
    decreases |s|
  {
    if s != [] {
      SplitWeave(s[1..], seps);
      var rest := Split(s[1..], seps);
      var cuts := Cuts(s[1..], seps);
      if s[0] in seps {
        assert Cuts(s, seps) == [s[0]] + cuts;
        assert ([[]] + rest)[1..] == rest;
        assert ([s[0]] + cuts)[1..] == cuts;
        assert [s[0]] + s[1..] == s;
      } else {
        assert Cuts(s, seps) == cuts;
        var head := [s[0]] + rest[0];
        assert ([head] + rest[1..])[1..] == rest[1..];
        assert [s[0]] + s[1..] == s;
      }
    }
  }

  /** Python's `sep.join(pieces)` with a one-character separator. */
  function Join(pieces: seq<string>, sep: char): string {
    if pieces == [] then []
    else if |pieces| == 1 then pieces[0]
    else pieces[0] + [sep] + Join(pieces[1..], sep)
  }

  predicate NoneOf(s: string, seps: set<char>) {
    forall k :: 0 <= k < |s| ==> s[k] !in seps
  }

  lemma {:induction false} SplitWhole(s: string, seps: set<char>)
    requires NoneOf(s, seps)
    ensures Split(s, seps) == [s]
  {
    if s != [] {
      SplitWhole(s[1..], seps);
      assert [s[0]] + s[1..] == s;
    }
  }

  lemma {:induction false} SplitAt(a: string, c: char, b: string, seps: set<char>)
    requires NoneOf(a, seps) && c in seps
    ensures Split(a + [c] + b, seps) == [a] + Split(b, seps)
  {
    if a == [] {
      assert (a + [c] + b)[1..] == b;
    } else {
      assert (a + [c] + b)[1..] == a[1..] + [c] + b;
      SplitAt(a[1..], c, b, seps);
      assert [a[0]] + a[1..] == a;
    }
  }

  /** Joining pieces that hold no separator and splitting again gives the pieces back. */
  lemma {:induction false} SplitJoin(pieces: seq<string>, c: char, seps: set<char>)
    requires |pieces| >= 1 && c in seps
    requires forall i :: 0 <= i < |pieces| ==> NoneOf(pieces[i], seps)
    ensures Split(Join(pieces, c), seps) == pieces
  {
    if |pieces| == 1 {
      SplitWhole(pieces[0], seps);
    } else {
      SplitJoin(pieces[1..], c, seps);
      SplitAt(pieces[0], c, Join(pieces[1..], c), seps);
      assert [pieces[0]] + pieces[1..] == pieces;
    }
  }

  /** Splitting at one character and joining with it again gives the string back. */
  lemma {:induction false} JoinSplit(s: string, c: char)
    ensures Join(Split(s, {c}), c) == s
  {
    if s != [] {
      var rest := Split(s[1..], {c});
      JoinSplit(s[1..], c);
      if s[0] != c {
        var head := [s[0]] + rest[0];
        if |rest| == 1 {
          assert Split(s, {c}) == [head];
        } else {
          assert Split(s, {c}) == [head] + rest[1..];
          assert ([head] + rest[1..])[1..] == rest[1..];
          assert Join(rest, c) == rest[0] + [c] + Join(rest[1..], c);
        }
      }
    }
  }

  predicate IsDigit(c: char) {
    '0' <= c <= '9'
  }

  function DigitChar(d: nat): (c: char)
    requires d < 10
    ensures IsDigit(c)
  {
    (('0' as int) + d) as char
  }

  /** Python's `'%d' % n` for a natural number: decimal digits, no leading zero. */
  function NatToString(n: nat): (r: string)
    ensures |r| >= 1 && IsDigit(r[0]) && IsDigit(r[|r| - 1])
    ensures forall k :: 0 <= k < |r| ==> IsDigit(r[k])
  {
    if n < 10 then [DigitChar(n)] else NatToString(n / 10) + [DigitChar(n % 10)]
  }

  /** Python's `'%d' % n`: a minus sign before the digits of a negative number. */
  function IntToString(n: int): (r: string)
    ensures r != [] && !IsSpace(r[0]) && !IsSpace(r[|r| - 1])
    ensures forall k :: 0 <= k < |r| ==> r[k] == '-' || IsDigit(r[k])
  {
    if n < 0 then "-" + NatToString(-n) else NatToString(n)
  }

  /** A printed number holds only a sign and digits, so no separator that is neither. */
  lemma IntToStringNoneOf(n: int, seps: set<char>)
    requires '-' !in seps && forall c :: c in seps ==> !IsDigit(c)
    ensures NoneOf(IntToString(n), seps)
  {
  }

  /** The digits `int()` accepts after the sign: ASCII digits, single
      underscores allowed between two digits (Python 3.6 and later). */
  predicate IsNumeral(s: string) {
    && |s| >= 1
    && IsDigit(s[0])
    && IsDigit(s[|s| - 1])
    && (forall k :: 0 <= k < |s| ==> IsDigit(s[k]) || s[k] == '_')
    && (forall j, k :: 0 <= j < |s| && 0 <= k < |s| && k == j + 1 && s[j] == '_' ==> IsDigit(s[k]))
  }

  /** The value of a numeral, read left to right, underscores ignored. */
  function NumeralValue(s: string): nat {
    if s == [] then 0
    else
      var last := s[|s| - 1];
      if IsDigit(last) then NumeralValue(s[..|s| - 1]) * 10 + (last as int - '0' as int)
      else NumeralValue(s[..|s| - 1])
  }

  /** Python's `int(s)` on a `str`: surrounding whitespace ignored, then
      `ParseSigned`; anything else raises `ValueError`, here `None`. */
  function ParseInt(s: string): Option<int> {
    ParseSigned(Strip(s))
  }

  /** An optional sign followed by a numeral, and nothing else. */
  function ParseSigned(t: string): Option<int> {
    if |t| > 0 && (t[0] == '+' || t[0] == '-') then
      if IsNumeral(t[1..]) then
        var v: int := NumeralValue(t[1..]);
        Some(if t[0] == '-' then -v else v)
      else None
    else if IsNumeral(t) then Some(NumeralValue(t))
    else None
  }

  /** `int()` fails on a string without a digit. */
  lemma ParseIntNeedsDigit(s: string)
    requires ParseInt(s).Some?
    ensures exists k :: 0 <= k < |s| && IsDigit(s[k])
  {
    var t := Strip(s);
    var c := if t[0] == '+' || t[0] == '-' then t[1] else t[0];
    StripChars(s, c);
    var k :| 0 <= k < |s| && s[k] == c;
  }

  lemma {:induction false} NatToStringValue(n: nat)
    ensures NumeralValue(NatToString(n)) == n
  {
    if n >= 10 {
      NatToStringValue(n / 10);
      var s := NatToString(n);
      assert s[..|s| - 1] == NatToString(n / 10);
    }
  }

  /** `int('%d' % n) == n`. */
  lemma IntToStringParses(n: int)
    ensures ParseInt(IntToString(n)) == Some(n)
  {
    StripKeeps(IntToString(n));
    SignedParses(n);
  }

  lemma SignedParses(n: int)
    ensures ParseSigned(IntToString(n)) == Some(n)
  {
    if n < 0 {
      NegativeDigits(n);
      NatNumeral(-n);
    } else {
      NatNumeral(n);
    }
  }

  /** The digits of a negative number follow its sign. */
  lemma NegativeDigits(n: int)
    requires n < 0
    ensures IntToString(n)[0] == '-' && IntToString(n)[1..] == NatToString(-n)
  {
  }

  /** A printed natural number is a numeral for that number. */
  lemma NatNumeral(n: nat)
    ensures IsNumeral(NatToString(n)) && NumeralValue(NatToString(n)) == n
  {
    NatToStringValue(n);
  }
}
