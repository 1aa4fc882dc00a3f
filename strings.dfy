/** String operations the program relies on from JavaScript: the whitespace class of
    regular expressions and `trim`, `split` on a separator string, `join`, and the
    decimal rendering and parsing of whole numbers. */
module Strings {

  /** JavaScript's WhiteSpace and LineTerminator characters: what `\s` matches and
      what `String.prototype.trim` removes. */
  predicate IsSpace(c: char) {
    c == ' ' || c == '\t' || c == '\n' || c == '\r' || c == '\U{000B}' || c == '\U{000C}'
    || c == '\U{00A0}' || c == '\U{1680}' || ('\U{2000}' <= c <= '\U{200A}')
    || c == '\U{2028}' || c == '\U{2029}' || c == '\U{202F}' || c == '\U{205F}'
    || c == '\U{3000}' || c == '\U{FEFF}'
  }

  /** `s.trim() === ''`: every character of `s` is whitespace. */
  predicate IsBlank(s: string) {
    forall i | 0 <= i < |s| :: IsSpace(s[i])
  }

  /** `s.replace(/\s+/g, '')`: every run of whitespace removed. */
  function RemoveSpaces(s: string): string {
    if s == [] then []
    else if IsSpace(s[0]) then RemoveSpaces(s[1..])
    else [s[0]] + RemoveSpaces(s[1..])
  }

  /** No whitespace is left, and the text never grows. */
  lemma {:induction false} RemoveSpacesNoSpaces(s: string)
    ensures forall i | 0 <= i < |RemoveSpaces(s)| :: !IsSpace(RemoveSpaces(s)[i])
    ensures |RemoveSpaces(s)| <= |s|
  {
    if s != [] {
      RemoveSpacesNoSpaces(s[1..]);
    }
  }

  lemma {:induction false} RemoveSpacesKeepsOthers(s: string)
    requires forall i | 0 <= i < |s| :: !IsSpace(s[i])
    ensures RemoveSpaces(s) == s
  {
    if s != [] {
      RemoveSpacesKeepsOthers(s[1..]);
    }
  }

  /** Whitespace is removed piece by piece: every other character is kept, in order. */
  lemma {:induction false} RemoveSpacesAppend(a: string, b: string)
    ensures RemoveSpaces(a + b) == RemoveSpaces(a) + RemoveSpaces(b)
  {
    if a == [] {
      assert a + b == b;
    } else {
      var c, t := a[0], a[1..];
      RemoveSpacesAppend(t, b);
      assert a == [c] + t && a + b == [c] + (t + b);
      RemoveSpacesCons(c, t);
      RemoveSpacesCons(c, t + b);
    }
  }

  lemma RemoveSpacesCons(c: char, s: string)
    ensures RemoveSpaces([c] + s) == (if IsSpace(c) then [] else [c]) + RemoveSpaces(s)
  {
    assert ([c] + s)[0] == c && ([c] + s)[1..] == s;
  }

  predicate StartsWith(s: string, prefix: string) {
    |prefix| <= |s| && s[..|prefix|] == prefix
  }

  /** `s.includes(t)`: `t` occurs in `s` at some position. */
  predicate Contains(s: string, t: string) {
    exists i | 0 <= i <= |s| :: StartsWith(s[i..], t)
  }

  /** No proper non-empty prefix of `sep` is also a suffix of it, so two occurrences of
      `sep` can never overlap. True of every one-character separator and of "* ". */
  predicate Borderless(sep: string) {
    forall m | 0 < m < |sep| :: sep[m..] != sep[..|sep| - m]
  }

  /** `s.split(sep)` for a non-empty separator string: the pieces between the
      occurrences of `sep`, found from left to right without overlap. */
  function Split(s: string, sep: string): (pieces: seq<string>)
    requires sep != []
    ensures |pieces| >= 1
    decreases |s|
  {
    if |s| < |sep| then [s]
    else if s[..|sep|] == sep then [""] + Split(s[|sep|..], sep)
    else
      var rest := Split(s[1..], sep);
      [[s[0]] + rest[0]] + rest[1..]
  }

  /** `parts.join(sep)`. */
  function Join(parts: seq<string>, sep: string): string {
    if parts == [] then ""
    else if |parts| == 1 then parts[0]
    else parts[0] + sep + Join(parts[1..], sep)
  }

  /** Splitting and joining again gives back the text. */
  lemma {:induction false} JoinSplit(s: string, sep: string)
    requires sep != []
    ensures Join(Split(s, sep), sep) == s
    decreases |s|
  {
    if |s| < |sep| {
    } else if s[..|sep|] == sep {
      var tail := s[|sep|..];
      JoinSplit(tail, sep);
      assert Split(s, sep) == [""] + Split(tail, sep);
      assert s == "" + sep + tail;
    } else {
      var rest := Split(s[1..], sep);
      JoinSplit(s[1..], sep);
      if |rest| == 1 {
        assert s == [s[0]] + s[1..];
      } else {
        assert Join(rest, sep) == rest[0] + sep + Join(rest[1..], sep);
        assert s == [s[0]] + s[1..];
      }
    }
  }

  /** The first piece of a split is a prefix of the text. */
  lemma {:induction false} SplitHeadIsPrefix(s: string, sep: string)
    requires sep != []
    ensures StartsWith(s, Split(s, sep)[0])
    decreases |s|
  {
    if |s| < |sep| {
    } else if s[..|sep|] == sep {
    } else {
      SplitHeadIsPrefix(s[1..], sep);
    }
  }

  /** No piece of a split contains the separator. */
  lemma {:induction false} SplitPiecesFree(s: string, sep: string)
    requires sep != []
    ensures forall k | 0 <= k < |Split(s, sep)| :: !Contains(Split(s, sep)[k], sep)
    decreases |s|
  {
    var pieces := Split(s, sep);
    if |s| < |sep| {
      NoRoomNoOccurrence(s, sep);
    } else if s[..|sep|] == sep {
      SplitPiecesFree(s[|sep|..], sep);
      NoRoomNoOccurrence("", sep);
    } else {
      var rest := Split(s[1..], sep);
      SplitPiecesFree(s[1..], sep);
      SplitHeadIsPrefix(s[1..], sep);
      var head := [s[0]] + rest[0];
      forall i | 0 <= i <= |head|
        ensures !StartsWith(head[i..], sep)
      {
        if i == 0 {
          assert |sep| <= |head| ==> head[..|sep|] == s[..|sep|];
        } else {
          assert head[i..] == rest[0][i - 1..];
        }
      }
      assert pieces == [head] + rest[1..];
    }
  }

  lemma NoRoomNoOccurrence(s: string, sep: string)
    requires |s| < |sep|
    ensures !Contains(s, sep)
  {
  }

  /** Splitting a text that does not contain the separator gives the text alone. */
  lemma {:induction false} SplitFree(p: string, sep: string)
    requires sep != []
    requires !Contains(p, sep)
    ensures Split(p, sep) == [p]
    decreases |p|
  {
    if |p| >= |sep| {
      assert StartsWith(p[0..], sep) == (p[..|sep|] == sep);
      assert !Contains(p[1..], sep) by {
        forall i | 0 <= i <= |p[1..]| ensures !StartsWith(p[1..][i..], sep) {
          assert p[1..][i..] == p[i + 1..];
        }
      }
      SplitFree(p[1..], sep);
      assert p == [p[0]] + p[1..];
    }
  }

  /** A piece free of a borderless separator, followed by the separator, splits off as one piece. */
  lemma {:induction false} SplitPieceThenSep(p: string, sep: string, rest: string)
    requires sep != [] && Borderless(sep)
    requires !Contains(p, sep)
    ensures Split(p + sep + rest, sep) == [p] + Split(rest, sep)
    decreases |p|
  {
    var s := p + sep + rest;
    if p == [] {
      assert s == sep + rest;
      assert s[..|sep|] == sep;
      assert s[|sep|..] == rest;
    } else {
      assert s[..|sep|] != sep by {
        if |p| >= |sep| {
          assert !StartsWith(p[0..], sep);
          assert p[0..][..|sep|] == s[..|sep|];
        } else {
          PrefixMatchGivesBorder(p, sep, rest);
        }
      }
      var p' := p[1..];
      assert !Contains(p', sep) by {
        forall i | 0 <= i <= |p'| ensures !StartsWith(p'[i..], sep) {
          assert p'[i..] == p[i + 1..];
        }
      }
      SplitPieceThenSep(p', sep, rest);
      assert s[1..] == p' + sep + rest;
      assert p == [p[0]] + p';
    }
  }

  lemma PrefixMatchGivesBorder(p: string, sep: string, rest: string)
    requires 0 < |p| < |sep|
    ensures (p + sep + rest)[..|sep|] == sep ==> sep[|p|..] == sep[..|sep| - |p|]
  {
    var s, m := p + sep + rest, |p|;
    if s[..|sep|] == sep {
      forall k | 0 <= k < |sep| - m ensures sep[m..][k] == sep[k] {
        assert s[m + k] == sep[m + k];
        assert s[m + k] == (sep + rest)[k];
      }
    }
  }

  /** Joining pieces that do not contain a borderless separator and splitting again
      gives back the pieces. */
  lemma {:induction false} SplitJoin(parts: seq<string>, sep: string)
    requires sep != [] && Borderless(sep)
    requires |parts| >= 1
    requires forall k | 0 <= k < |parts| :: !Contains(parts[k], sep)
    ensures Split(Join(parts, sep), sep) == parts
  {
    if |parts| == 1 {
      SplitFree(parts[0], sep);
    } else {
      SplitJoin(parts[1..], sep);
      SplitPieceThenSep(parts[0], sep, Join(parts[1..], sep));
      assert parts == [parts[0]] + parts[1..];
    }
  }

  /** A character that is a decimal digit. */
  predicate IsDigit(c: char) {
    '0' <= c <= '9'
  }

  predicate IsDigits(s: string) {
    forall i | 0 <= i < |s| :: IsDigit(s[i])
  }

  function DigitChar(d: nat): char
    requires d < 10
  {
    "0123456789"[d]
  }

  function DigitValue(c: char): nat
    requires IsDigit(c)
  {
    (c as int - '0' as int) as nat
  }

  /** The decimal rendering of a whole number, as a template literal `${n}` gives it. */
  function Decimal(n: nat): (s: string)
    ensures |s| >= 1 && IsDigits(s)
  {
    if n < 10 then [DigitChar(n)] else Decimal(n / 10) + [DigitChar(n % 10)]
  }

  /** The decimal rendering of an integer, with a leading minus sign when negative. */
  function IntToString(n: int): string {
    if n < 0 then "-" + Decimal(-n) else Decimal(n)
  }

  /** `Number(s)` for a string of decimal digits. */
  function DecimalValue(s: string): nat
    requires IsDigits(s)
  {
    if s == [] then 0 else DecimalValue(s[..|s| - 1]) * 10 + DigitValue(s[|s| - 1])
  }

  /** Parsing the rendering of a number gives back the number. */
  lemma {:induction false} DecimalRoundTrip(n: nat)
    ensures DecimalValue(Decimal(n)) == n
  {
    var s := Decimal(n);
    if n < 10 {
      assert s[..0] == [];
    } else {
      DecimalRoundTrip(n / 10);
      assert s[..|s| - 1] == Decimal(n / 10);
      assert DigitValue(s[|s| - 1]) == n % 10;
    }
  }
}
