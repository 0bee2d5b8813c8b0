/**
  The parts of Rust's `str` and `char` that the FEN check relies on:
  `split_whitespace`, `split` on a character, `contains` on a string
  pattern, `len` (the UTF-8 length in bytes) and `parse::<u16>`.
  Strings are sequences of Unicode scalar values.
*/
module RustStr {
  import opened Wrappers
  import opened Ints

  // ---------------------------------------------------------------------
  // split_whitespace
  // ---------------------------------------------------------------------

  /** `char::is_whitespace`: the characters with the Unicode White_Space property. */
  predicate IsWhitespace(c: char) {
    || ('\U{0009}' <= c <= '\U{000D}')
    || c == ' ' || c == '\U{0085}' || c == '\U{00A0}' || c == '\U{1680}'
    || ('\U{2000}' <= c <= '\U{200A}')
    || c == '\U{2028}' || c == '\U{2029}' || c == '\U{202F}' || c == '\U{205F}' || c == '\U{3000}'
  }

  /** A piece `split_whitespace` can yield: nonempty, with no whitespace in it. */
  predicate IsToken(t: string) {
    |t| > 0 && forall i :: 0 <= i < |t| ==> !IsWhitespace(t[i])
  }

  /** The length of the run of non-whitespace characters that starts `s`. */
  function WordLength(s: string): (n: nat)
    ensures n <= |s|
    ensures forall i :: 0 <= i < n ==> !IsWhitespace(s[i])
    ensures n < |s| ==> IsWhitespace(s[n])
  {
    if |s| == 0 || IsWhitespace(s[0]) then 0 else 1 + WordLength(s[1..])
  }

  /** `str::split_whitespace`: the maximal runs of non-whitespace characters, in order. */
  function SplitWhitespace(s: string): (tokens: seq<string>)
    ensures forall k :: 0 <= k < |tokens| ==> IsToken(tokens[k])
    decreases |s|
  {
    if |s| == 0 then []
    else if IsWhitespace(s[0]) then SplitWhitespace(s[1..])
    else
      var n := WordLength(s);
      [s[..n]] + SplitWhitespace(s[n..])
  }

  /** `s` with its whitespace removed. */
  function RemoveWhitespace(s: string): string {
    if |s| == 0 then []
    else if IsWhitespace(s[0]) then RemoveWhitespace(s[1..])
    else [s[0]] + RemoveWhitespace(s[1..])
  }

  /** The concatenation of some strings. */
  function Concat(pieces: seq<string>): string {
    if |pieces| == 0 then [] else pieces[0] + Concat(pieces[1..])
  }

  /** Strings joined by single spaces. */
  function JoinSpaced(tokens: seq<string>): string
    requires |tokens| > 0
  {
    if |tokens| == 1 then tokens[0] else tokens[0] + " " + JoinSpaced(tokens[1..])
  }

  lemma {:induction false} RemoveWhitespaceAppend(a: string, b: string)
    ensures RemoveWhitespace(a + b) == RemoveWhitespace(a) + RemoveWhitespace(b)
    decreases |a|
  {
    if |a| > 0 {
      assert (a + b)[0] == a[0] && (a + b)[1..] == a[1..] + b;
      RemoveWhitespaceAppend(a[1..], b);
    } else {
      assert a + b == b;
    }
  }

  lemma {:induction false} RemoveWhitespaceOfWord(w: string)
    requires forall i :: 0 <= i < |w| ==> !IsWhitespace(w[i])
    ensures RemoveWhitespace(w) == w
    decreases |w|
  {
    if |w| > 0 {
      RemoveWhitespaceOfWord(w[1..]);
    }
  }

  /** The tokens hold exactly the non-whitespace characters of `s`, in order. */
  lemma {:induction false} SplitWhitespaceKeepsText(s: string)
    ensures Concat(SplitWhitespace(s)) == RemoveWhitespace(s)
    decreases |s|
  {
    if |s| == 0 {
    } else if IsWhitespace(s[0]) {
      SplitWhitespaceKeepsText(s[1..]);
    } else {
      var n := WordLength(s);
      var rest := SplitWhitespace(s[n..]);
      assert SplitWhitespace(s) == [s[..n]] + rest;
      assert ([s[..n]] + rest)[1..] == rest;
      SplitWhitespaceKeepsText(s[n..]);
      assert s == s[..n] + s[n..];
      RemoveWhitespaceAppend(s[..n], s[n..]);
      RemoveWhitespaceOfWord(s[..n]);
    }
  }

  lemma {:induction false} WordLengthOfTokenThen(t: string, rest: string)
    requires IsToken(t)
    requires |rest| == 0 || IsWhitespace(rest[0])
    ensures WordLength(t + rest) == |t|
    decreases |t|
  {
    if |t| > 1 {
      assert (t + rest)[1..] == t[1..] + rest;
      WordLengthOfTokenThen(t[1..], rest);
    } else {
      assert (t + rest)[1..] == rest;
    }
  }

  /** Splitting tokens joined by single spaces gives the tokens back. */
  lemma {:induction false} SplitWhitespaceOfJoin(tokens: seq<string>)
    requires |tokens| > 0
    requires forall k :: 0 <= k < |tokens| ==> IsToken(tokens[k])
    ensures SplitWhitespace(JoinSpaced(tokens)) == tokens
    decreases |tokens|
  {
    var t := tokens[0];
    if |tokens| == 1 {
      WordLengthOfTokenThen(t, []);
      assert t + [] == t;
      assert t[|t|..] == [];
    } else {
      var rest := JoinSpaced(tokens[1..]);
      var s := t + " " + rest;
      assert s == t + (" " + rest);
      WordLengthOfTokenThen(t, " " + rest);
      assert s[..|t|] == t;
      assert s[|t|..] == " " + rest;
      assert (" " + rest)[1..] == rest;
      SplitWhitespaceOfJoin(tokens[1..]);
      assert tokens == [t] + tokens[1..];
    }
  }

  // ---------------------------------------------------------------------
  // split on a character
  // ---------------------------------------------------------------------

  /** The length of the text before the first `sep`, or of all of `s`. */
  function FieldLength(s: string, sep: char): (n: nat)
    ensures n <= |s|
    ensures forall i :: 0 <= i < n ==> s[i] != sep
    ensures n < |s| ==> s[n] == sep
  {
    if |s| == 0 || s[0] == sep then 0 else 1 + FieldLength(s[1..], sep)
  }

  /**
    `str::split` on a character: the pieces between the separators, empty
    ones included, so there is always at least one.
  */
  function Split(s: string, sep: char): (pieces: seq<string>)
    ensures |pieces| > 0
    ensures forall k :: 0 <= k < |pieces| ==> sep !in pieces[k]
    decreases |s|
  {
    var n := FieldLength(s, sep);
    if n == |s| then [s] else [s[..n]] + Split(s[n + 1..], sep)
  }

  /** The number of times `c` occurs in `s`. */
  function Count(s: string, c: char): nat {
    if |s| == 0 then 0 else (if s[0] == c then 1 else 0) + Count(s[1..], c)
  }

  /** Pieces joined by `sep`. */
  function Join(pieces: seq<string>, sep: char): string
    requires |pieces| > 0
  {
    if |pieces| == 1 then pieces[0] else pieces[0] + [sep] + Join(pieces[1..], sep)
  }

  lemma {:induction false} CountAppend(a: string, b: string, c: char)
    ensures Count(a + b, c) == Count(a, c) + Count(b, c)
    decreases |a|
  {
    if |a| > 0 {
      assert (a + b)[0] == a[0] && (a + b)[1..] == a[1..] + b;
      CountAppend(a[1..], b, c);
    } else {
      assert a + b == b;
    }
  }

  lemma {:induction false} CountAbsent(s: string, c: char)
    requires c !in s
    ensures Count(s, c) == 0
    decreases |s|
  {
    if |s| > 0 {
      CountAbsent(s[1..], c);
    }
  }

  /** There is one more piece than there are separators. */
  lemma {:induction false} SplitCount(s: string, sep: char)
    ensures |Split(s, sep)| == Count(s, sep) + 1
    decreases |s|
  {
    var n := FieldLength(s, sep);
    assert sep !in s[..n];
    CountAbsent(s[..n], sep);
    if n == |s| {
      assert s[..n] == s;
    } else {
      SplitCount(s[n + 1..], sep);
      assert s == s[..n] + [sep] + s[n + 1..];
      CountAppend(s[..n] + [sep], s[n + 1..], sep);
      CountAppend(s[..n], [sep], sep);
    }
  }

  /** Joining the pieces with the separator gives back the string. */
  lemma {:induction false} JoinOfSplit(s: string, sep: char)
    ensures Join(Split(s, sep), sep) == s
    decreases |s|
  {
    var n := FieldLength(s, sep);
    var pieces := Split(s, sep);
    if n < |s| {
      var rest := Split(s[n + 1..], sep);
      assert pieces == [s[..n]] + rest;
      assert pieces[0] == s[..n] && pieces[1..] == rest;
      JoinOfSplit(s[n + 1..], sep);
      assert Join(pieces, sep) == s[..n] + [sep] + Join(rest, sep);
      assert s == s[..n] + [sep] + s[n + 1..];
    } else {
      assert pieces == [s];
    }
  }

  lemma {:induction false} FieldLengthOfPieceThen(p: string, rest: string, sep: char)
    requires sep !in p
    requires |rest| == 0 || rest[0] == sep
    ensures FieldLength(p + rest, sep) == |p|
    decreases |p|
  {
    if |p| > 0 {
      assert (p + rest)[1..] == p[1..] + rest;
      FieldLengthOfPieceThen(p[1..], rest, sep);
    }
  }

  /** Splitting separator-free pieces joined by the separator gives the pieces back. */
  lemma {:induction false} SplitOfJoin(pieces: seq<string>, sep: char)
    requires |pieces| > 0
    requires forall k :: 0 <= k < |pieces| ==> sep !in pieces[k]
    ensures Split(Join(pieces, sep), sep) == pieces
    decreases |pieces|
  {
    var p := pieces[0];
    if |pieces| == 1 {
      FieldLengthOfPieceThen(p, [], sep);
      assert p + [] == p;
    } else {
      var rest := Join(pieces[1..], sep);
      var s := p + [sep] + rest;
      assert s == p + ([sep] + rest);
      FieldLengthOfPieceThen(p, [sep] + rest, sep);
      assert s[..|p|] == p;
      assert s[|p| + 1..] == rest;
      SplitOfJoin(pieces[1..], sep);
      assert pieces == [p] + pieces[1..];
    }
  }

  /** Tokens joined by a separator that is not whitespace make one token. */
  lemma {:induction false} JoinIsToken(pieces: seq<string>, sep: char)
    requires |pieces| > 0 && !IsWhitespace(sep)
    requires forall k :: 0 <= k < |pieces| ==> IsToken(pieces[k])
    ensures IsToken(Join(pieces, sep))
    decreases |pieces|
  {
    if |pieces| > 1 {
      var p, tail := pieces[0], pieces[1..];
      assert forall k :: 0 <= k < |tail| ==> tail[k] == pieces[k + 1];
      JoinIsToken(tail, sep);
      var rest := Join(tail, sep);
      var j := Join(pieces, sep);
      assert j == p + [sep] + rest;
      forall i | 0 <= i < |j|
        ensures !IsWhitespace(j[i])
      {
        if i < |p| {
          assert j[i] == p[i];
        } else if i > |p| {
          assert j[i] == rest[i - |p| - 1];
        }
      }
    }
  }

  // ---------------------------------------------------------------------
  // contains, len
  // ---------------------------------------------------------------------

  /** `str::contains` with a string pattern: `needle` occurs in `hay` as a contiguous run. */
  function Contains(hay: string, needle: string): bool
    decreases |hay|
  {
    needle <= hay || (|hay| > 0 && Contains(hay[1..], needle))
  }

  /** `needle` occurs in `hay` starting at position `i`. */
  predicate OccursAt(hay: string, needle: string, i: int) {
    0 <= i && i + |needle| <= |hay| && hay[i..i + |needle|] == needle
  }

  /** Contains finds exactly the contiguous occurrences. */
  lemma {:induction false} ContainsIff(hay: string, needle: string)
    ensures Contains(hay, needle) <==> exists i :: OccursAt(hay, needle, i)
    decreases |hay|
  {
    if needle <= hay {
      assert OccursAt(hay, needle, 0);
    } else if |hay| > 0 {
      ContainsIff(hay[1..], needle);
      if Contains(hay[1..], needle) {
        var i :| OccursAt(hay[1..], needle, i);
        assert hay[1..][i..i + |needle|] == hay[i + 1..i + 1 + |needle|];
        assert OccursAt(hay, needle, i + 1);
      }
      if exists i :: OccursAt(hay, needle, i) {
        var i :| OccursAt(hay, needle, i);
        if i == 0 {
          assert false;
        }
        assert hay[1..][i - 1..i - 1 + |needle|] == hay[i..i + |needle|];
        assert OccursAt(hay[1..], needle, i - 1);
      }
    } else {
      assert forall i :: !OccursAt(hay, needle, i);
    }
  }

  /** A one-character pattern is found exactly when the character occurs. */
  lemma {:induction false} ContainsChar(hay: string, c: char)
    ensures Contains(hay, [c]) <==> c in hay
    decreases |hay|
  {
    if |hay| > 0 {
      ContainsChar(hay[1..], c);
      assert hay == [hay[0]] + hay[1..];
    }
  }

  /** The number of bytes of `c` in UTF-8. */
  function Utf8Width(c: char): nat {
    if c as int < 0x80 then 1
    else if c as int < 0x800 then 2
    else if c as int < 0x1_0000 then 3
    else 4
  }

  /** `str::len`: the length of `s` in UTF-8 bytes. */
  function Utf8Len(s: string): nat {
    if |s| == 0 then 0 else Utf8Width(s[0]) + Utf8Len(s[1..])
  }

  /** A string has at least as many bytes as characters, and as many exactly when it is ASCII. */
  lemma {:induction false} Utf8LenBounds(s: string)
    ensures Utf8Len(s) >= |s|
    ensures Utf8Len(s) == |s| <==> forall i :: 0 <= i < |s| ==> s[i] as int < 0x80
    decreases |s|
  {
    if |s| > 0 {
      Utf8LenBounds(s[1..]);
      if Utf8Len(s) == |s| {
        forall i | 0 <= i < |s| ensures s[i] as int < 0x80 {
          if i > 0 {
            assert s[i] == s[1..][i - 1];
          }
        }
      }
      if forall i :: 0 <= i < |s| ==> s[i] as int < 0x80 {
        assert forall i :: 0 <= i < |s| - 1 ==> s[1..][i] == s[i + 1];
      }
    }
  }

  // ---------------------------------------------------------------------
  // parse::<u16>
  // ---------------------------------------------------------------------

  /** The kinds of `ParseIntError` that `u16::from_str` produces. */
  datatype IntErrorKind = Empty | InvalidDigit | PosOverflow

  predicate IsDigit(c: char) {
    '0' <= c <= '9'
  }

  function DigitValue(c: char): nat
    requires IsDigit(c)
  {
    c as int - '0' as int
  }

  /**
    `u16::from_str`: an optional `+` (a lone sign is an invalid digit, and
    `-` is not accepted before an unsigned number), then decimal digits;
    each step multiplies by ten and adds the digit, a non-digit is reported
    when it is reached and a value above 65535 as an overflow.
  */
  function ParseU16(s: string): Result<U16, IntErrorKind> {
    if |s| == 0 then Failure(Empty)
    else if (s[0] == '+' || s[0] == '-') && |s| == 1 then Failure(InvalidDigit)
    else ParseDigits(if s[0] == '+' then s[1..] else s, 0)
  }

  function ParseDigits(digits: string, acc: U16): Result<U16, IntErrorKind>
    decreases |digits|
  {
    if |digits| == 0 then Success(acc)
    else if !IsDigit(digits[0]) then Failure(InvalidDigit)
    else
      var v := acc as int * 10 + DigitValue(digits[0]);
      if v > 0xFFFF then Failure(PosOverflow) else ParseDigits(digits[1..], v as U16)
  }

  function Pow10(n: nat): (p: nat)
    ensures p >= 1
  {
    if n == 0 then 1 else 10 * Pow10(n - 1)
  }

  predicate AllDigits(d: string) {
    forall i :: 0 <= i < |d| ==> IsDigit(d[i])
  }

  /** The number a string of decimal digits denotes. */
  function DecimalValue(d: string): nat
    requires AllDigits(d)
  {
    if |d| == 0 then 0 else DigitValue(d[0]) * Pow10(|d| - 1) + DecimalValue(d[1..])
  }

  /** The digits a parse reads: the string without a leading `+`. */
  function UnsignedDigits(s: string): string {
    if |s| > 0 && s[0] == '+' then s[1..] else s
  }

  /** Reading one more digit: the value of `c` then `rest` after `acc` is that of `rest` after `acc * 10 + c`. */
  lemma ShiftInDigit(acc: nat, c: nat, rest: nat, p: nat)
    requires p >= 1
    ensures acc * (10 * p) + (c * p + rest) == (acc * 10 + c) * p + rest
    ensures acc * 10 + c <= (acc * 10 + c) * p + rest
  {
    assert acc * (10 * p) == (acc * 10) * p;
    assert (acc * 10 + c) * p == acc * 10 * p + c * p;
  }

  /** The digit loop starting from `acc` succeeds when all are digits and the final value fits. */
  lemma {:induction false} ParseDigitsValue(d: string, acc: U16)
    ensures ParseDigits(d, acc).Success? <==>
      AllDigits(d) && acc as int * Pow10(|d|) + DecimalValue(d) <= 0xFFFF
    ensures ParseDigits(d, acc).Success? ==>
      ParseDigits(d, acc).value as int == acc as int * Pow10(|d|) + DecimalValue(d)
    decreases |d|
  {
    if |d| > 0 {
      var rest := d[1..];
      assert AllDigits(d) <==> IsDigit(d[0]) && AllDigits(rest) by {
        assert forall i :: 0 <= i < |rest| ==> rest[i] == d[i + 1];
      }
      if IsDigit(d[0]) {
        var v := acc as int * 10 + DigitValue(d[0]);
        if AllDigits(rest) {
          ShiftInDigit(acc as int, DigitValue(d[0]), DecimalValue(rest), Pow10(|rest|));
        }
        if v <= 0xFFFF {
          ParseDigitsValue(rest, v as U16);
        }
      }
    }
  }

  /**
    `parse::<u16>()` succeeds exactly on an optional `+` followed by one or
    more decimal digits denoting at most 65535, and yields that number.
  */
  lemma ParseU16Iff(s: string)
    ensures ParseU16(s).Success? <==>
      var d := UnsignedDigits(s);
      |d| > 0 && AllDigits(d) && DecimalValue(d) <= 0xFFFF
    ensures ParseU16(s).Success? ==> ParseU16(s).value as int == DecimalValue(UnsignedDigits(s))
  {
    if |s| > 0 && !((s[0] == '+' || s[0] == '-') && |s| == 1) {
      ParseDigitsValue(UnsignedDigits(s), 0);
    }
  }
}
