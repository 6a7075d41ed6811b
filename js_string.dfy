/** The JavaScript string operations the views rely on, with their ECMAScript
    semantics: `slice` with negative indices, `substring` with clamping and
    swapping, `includes`, `split` on a one-character separator, `trim`, the
    decimal text of an integer, and the string-to-BigInt conversion. */
module JsString {
  import opened Base

  // ---------------------------------------------------------------- whitespace

  /** The characters `String.prototype.trim` removes: WhiteSpace (TAB, VT, FF,
      SP, NBSP, ZWNBSP and the Unicode space separators) and LineTerminator. */
  predicate IsWhitespace(c: char)
  {
    || c == '\t' || c == '\U{000B}' || c == '\U{000C}' || c == ' ' || c == '\U{00A0}' || c == '\U{FEFF}'
    || c == '\U{1680}' || ('\U{2000}' <= c <= '\U{200A}') || c == '\U{202F}' || c == '\U{205F}' || c == '\U{3000}'
    || c == '\n' || c == '\r' || c == '\U{2028}' || c == '\U{2029}'
  }

  function TrimStart(s: string): (r: string)
    ensures |r| <= |s| && r == s[|s| - |r|..]
    ensures r == [] || !IsWhitespace(r[0])
    ensures forall i :: 0 <= i < |s| - |r| ==> IsWhitespace(s[i])
  {
    if |s| > 0 && IsWhitespace(s[0]) then TrimStart(s[1..]) else s
  }

  function TrimEnd(s: string): (r: string)
    ensures |r| <= |s| && r == s[..|r|]
    ensures r == [] || !IsWhitespace(r[|r| - 1])
    ensures forall i :: |r| <= i < |s| ==> IsWhitespace(s[i])
  {
    if |s| > 0 && IsWhitespace(s[|s| - 1]) then TrimEnd(s[..|s| - 1]) else s
  }

  /** `s.trim()`. */
  function Trim(s: string): string
  {
    TrimEnd(TrimStart(s))
  }

  /** The trimmed text is the piece of `s` that starts after its leading
      whitespace; only whitespace is cut off either side, and the result neither
      starts nor ends with whitespace. */
  lemma TrimShape(s: string)
    ensures var a, r := |s| - |TrimStart(s)|, Trim(s);
      && a + |r| <= |s| && r == s[a..a + |r|]
      && (forall i :: 0 <= i < a ==> IsWhitespace(s[i]))
      && (forall i :: a + |r| <= i < |s| ==> IsWhitespace(s[i]))
      && (r == [] || (!IsWhitespace(r[0]) && !IsWhitespace(r[|r| - 1])))
  {
    var t := TrimStart(s);
    var a := |s| - |t|;
    assert t == s[a..];
    var r := TrimEnd(t);
    assert Trim(s) == r;
    TrimEndOfSuffix(s, a);
    if |r| > 0 {
      assert r[0] == t[0];
      assert !IsWhitespace(t[0]);
      assert !IsWhitespace(r[|r| - 1]);
    }
  }

  /** Trimming the end of the suffix `s[a..]` keeps a piece of `s`, and what
      is cut off is whitespace of `s`. */
  lemma TrimEndOfSuffix(s: string, a: nat)
    requires a <= |s|
    ensures var r := TrimEnd(s[a..]);
      && a + |r| <= |s| && r == s[a..a + |r|]
      && (forall i :: a + |r| <= i < |s| ==> IsWhitespace(s[i]))
  {
    var t := s[a..];
    var r := TrimEnd(t);
    assert r == t[..|r|];
    forall i | a + |r| <= i < |s|
      ensures IsWhitespace(s[i])
    {
      assert s[i] == t[i - a];
    }
  }

  /** Text that neither starts nor ends with whitespace is left alone. */
  lemma TrimUnchanged(s: string)
    requires s == [] || (!IsWhitespace(s[0]) && !IsWhitespace(s[|s| - 1]))
    ensures Trim(s) == s
  {
  }

  /** Trimming twice is trimming once. */
  lemma TrimIdempotent(s: string)
    ensures Trim(Trim(s)) == Trim(s)
  {
    TrimShape(s);
    TrimUnchanged(Trim(s));
  }

  // ------------------------------------------------------------ slice, substring

  /** How `slice` resolves one index against a length: negatives count from the
      end, and the result is clamped to `0..len`. */
  function RelativeIndex(k: int, len: nat): (r: nat)
    ensures r <= len
  {
    if k < 0 then (if len + k < 0 then 0 else len + k) else (if k > len then len else k)
  }

  /** `s.slice(start, end)`. */
  function Slice(s: string, start: int, end: int): string
  {
    var from := RelativeIndex(start, |s|);
    var to := RelativeIndex(end, |s|);
    if from < to then s[from..to] else ""
  }

  /** `s.slice(start)`. */
  function SliceFrom(s: string, start: int): string
  {
    Slice(s, start, |s|)
  }

  function Min(a: int, b: int): int { if a < b then a else b }

  /** `s.slice(0, k)` is the first `k` characters, or all of `s` when it is shorter. */
  lemma SliceHead(s: string, k: nat)
    ensures Slice(s, 0, k) == s[..Min(k, |s|)]
  {
  }

  /** `s.slice(-k)` (with `k > 0`) is the last `k` characters, or all of `s` when it is shorter. */
  lemma SliceTail(s: string, k: int)
    requires k > 0
    ensures SliceFrom(s, -k) == s[|s| - Min(k, |s|)..]
  {
  }

  /** `s.slice(0, head) + "..." + s.slice(-tail)`: how an identifier is shortened
      for display. */
  function Abbreviate(s: string, head: nat, tail: nat): string
    requires tail > 0
  {
    Slice(s, 0, head) + "..." + SliceFrom(s, -(tail as int))
  }

  /** The shortened text is the first `head` and the last `tail` characters
      around "..."; a text shorter than `head + tail` shows overlapping (or
      whole) ends, so only long texts come out at the fixed width. */
  lemma AbbreviateShape(s: string, head: nat, tail: nat)
    requires tail > 0
    ensures Abbreviate(s, head, tail) == s[..Min(head, |s|)] + "..." + s[|s| - Min(tail, |s|)..]
    ensures |s| >= head + tail ==> |Abbreviate(s, head, tail)| == head + tail + 3
    ensures |s| >= head + tail ==>
      Abbreviate(s, head, tail)[..head] == s[..head] &&
      Abbreviate(s, head, tail)[head + 3..] == s[|s| - tail..]
  {
    SliceHead(s, head);
    SliceTail(s, tail);
  }

  /** `s.substring(start, end)`: both indices clamped to `0..|s|`, then swapped when
      the first is the larger. */
  function Substring(s: string, start: int, end: int): string
  {
    var a := if start < 0 then 0 else if start > |s| then |s| else start;
    var b := if end < 0 then 0 else if end > |s| then |s| else end;
    if a <= b then s[a..b] else s[b..a]
  }

  /** `s.substring(0, n)` is the longest prefix of `s` of at most `n` characters. */
  lemma SubstringPrefix(s: string, n: nat)
    ensures var r := Substring(s, 0, n);
      |r| == Min(n, |s|) && r == s[..|r|]
  {
  }

  // ------------------------------------------------------------------ includes

  /** `s.includes(sub)`. */
  predicate Includes(s: string, sub: string)
    decreases |s|
  {
    |sub| <= |s| && (s[..|sub|] == sub || Includes(s[1..], sub))
  }

  /** `sub` occurs in `s` starting at index `i`. */
  predicate OccursAt(s: string, sub: string, i: int)
  {
    0 <= i <= |s| - |sub| && s[i..i + |sub|] == sub
  }

  /** `includes` holds exactly when `sub` occurs at some position of `s`. */
  lemma {:induction false} IncludesIffOccurs(s: string, sub: string)
    ensures Includes(s, sub) <==> exists i :: OccursAt(s, sub, i)
    decreases |s|
  {
    if |sub| <= |s| {
      if s[..|sub|] == sub {
        assert OccursAt(s, sub, 0);
      } else {
        IncludesIffOccurs(s[1..], sub);
        if Includes(s[1..], sub) {
          var i :| OccursAt(s[1..], sub, i);
          assert s[i + 1..i + 1 + |sub|] == s[1..][i..i + |sub|];
          assert OccursAt(s, sub, i + 1);
        }
        if exists i :: OccursAt(s, sub, i) {
          var i :| OccursAt(s, sub, i);
          assert i != 0;
          assert s[1..][i - 1..i - 1 + |sub|] == s[i..i + |sub|];
          assert OccursAt(s[1..], sub, i - 1);
        }
      }
    }
  }

  /** A text contains whatever is written inside it. */
  lemma IncludesInfix(a: string, sub: string, b: string)
    ensures Includes(a + sub + b, sub)
  {
    var s := a + sub + b;
    assert s[|a|..|a| + |sub|] == sub;
    assert OccursAt(s, sub, |a|);
    IncludesIffOccurs(s, sub);
  }

  /** A text that contains `sub` contains its first character. */
  lemma IncludesFirstChar(s: string, sub: string)
    requires |sub| > 0 && Includes(s, sub)
    ensures sub[0] in s
  {
    IncludesIffOccurs(s, sub);
    var i :| OccursAt(s, sub, i);
    assert s[i] == s[i..i + |sub|][0];
  }

  // --------------------------------------------------------------------- split

  /** The number of occurrences of `c` in `s`. */
  function Count(s: string, c: char): nat
  {
    if |s| == 0 then 0 else (if s[0] == c then 1 else 0) + Count(s[1..], c)
  }

  /** `s.split(sep)` for a one-character separator: the pieces between the
      separators, so there is always one more piece than separators and no piece
      contains the separator; the empty string splits into one empty piece. */
  function Split(s: string, sep: char): (r: seq<string>)
    ensures |r| == Count(s, sep) + 1
    ensures forall i :: 0 <= i < |r| ==> sep !in r[i]
  {
    if |s| == 0 then [""]
    else
      var rest := Split(s[1..], sep);
      if s[0] == sep then [""] + rest
      else [[s[0]] + rest[0]] + rest[1..]
  }

  /** A text holding the separator splits into at least two pieces. */
  lemma {:induction false} SplitAtSeparator(s: string, sep: char)
    requires sep in s
    ensures |Split(s, sep)| >= 2
  {
    if s[0] != sep {
      assert sep in s[1..];
      SplitAtSeparator(s[1..], sep);
    }
  }

  /** The text before the first separator is the first piece, and the pieces
      after it are those of the rest. */
  lemma {:induction false} SplitCons(p: string, sep: char, t: string)
    requires sep !in p
    ensures Split(p + [sep] + t, sep) == [p] + Split(t, sep)
  {
    var s := p + [sep] + t;
    if |p| == 0 {
      assert s[1..] == t;
    } else {
      assert s[1..] == p[1..] + [sep] + t;
      SplitCons(p[1..], sep, t);
      assert [p[0]] + p[1..] == p;
    }
  }

  /** `parts.join(sep)`. */
  function Join(parts: seq<string>, sep: char): string
  {
    if |parts| == 0 then ""
    else if |parts| == 1 then parts[0]
    else parts[0] + [sep] + Join(parts[1..], sep)
  }

  /** Joining the pieces back with the separator gives the original text. */
  lemma {:induction false} JoinSplit(s: string, sep: char)
    ensures Join(Split(s, sep), sep) == s
  {
    if |s| > 0 {
      var rest := Split(s[1..], sep);
      JoinSplit(s[1..], sep);
      if s[0] == sep {
        assert Split(s, sep) == [""] + rest;
        assert ([""] + rest)[1..] == rest;
      } else {
        var r := Split(s, sep);
        assert r == [[s[0]] + rest[0]] + rest[1..];
        if |rest| == 1 {
          assert Join(r, sep) == [s[0]] + rest[0];
        } else {
          assert r[1..] == rest[1..];
          assert Join(r, sep) == [s[0]] + rest[0] + [sep] + Join(rest[1..], sep);
          assert Join(rest, sep) == rest[0] + [sep] + Join(rest[1..], sep);
        }
      }
    }
  }

  /** Splitting a join of separator-free pieces gives the pieces back. */
  lemma {:induction false} SplitJoin(parts: seq<string>, sep: char)
    requires |parts| >= 1
    requires forall i :: 0 <= i < |parts| ==> sep !in parts[i]
    ensures Split(Join(parts, sep), sep) == parts
    decreases |parts|, |parts[0]|
  {
    var p := parts[0];
    if |p| == 0 {
      if |parts| > 1 {
        var tail := Join(parts[1..], sep);
        assert Join(parts, sep) == [sep] + tail;
        assert ([sep] + tail)[1..] == tail;
        SplitJoin(parts[1..], sep);
      }
    } else {
      var shorter := [p[1..]] + parts[1..];
      assert shorter[1..] == parts[1..];
      assert forall i :: 0 <= i < |shorter| ==> sep !in shorter[i] by {
        assert forall i :: 1 <= i < |shorter| ==> shorter[i] == parts[i];
      }
      SplitJoin(shorter, sep);
      var whole := Join(parts, sep);
      assert whole[0] == p[0] && p[0] != sep;
      if |parts| == 1 {
        assert whole[1..] == Join(shorter, sep);
      } else {
        assert whole == [p[0]] + (p[1..] + [sep] + Join(parts[1..], sep));
        assert whole[1..] == Join(shorter, sep);
      }
      assert [p[0]] + p[1..] == p;
      assert [[p[0]] + p[1..]] + parts[1..] == parts;
    }
  }

  // ------------------------------------------------------- integers as text

  predicate IsDigit(c: char) { '0' <= c <= '9' }

  predicate AllDigits(s: string) { forall i :: 0 <= i < |s| ==> IsDigit(s[i]) }

  function DigitChar(d: nat): (c: char)
    requires d < 10
    ensures IsDigit(c) && c as int - '0' as int == d
  {
    ('0' as int + d) as char
  }

  /** The value of a run of decimal digits (the empty run is 0). */
  function DigitsValue(s: string): nat
    requires AllDigits(s)
  {
    if |s| == 0 then 0 else 10 * DigitsValue(s[..|s| - 1]) + (s[|s| - 1] as int - '0' as int)
  }

  /** The decimal text of a natural number, without leading zeros. */
  function NatToString(n: nat): (r: string)
    ensures |r| >= 1 && AllDigits(r)
    ensures DigitsValue(r) == n
  {
    if n < 10 then [DigitChar(n)]
    else
      var r := NatToString(n / 10) + [DigitChar(n % 10)];
      assert r[..|r| - 1] == NatToString(n / 10);
      r
  }

  /** `String(n)` for an integer (a JS integral number or a BigInt). */
  function IntToString(n: int): string
  {
    if n < 0 then "-" + NatToString(-n) else NatToString(n)
  }

  /** `BigInt(text)`: surrounding whitespace is ignored, the empty text is 0, and
      otherwise the text must be an optionally signed run of decimal digits; any
      other text makes `BigInt` throw, which is `None` here. */
  function ParseBigInt(text: string): Option<int>
  {
    var t := Trim(text);
    if t == "" then Some(0)
    else if (t[0] == '-' || t[0] == '+') && |t| > 1 && AllDigits(t[1..]) then
      Some(if t[0] == '-' then -(DigitsValue(t[1..]) as int) else DigitsValue(t[1..]))
    else if AllDigits(t) then Some(DigitsValue(t))
    else None
  }

  /** The decimal text of any integer converts back to that integer. */
  lemma IntTextRoundTrip(n: int)
    ensures ParseBigInt(IntToString(n)) == Some(n)
  {
    var s := IntToString(n);
    assert s != [] && !IsWhitespace(s[0]) && !IsWhitespace(s[|s| - 1]);
    TrimUnchanged(s);
    if n < 0 {
      assert s[1..] == NatToString(-n);
    }
  }
}
