/**
  The few Python string operations the bot relies on, stated over `string`
  (a sequence of Unicode scalar values, as Python's `str` is a sequence of
  code points): `str.split` on one character, `str.join`, the substring test
  `needle in s`, `str(n)` for integers, `int(text)`, `str.strip()` and
  `str.lower()` (ASCII letters only).
*/
module PyText {
  import opened Wrappers

  // ---------------------------------------------------------------------------
  // split / join
  // ---------------------------------------------------------------------------

  /** `s.split(sep)`: the pieces between occurrences of `sep`, empty pieces kept. */
  function Split(s: string, sep: char): (parts: seq<string>)
    ensures |parts| >= 1
    ensures forall i :: 0 <= i < |parts| ==> sep !in parts[i]
    decreases |s|
  {
    if |s| == 0 then [""]
    else
      var rest := Split(s[1..], sep);
      if s[0] == sep then [""] + rest
      else [[s[0]] + rest[0]] + rest[1..]
  }

  /** `sep.join(parts)`. */
  function Join(sep: string, parts: seq<string>): string
    decreases |parts|
  {
    if |parts| == 0 then ""
    else if |parts| == 1 then parts[0]
    else parts[0] + sep + Join(sep, parts[1..])
  }

  /** Splitting and joining again on the same separator gives back the text. */
  lemma {:induction false} JoinSplit(s: string, sep: char)
    ensures Join([sep], Split(s, sep)) == s
    decreases |s|
  {
    if |s| > 0 {
      var rest := Split(s[1..], sep);
      JoinSplit(s[1..], sep);
      if s[0] == sep {
        assert Split(s, sep) == [""] + rest;
        calc {
          Join([sep], Split(s, sep));
          "" + [sep] + Join([sep], rest);
          { assert s == [s[0]] + s[1..]; }
          s;
        }
      } else {
        var parts := [[s[0]] + rest[0]] + rest[1..];
        assert Split(s, sep) == parts;
        if |rest| == 1 {
          assert Join([sep], parts) == [s[0]] + rest[0];
          assert s == [s[0]] + s[1..];
        } else {
          assert parts[1..] == rest[1..];
          assert Join([sep], rest) == rest[0] + [sep] + Join([sep], rest[1..]);
          assert Join([sep], parts) == [s[0]] + rest[0] + [sep] + Join([sep], rest[1..]);
          assert s == [s[0]] + s[1..];
        }
      }
    }
  }

  /** When `sep` does not occur in `a`, the first piece of `a + sep + b` is `a`
      and the remaining pieces are those of `b`. */
  lemma {:induction false} SplitAtFirst(a: string, sep: char, b: string)
    requires sep !in a
    ensures Split(a + [sep] + b, sep) == [a] + Split(b, sep)
    decreases |a|
  {
    if |a| == 0 {
      assert a + [sep] + b == [sep] + b;
      assert ([sep] + b)[1..] == b;
    } else {
      var s := a + [sep] + b;
      assert s[0] == a[0];
      assert s[1..] == a[1..] + [sep] + b;
      SplitAtFirst(a[1..], sep, b);
      assert [a[0]] + a[1..] == a;
    }
  }

  /** Two leading pieces without `sep`, each followed by `sep`, split off in order. */
  lemma SplitTwoPieces(a: string, b: string, sep: char, tail: string)
    requires sep !in a && sep !in b
    ensures Split(a + [sep] + b + [sep] + tail, sep) == [a, b] + Split(tail, sep)
  {
    assert a + [sep] + b + [sep] + tail == a + [sep] + (b + [sep] + tail);
    SplitAtFirst(a, sep, b + [sep] + tail);
    SplitAtFirst(b, sep, tail);
  }

  /** A leading run without `sep` stays at the head of the first piece. */
  lemma {:induction false} SplitFirstPiece(a: string, sep: char, b: string)
    requires sep !in a
    ensures Split(a + b, sep)[0] == a + Split(b, sep)[0]
    decreases |a|
  {
    if |a| > 0 {
      var s := a + b;
      assert s[0] == a[0] && s[0] != sep && s[1..] == a[1..] + b;
      assert Split(s, sep)[0] == [a[0]] + Split(a[1..] + b, sep)[0];
      SplitFirstPiece(a[1..], sep, b);
      assert [a[0]] + (a[1..] + Split(b, sep)[0]) == ([a[0]] + a[1..]) + Split(b, sep)[0];
      assert [a[0]] + a[1..] == a;
    } else {
      assert a + b == b;
    }
  }

  /** Joining pieces that do not contain `sep` and splitting again gives back
      the pieces. */
  lemma {:induction false} SplitJoin(parts: seq<string>, sep: char)
    requires |parts| >= 1
    requires forall i :: 0 <= i < |parts| ==> sep !in parts[i]
    ensures Split(Join([sep], parts), sep) == parts
    decreases |parts|
  {
    if |parts| == 1 {
      SplitNoSeparator(parts[0], sep);
    } else {
      SplitJoin(parts[1..], sep);
      SplitAtFirst(parts[0], sep, Join([sep], parts[1..]));
      assert [parts[0]] + parts[1..] == parts;
    }
  }

  /** A text without `sep` splits into itself alone. */
  lemma {:induction false} SplitNoSeparator(s: string, sep: char)
    requires sep !in s
    ensures Split(s, sep) == [s]
    decreases |s|
  {
    if |s| > 0 {
      assert sep !in s[1..];
      SplitNoSeparator(s[1..], sep);
      assert [s[0]] + s[1..] == s;
    }
  }

  // ---------------------------------------------------------------------------
  // substring test `needle in s`
  // ---------------------------------------------------------------------------

  predicate StartsWith(s: string, prefix: string)
  {
    |prefix| <= |s| && s[..|prefix|] == prefix
  }

  /** Python's `needle in s` on two strings. */
  predicate Contains(s: string, needle: string)
    decreases |s|
  {
    StartsWith(s, needle) || (|s| > 0 && Contains(s[1..], needle))
  }

  /** `needle` occurs in `s` starting at position `i`. */
  predicate OccursAt(s: string, needle: string, i: int)
  {
    0 <= i <= |s| - |needle| && s[i..i + |needle|] == needle
  }

  /** `needle in s` holds exactly when `needle` occurs at some position of `s`. */
  lemma {:induction false} ContainsAt(s: string, needle: string)
    ensures Contains(s, needle) <==> exists i :: OccursAt(s, needle, i)
    decreases |s|
  {
    if StartsWith(s, needle) {
      assert OccursAt(s, needle, 0);
    }
    if |s| > 0 {
      ContainsAt(s[1..], needle);
      if Contains(s[1..], needle) {
        var i :| OccursAt(s[1..], needle, i);
        assert OccursAt(s, needle, i + 1);
      }
      if exists i :: OccursAt(s, needle, i) {
        var i :| OccursAt(s, needle, i);
        if i > 0 {
          assert OccursAt(s[1..], needle, i - 1);
        } else {
          assert StartsWith(s, needle);
        }
      }
    } else {
      if exists i :: OccursAt(s, needle, i) {
        var i :| OccursAt(s, needle, i);
        assert StartsWith(s, needle);
      }
    }
  }

  /** For a one-character needle the substring test is plain membership. */
  lemma {:induction false} ContainsChar(s: string, c: char)
    ensures Contains(s, [c]) <==> c in s
    decreases |s|
  {
    if |s| > 0 {
      ContainsChar(s[1..], c);
      assert StartsWith(s, [c]) <==> s[0] == c;
      assert c in s <==> s[0] == c || c in s[1..];
    }
  }

  // ---------------------------------------------------------------------------
  // str(n) and int(text)
  // ---------------------------------------------------------------------------

  predicate IsDigit(c: char)
  {
    '0' <= c <= '9'
  }

  predicate AllDigits(s: string)
  {
    forall i :: 0 <= i < |s| ==> IsDigit(s[i])
  }

  function DigitChar(d: nat): (c: char)
    requires d < 10
    ensures IsDigit(c) && c as int - '0' as int == d
  {
    ('0' as int + d) as char
  }

  /** The decimal digits of `n`, most significant first, without leading zeros. */
  function Decimal(n: nat): (s: string)
    ensures |s| >= 1 && AllDigits(s)
    ensures |s| > 1 ==> s[0] != '0'
    decreases n
  {
    if n < 10 then [DigitChar(n)] else Decimal(n / 10) + [DigitChar(n % 10)]
  }

  /** `str(n)` / `f"{n}"` for a Python `int`. */
  function FormatInt(n: int): (s: string)
    ensures |s| >= 1
    ensures AllDigits(s) <==> n >= 0
  {
    if n < 0 then
      var r := "-" + Decimal(-n);
      assert r[0] == '-' && !IsDigit(r[0]);
      r
    else Decimal(n)
  }

  /** `str(n)` is made of digits and, for a negative number, a leading minus. */
  lemma FormatIntChars(n: int, c: char)
    requires c != '-' && !IsDigit(c)
    ensures c !in FormatInt(n)
  {
    if n < 0 {
      assert FormatInt(n) == "-" + Decimal(-n);
    }
  }

  /** The value of a run of decimal digits. */
  function DigitsValue(s: string): nat
    requires AllDigits(s)
    decreases |s|
  {
    if |s| == 0 then 0
    else DigitsValue(s[..|s| - 1]) * 10 + (s[|s| - 1] as int - '0' as int)
  }

  lemma {:induction false} DigitsValueDecimal(n: nat)
    ensures DigitsValue(Decimal(n)) == n
    decreases n
  {
    if n >= 10 {
      DigitsValueDecimal(n / 10);
      var s := Decimal(n);
      assert s[..|s| - 1] == Decimal(n / 10);
    }
  }

  /** The whitespace `str.strip()` and `int()` remove: Python's `str.isspace`,
      that is the ASCII controls 9-13 and 28-31, the space, U+0085, and the
      Unicode space and line/paragraph separators. */
  predicate IsSpace(c: char)
  {
    || '\U{0009}' <= c <= '\U{000D}'
    || '\U{001C}' <= c <= '\U{0020}'
    || c == '\U{0085}' || c == '\U{00A0}' || c == '\U{1680}'
    || '\U{2000}' <= c <= '\U{200A}'
    || c == '\U{2028}' || c == '\U{2029}' || c == '\U{202F}' || c == '\U{205F}' || c == '\U{3000}'
  }

  function StripStart(s: string): (r: string)
    ensures |r| <= |s| && r == s[|s| - |r|..]
    ensures |r| > 0 ==> !IsSpace(r[0])
    decreases |s|
  {
    if |s| > 0 && IsSpace(s[0]) then StripStart(s[1..]) else s
  }

  function StripEnd(s: string): (r: string)
    ensures |r| <= |s| && r == s[..|r|]
    ensures |r| > 0 ==> !IsSpace(r[|r| - 1])
    decreases |s|
  {
    if |s| > 0 && IsSpace(s[|s| - 1]) then StripEnd(s[..|s| - 1]) else s
  }

  /** `s.strip()`. */
  function Strip(s: string): string
  {
    StripEnd(StripStart(s))
  }

  /** `int(text)` for base-10 text: surrounding whitespace, an optional sign and
      at least one ASCII digit; anything else raises `ValueError`, here `None`. */
  function ParseInt(text: string): Option<int>
  {
    var t := Strip(text);
    if |t| > 0 && (t[0] == '-' || t[0] == '+') then
      var digits := t[1..];
      if |digits| > 0 && AllDigits(digits) then
        Some(if t[0] == '-' then -(DigitsValue(digits) as int) else DigitsValue(digits))
      else None
    else if |t| > 0 && AllDigits(t) then Some(DigitsValue(t))
    else None
  }

  /** The stripped text is a slice of the text. */
  lemma StripInside(s: string) returns (k: nat)
    ensures k + |Strip(s)| <= |s| && s[k..k + |Strip(s)|] == Strip(s)
  {
    var r := StripStart(s);
    k := |s| - |r|;
    assert r == s[k..];
    var t := StripEnd(r);
    assert t == r[..|t|];
  }

  /** A parse succeeds only on text that holds a digit. */
  lemma ParseIntNeedsDigit(text: string)
    ensures ParseInt(text).Some? ==> exists i :: 0 <= i < |text| && IsDigit(text[i])
  {
    var t := Strip(text);
    var k := StripInside(text);
    if ParseInt(text).Some? {
      if t[0] == '-' || t[0] == '+' {
        assert t[1..][0] == t[1];
        assert text[k + 1] == t[1];
      } else {
        assert text[k] == t[0];
      }
    }
  }

  lemma StripUnpadded(s: string)
    requires |s| > 0 && !IsSpace(s[0]) && !IsSpace(s[|s| - 1])
    ensures Strip(s) == s
  {
    assert StripStart(s) == s;
  }

  /** Formatting an integer and parsing it back gives the same integer. */
  lemma {:induction false} ParseFormatInt(n: int)
    ensures ParseInt(FormatInt(n)) == Some(n)
  {
    var s := FormatInt(n);
    StripUnpadded(s);
    if n < 0 {
      var d := Decimal(-n);
      assert s == "-" + d && s[1..] == d;
      DigitsValueDecimal(-n);
    } else {
      assert s[0] != '-' && s[0] != '+';
      DigitsValueDecimal(n);
    }
  }

  // ---------------------------------------------------------------------------
  // lower()
  // ---------------------------------------------------------------------------

  function LowerChar(c: char): char
  {
    if 'A' <= c <= 'Z' then (c as int - 'A' as int + 'a' as int) as char else c
  }

  /** `s.lower()` restricted to ASCII letters; every other character is kept. */
  function Lower(s: string): (r: string)
    ensures |r| == |s|
    ensures forall i :: 0 <= i < |s| ==> r[i] == LowerChar(s[i])
  {
    seq(|s|, i requires 0 <= i < |s| => LowerChar(s[i]))
  }
}
