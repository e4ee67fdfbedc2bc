/**
 * The .NET string operations the core relies on. A .NET string is a sequence of UTF-16
 * code units; here it is a sequence of Dafny `char`s (Unicode scalar values), so lengths
 * and offsets agree with .NET for text inside the Basic Multilingual Plane.
 */
module Text {
  import opened Wrappers
  import opened Sequences

  /** `char.IsWhiteSpace`: the Unicode space, line and paragraph separators plus U+0009..U+000D and U+0085. */
  predicate IsWhiteSpace(c: char)
  {
    ('\U{9}' <= c <= '\U{D}') || c == ' ' || c == '\U{85}' || c == '\U{A0}' || c == '\U{1680}'
    || ('\U{2000}' <= c <= '\U{200A}') || c == '\U{2028}' || c == '\U{2029}' || c == '\U{202F}'
    || c == '\U{205F}' || c == '\U{3000}'
  }

  /** `string.TrimStart()`: drops the leading white space and nothing else. */
  function TrimStart(s: string): (r: string)
    ensures |r| <= |s| && r == s[|s| - |r|..]
    ensures r == [] || !IsWhiteSpace(r[0])
    ensures forall i :: 0 <= i < |s| - |r| ==> IsWhiteSpace(s[i])
  {
    if s != [] && IsWhiteSpace(s[0]) then TrimStart(s[1..]) else s
  }

  /** `string.TrimEnd()`: drops the trailing white space and nothing else. */
  function TrimEnd(s: string): (r: string)
    ensures |r| <= |s| && r == s[..|r|]
    ensures r == [] || !IsWhiteSpace(r[|r| - 1])
    ensures forall i :: |r| <= i < |s| ==> IsWhiteSpace(s[i])
  {
    if s != [] && IsWhiteSpace(s[|s| - 1]) then TrimEnd(s[..|s| - 1]) else s
  }

  /**
   * `string.Trim()`: a prefix of `TrimStart(s)` (itself a suffix of `s` with only white
   * space dropped before it), with only white space dropped after it.
   */
  function Trim(s: string): (r: string)
    ensures |r| <= |TrimStart(s)| <= |s| && r == TrimStart(s)[..|r|]
    ensures forall i :: |r| <= i < |TrimStart(s)| ==> IsWhiteSpace(TrimStart(s)[i])
    ensures r == [] || (!IsWhiteSpace(r[0]) && !IsWhiteSpace(r[|r| - 1]))
  {
    TrimEnd(TrimStart(s))
  }

  /** `string.IsNullOrWhiteSpace`. */
  predicate IsNullOrWhiteSpace(s: Option<string>)
  {
    s.None? || forall i | 0 <= i < |s.value| :: IsWhiteSpace(s.value[i])
  }

  /** A string is blank exactly when trimming leaves nothing of it. */
  lemma BlankIffTrimmedAway(s: string)
    ensures IsNullOrWhiteSpace(Some(s)) <==> Trim(s) == []
  {
  }

  /** Whether `part` starts at offset `i` of `s`. */
  predicate OccursAt(s: string, part: string, i: int)
  {
    0 <= i <= |s| - |part| && s[i..i + |part|] == part
  }

  /** The middle part of a concatenation occurs right after the first. */
  lemma OccursBetween(x: string, y: string, z: string)
    ensures OccursAt(x + y + z, y, |x|)
  {
    assert (x + y + z)[|x|..|x| + |y|] == y;
  }

  /** Whether `part` occurs in `s` (`string.Contains`). */
  predicate Contains(s: string, part: string)
    decreases |s|
  {
    |part| <= |s| && (s[..|part|] == part || Contains(s[1..], part))
  }

  /** `Contains` holds exactly when `part` occurs at some offset. */
  lemma {:induction false} ContainsIffOccurs(s: string, part: string)
    ensures Contains(s, part) <==> exists i :: OccursAt(s, part, i)
    decreases |s|
  {
    if |part| <= |s| && s[..|part|] != part {
      ContainsIffOccurs(s[1..], part);
      if exists i :: OccursAt(s, part, i) {
        var i :| OccursAt(s, part, i);
        assert i != 0;
        assert OccursAt(s[1..], part, i - 1);
      }
      if exists i :: OccursAt(s[1..], part, i) {
        var i :| OccursAt(s[1..], part, i);
        assert OccursAt(s, part, i + 1);
      }
    } else if |part| <= |s| {
      assert OccursAt(s, part, 0);
    }
  }

  /** `s.Length > limit ? s.Substring(0, limit) + "..." : s`, the truncation used for titles and snippets. */
  function Truncate(s: string, limit: nat): (r: string)
    ensures |r| <= limit + 3
    ensures |s| <= limit ==> r == s
    ensures |s| > limit ==> |r| == limit + 3 && r[limit..] == "..."
    ensures r[..Min(|s|, limit)] == s[..Min(|s|, limit)]
  {
    if |s| > limit then s[..limit] + "..." else s
  }

  /** The number a string of decimal digits denotes, most significant digit first. */
  function DecimalValue(digits: string): nat
    requires forall i :: 0 <= i < |digits| ==> '0' <= digits[i] <= '9'
    decreases |digits|
  {
    if digits == [] then 0
    else 10 * DecimalValue(digits[..|digits| - 1]) + (digits[|digits| - 1] - '0') as nat
  }

  /** Decimal rendering of a natural number, as string interpolation prints an `int`: no leading zero. */
  function NatToString(n: nat): (r: string)
    ensures r != [] && forall i :: 0 <= i < |r| ==> '0' <= r[i] <= '9'
    ensures DecimalValue(r) == n
    ensures r[0] == '0' ==> r == "0"
  {
    var digit := ['0' + (n % 10) as char];
    if n < 10 then digit else NatToString(n / 10) + digit
  }

  lemma {:induction false} TrimStartAppend(s: string, x: string)
    requires TrimStart(s) != []
    ensures TrimStart(s + x) == TrimStart(s) + x
  {
    if s != [] && IsWhiteSpace(s[0]) {
      assert (s + x)[1..] == s[1..] + x;
      TrimStartAppend(s[1..], x);
    }
  }

  lemma {:induction false} TrimEndPrefix(a: string, y: string)
    ensures TrimEnd(a) <= TrimEnd(a + y)
    decreases |y|
  {
    if y != [] {
      if IsWhiteSpace(y[|y| - 1]) {
        assert (a + y)[..|a + y| - 1] == a + y[..|y| - 1];
        TrimEndPrefix(a, y[..|y| - 1]);
      }
    } else {
      assert a + y == a;
    }
  }

  /** Appending text to a string never changes the trimmed form of what was there, except by extending it. */
  lemma TrimPrefix(s: string, x: string)
    ensures Trim(s) <= Trim(s + x)
  {
    if TrimStart(s) != [] {
      TrimStartAppend(s, x);
      TrimEndPrefix(TrimStart(s), x);
    }
  }

  /** Trimming a string that ends in white space removes at least one character. */
  lemma TrimDropsTrailingWhiteSpace(s: string)
    requires s != [] && IsWhiteSpace(s[|s| - 1])
    ensures |Trim(s)| < |s|
  {
  }

  /** The characters of `s` that are not white space, in order. */
  function Squeeze(s: string): (r: string)
    ensures |r| <= |s|
    ensures forall i :: 0 <= i < |r| ==> !IsWhiteSpace(r[i])
    decreases |s|
  {
    if s == [] then []
    else Squeeze(s[..|s| - 1]) + (if IsWhiteSpace(s[|s| - 1]) then [] else [s[|s| - 1]])
  }

  lemma {:induction false} SqueezeAppend(a: string, b: string)
    ensures Squeeze(a + b) == Squeeze(a) + Squeeze(b)
    decreases |b|
  {
    if b == [] {
      assert a + b == a;
    } else {
      assert (a + b)[..|a + b| - 1] == a + b[..|b| - 1];
      SqueezeAppend(a, b[..|b| - 1]);
    }
  }

  /** White space alone squeezes to nothing. */
  lemma {:induction false} SqueezeBlank(s: string)
    requires forall i :: 0 <= i < |s| ==> IsWhiteSpace(s[i])
    ensures Squeeze(s) == []
    decreases |s|
  {
    if s != [] {
      SqueezeBlank(s[..|s| - 1]);
    }
  }

  /** `TrimStart` removes white space only. */
  lemma SqueezeTrimStart(s: string)
    ensures Squeeze(TrimStart(s)) == Squeeze(s)
  {
    var k := |s| - |TrimStart(s)|;
    assert s == s[..k] + TrimStart(s);
    SqueezeAppend(s[..k], TrimStart(s));
    SqueezeBlank(s[..k]);
  }

  /** White space at the end of a string does not change its squeeze. */
  lemma {:induction false} SqueezeBlankTail(s: string, blank: string)
    requires forall i :: 0 <= i < |blank| ==> IsWhiteSpace(blank[i])
    ensures Squeeze(s + blank) == Squeeze(s)
    decreases |blank|
  {
    if blank == [] {
      assert s + blank == s;
    } else {
      assert (s + blank)[..|s + blank| - 1] == s + blank[..|blank| - 1];
      SqueezeBlankTail(s, blank[..|blank| - 1]);
    }
  }

  /** `TrimEnd` removes white space only. */
  lemma SqueezeTrimEnd(t: string)
    ensures Squeeze(TrimEnd(t)) == Squeeze(t)
  {
    var r := TrimEnd(t);
    var blank := t[|r|..];
    assert t == r + blank;
    forall i | 0 <= i < |blank|
      ensures IsWhiteSpace(blank[i])
    {
      assert blank[i] == t[|r| + i];
    }
    SqueezeBlankTail(r, blank);
  }

  /** `Trim` removes white space only. */
  lemma SqueezeTrim(s: string)
    ensures Squeeze(Trim(s)) == Squeeze(s)
  {
    SqueezeTrimStart(s);
    SqueezeTrimEnd(TrimStart(s));
  }

  /** Text with a separator of white space in the middle squeezes to the squeezes of the two sides. */
  lemma SqueezeAround(a: string, sep: string, b: string)
    requires forall i :: 0 <= i < |sep| ==> IsWhiteSpace(sep[i])
    ensures Squeeze(a + sep + b) == Squeeze(a) + Squeeze(b)
  {
    SqueezeAppend(a + sep, b);
    SqueezeBlankTail(a, sep);
  }

  /** Moving a piece from the front of `after` to the end of `written`, and trimming what is left, loses only white space. */
  lemma SqueezeRegroup(written: string, piece: string, after: string)
    ensures Squeeze(written + piece) + Squeeze(TrimStart(after)) == Squeeze(written) + Squeeze(piece + after)
  {
    SqueezeTrimStart(after);
    SqueezeAppend(piece, after);
    SqueezeAppend(written, piece);
    AppendAssoc(Squeeze(written), Squeeze(piece), Squeeze(after));
  }
}
