/**
 * The string operations the core relies on: ASCII lower-casing (`toLowerCase`),
 * substring search (`includes`), prefix test (`startsWith`), `Array.prototype.join`
 * and its inverse `String.prototype.split` for a one-character separator, and the
 * decimal rendering of numbers (`toString`, `toFixed(2)` over exact minor units).
 */
module Text {

  // ---------------------------------------------------------------------------
  // Case folding

  function LowerChar(c: char): char
  {
    if 'A' <= c <= 'Z' then (c as int + 32) as char else c
  }

  /** `s.toLowerCase()`, restricted to ASCII letters. */
  function Lower(s: string): (r: string)
    ensures |r| == |s|
    ensures forall i :: 0 <= i < |s| ==> r[i] == LowerChar(s[i])
  {
    if s == [] then [] else [LowerChar(s[0])] + Lower(s[1..])
  }

  // ---------------------------------------------------------------------------
  // Prefixes and substrings

  /** `s.startsWith(prefix)`. */
  predicate StartsWith(s: string, prefix: string)
  {
    |prefix| <= |s| && s[..|prefix|] == prefix
  }

  /** `needle` occurs in `hay` at position `i`. */
  ghost predicate OccursAt(hay: string, needle: string, i: int)
  {
    0 <= i && i + |needle| <= |hay| && hay[i..i + |needle|] == needle
  }

  /** `needle` occurs somewhere in `hay`. */
  ghost predicate Occurs(hay: string, needle: string)
  {
    exists i :: OccursAt(hay, needle, i)
  }

  /** `hay.includes(needle)`: a scan from the left, one start position at a time. */
  predicate Contains(hay: string, needle: string)
    decreases |hay|
  {
    StartsWith(hay, needle) || (hay != [] && Contains(hay[1..], needle))
  }

  /** An occurrence in the tail is an occurrence one position further on. */
  lemma OccursInTail(hay: string, needle: string, j: int)
    requires hay != [] && OccursAt(hay[1..], needle, j)
    ensures OccursAt(hay, needle, j + 1)
  {
    var inHay, inTail := hay[j + 1..j + 1 + |needle|], hay[1..][j..j + |needle|];
    forall t | 0 <= t < |needle| ensures inHay[t] == inTail[t] {
    }
    assert inHay == inTail;
  }

  /** An occurrence past the first position is an occurrence in the tail. */
  lemma OccursPastHead(hay: string, needle: string, i: int)
    requires OccursAt(hay, needle, i) && i >= 1
    ensures OccursAt(hay[1..], needle, i - 1)
  {
    assert hay[1..][i - 1..i - 1 + |needle|] == hay[i..i + |needle|];
  }

  /** The scan finds `needle` exactly when it occurs somewhere in `hay`. */
  lemma {:induction false} ContainsIff(hay: string, needle: string)
    ensures Contains(hay, needle) <==> Occurs(hay, needle)
  {
    if StartsWith(hay, needle) {
      assert OccursAt(hay, needle, 0);
    } else if hay != [] {
      ContainsIff(hay[1..], needle);
      if Occurs(hay[1..], needle) {
        var j :| OccursAt(hay[1..], needle, j);
        OccursInTail(hay, needle, j);
      }
      if Occurs(hay, needle) {
        var i :| OccursAt(hay, needle, i);
        assert i != 0;
        OccursPastHead(hay, needle, i);
      }
    }
  }

  /** Every string includes the empty string. */
  lemma ContainsEmpty(hay: string)
    ensures Contains(hay, "")
  {
  }

  // ---------------------------------------------------------------------------
  // join and split over a one-character separator

  /** `parts.join(sep)`. */
  function Join(parts: seq<string>, sep: char): (r: string)
    ensures parts == [] ==> r == ""
  {
    if |parts| == 0 then ""
    else if |parts| == 1 then parts[0]
    else parts[0] + [sep] + Join(parts[1..], sep)
  }

  /** `s.split(sep)`: never empty; an empty string splits into one empty part. */
  function Split(s: string, sep: char): (r: seq<string>)
    ensures |r| >= 1
  {
    if s == [] then [""]
    else
      var rest := Split(s[1..], sep);
      if s[0] == sep then [""] + rest else [[s[0]] + rest[0]] + rest[1..]
  }

  /** Splitting a text that begins with a separator-free piece `p`. */
  lemma {:induction false} SplitAfterPlainPrefix(p: string, t: string, sep: char)
    requires sep !in p
    ensures Split(p + t, sep) == [p + Split(t, sep)[0]] + Split(t, sep)[1..]
  {
    if p != [] {
      assert (p + t)[1..] == p[1..] + t;
      SplitAfterPlainPrefix(p[1..], t, sep);
      assert [p[0]] + (p[1..] + Split(t, sep)[0]) == p + Split(t, sep)[0];
    } else {
      assert p + t == t;
      assert p + Split(t, sep)[0] == Split(t, sep)[0];
      assert [Split(t, sep)[0]] + Split(t, sep)[1..] == Split(t, sep);
    }
  }

  /** `split` undoes `join` when no part contains the separator (and there is a part). */
  lemma {:induction false} SplitJoin(parts: seq<string>, sep: char)
    requires |parts| >= 1
    requires forall i :: 0 <= i < |parts| ==> sep !in parts[i]
    ensures Split(Join(parts, sep), sep) == parts
  {
    if |parts| == 1 {
      SplitAfterPlainPrefix(parts[0], "", sep);
      assert parts[0] + "" == parts[0];
      assert Split("", sep) == [""];
      assert [parts[0]] == parts;
    } else {
      var rest := Join(parts[1..], sep);
      SplitJoin(parts[1..], sep);
      assert parts[0] + [sep] + rest == parts[0] + ([sep] + rest);
      SplitAfterPlainPrefix(parts[0], [sep] + rest, sep);
      assert ([sep] + rest)[1..] == rest;
      assert Split([sep] + rest, sep) == [""] + Split(rest, sep);
      assert parts[0] + "" == parts[0];
      assert [parts[0]] + parts[1..] == parts;
    }
  }

  /** Whatever the later parts hold, the first piece of a split join is the first part. */
  lemma SplitFirstPart(parts: seq<string>, sep: char)
    requires |parts| >= 1 && sep !in parts[0]
    ensures Split(Join(parts, sep), sep)[0] == parts[0]
  {
    if |parts| == 1 {
      SplitAfterPlainPrefix(parts[0], "", sep);
      assert parts[0] + "" == parts[0];
    } else {
      var rest := Join(parts[1..], sep);
      assert parts[0] + [sep] + rest == parts[0] + ([sep] + rest);
      SplitAfterPlainPrefix(parts[0], [sep] + rest, sep);
      assert Split([sep] + rest, sep)[0] == "";
      assert parts[0] + "" == parts[0];
    }
  }

  /** A part that itself holds the separator joins exactly like the two parts around it. */
  lemma {:induction false} JoinSplitPart(parts: seq<string>, k: int, left: string, right: string, sep: char)
    requires 0 <= k < |parts| && parts[k] == left + [sep] + right
    ensures Join(parts, sep) == Join(parts[..k] + [left, right] + parts[k + 1..], sep)
  {
    var spread := parts[..k] + [left, right] + parts[k + 1..];
    if k == 0 {
      assert spread == [left, right] + parts[1..];
      assert spread[1..] == [right] + parts[1..];
      if |parts| == 1 {
        assert Join(spread[1..], sep) == right;
      } else {
        assert Join(spread[1..], sep) == right + [sep] + Join(parts[1..], sep);
        assert Join(parts, sep) == left + [sep] + right + [sep] + Join(parts[1..], sep);
      }
    } else {
      JoinSplitPart(parts[1..], k - 1, left, right, sep);
      assert spread[0] == parts[0];
      assert spread[1..] == parts[1..][..k - 1] + [left, right] + parts[1..][k..];
    }
  }

  // ---------------------------------------------------------------------------
  // Decimal rendering

  predicate IsDigit(c: char)
  {
    '0' <= c <= '9'
  }

  function DigitChar(d: nat): char
    requires d < 10
  {
    ('0' as int + d) as char
  }

  /** `n.toString()` for a non-negative integer. */
  function NatToString(n: nat): (r: string)
    ensures |r| >= 1
    ensures forall i :: 0 <= i < |r| ==> IsDigit(r[i])
  {
    if n < 10 then [DigitChar(n)] else NatToString(n / 10) + [DigitChar(n % 10)]
  }

  /** The value of a string of decimal digits, most significant first. */
  function DigitsValue(s: string): nat
    requires forall i :: 0 <= i < |s| ==> IsDigit(s[i])
  {
    if s == [] then 0
    else
      var last := s[|s| - 1];
      assert IsDigit(last);
      10 * DigitsValue(s[..|s| - 1]) + (last as int - '0' as int)
  }

  /** Reading back a rendered number gives the number. */
  lemma {:induction false} DigitsValueOfNatToString(n: nat)
    ensures DigitsValue(NatToString(n)) == n
  {
    if n >= 10 {
      var s := NatToString(n);
      assert s[..|s| - 1] == NatToString(n / 10);
      DigitsValueOfNatToString(n / 10);
    }
  }

  /** A digit-only text contains neither a comma nor a newline. */
  lemma DigitsHaveNoSeparator(s: string)
    requires forall i :: 0 <= i < |s| ==> IsDigit(s[i])
    ensures ',' !in s && '\n' !in s
  {
  }

  /**
   * `x.toFixed(2)` for an amount held exactly as `cents` minor units: an optional
   * minus sign, the whole units, a point and two digits.
   */
  function FormatCents(cents: int): (r: string)
    ensures forall i :: 0 <= i < |r| ==> IsDigit(r[i]) || r[i] == '-' || r[i] == '.'
    ensures ',' !in r && '\n' !in r
  {
    var m: nat := if cents < 0 then -cents else cents;
    var whole := NatToString(m / 100);
    DigitsHaveNoSeparator(whole);
    (if cents < 0 then "-" else "") + whole + "." + [DigitChar(m % 100 / 10), DigitChar(m % 10)]
  }
}
