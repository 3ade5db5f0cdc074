/** The string operations the tools and the agent rely on, written out as
    Python defines them: `sep.join(parts)`, `s.split(sep)`, `str(n)` and
    `int(s)` on decimal numerals, `needle in s`, `s.endswith(suffix)` and
    ASCII upper- and lower-casing. */
module Text {

  // ---------------------------------------------------------------------
  // join and split

  /** Python's `sep.join(parts)`. */
  function Join(sep: string, parts: seq<string>): (r: string)
    ensures parts == [] ==> r == []
    ensures |parts| == 1 ==> r == parts[0]
  {
    if parts == [] then []
    else if |parts| == 1 then parts[0]
    else parts[0] + sep + Join(sep, parts[1..])
  }

  /** Python's `s.split(sep)` for a non-empty separator: the text between
      the non-overlapping occurrences of `sep`, scanned from the left.
      `field` is the part of the current field already read. */
  function SplitFrom(s: string, sep: string, field: string): (r: seq<string>)
    requires sep != []
    ensures r != []
    decreases |s|
  {
    if |s| < |sep| then [field + s]
    else if s[..|sep|] == sep then [field] + SplitFrom(s[|sep|..], sep, [])
    else SplitFrom(s[1..], sep, field + [s[0]])
  }

  function Split(s: string, sep: string): (r: seq<string>)
    requires sep != []
    ensures r != []
  {
    SplitFrom(s, sep, [])
  }

  /** No occurrence of `sep` starts inside `x`, even one that would run on
      into a following `sep`: `x` is a field that `Split` gives back intact. */
  predicate SepFree(x: string, sep: string)
  {
    forall j | 0 <= j < |x| :: !OccursAt(x + sep, j, sep)
  }

  /** `t` occurs in `s` at position `j`. */
  predicate OccursAt(s: string, j: int, t: string)
  {
    0 <= j && j + |t| <= |s| && s[j..j + |t|] == t
  }

  lemma SepFreeTail(x: string, sep: string)
    requires x != [] && SepFree(x, sep)
    ensures SepFree(x[1..], sep)
  {
    forall j | 0 <= j < |x[1..]| ensures !OccursAt(x[1..] + sep, j, sep) {
      assert !OccursAt(x + sep, j + 1, sep);
      assert (x[1..] + sep)[j..j + |sep|] == (x + sep)[j + 1..j + 1 + |sep|];
    }
  }

  /** A separator-free field followed by the separator is read as one field. */
  lemma {:induction false} SplitFromField(x: string, sep: string, t: string, field: string)
    requires sep != [] && SepFree(x, sep)
    ensures SplitFrom(x + sep + t, sep, field) == [field + x] + Split(t, sep)
    decreases |x|
  {
    var s := x + sep + t;
    if x == [] {
      assert s == sep + t;
      assert s[..|sep|] == sep;
      assert s[|sep|..] == t;
      assert field + x == field;
    } else {
      assert !OccursAt(x + sep, 0, sep);
      assert s[..|sep|] == (x + sep)[0..|sep|];
      assert s[1..] == x[1..] + sep + t;
      SepFreeTail(x, sep);
      SplitFromField(x[1..], sep, t, field + [x[0]]);
      assert field + [x[0]] + x[1..] == field + x;
    }
  }

  /** A separator-free field at the end of the text is read as the last field. */
  lemma {:induction false} SplitFromLast(x: string, sep: string, field: string)
    requires sep != [] && SepFree(x, sep)
    ensures SplitFrom(x, sep, field) == [field + x]
    decreases |x|
  {
    if |x| >= |sep| {
      assert !OccursAt(x + sep, 0, sep);
      assert x[..|sep|] == (x + sep)[0..|sep|];
      SepFreeTail(x, sep);
      SplitFromLast(x[1..], sep, field + [x[0]]);
      assert field + [x[0]] + x[1..] == field + x;
    }
  }

  /** Joining two non-empty lists is joining each and putting `sep` between. */
  lemma {:induction false} JoinAppend(sep: string, a: seq<string>, b: seq<string>)
    requires a != [] && b != []
    ensures Join(sep, a + b) == Join(sep, a) + sep + Join(sep, b)
    decreases |a|
  {
    if |a| == 1 {
      assert (a + b)[1..] == b;
    } else {
      assert (a + b)[1..] == a[1..] + b;
      JoinAppend(sep, a[1..], b);
    }
  }

  /** Text put in front keeps a suffix a suffix. */
  lemma EndsWithPrepend(front: string, s: string, suffix: string)
    requires EndsWith(s, suffix)
    ensures EndsWith(front + s, suffix)
  {
    assert (front + s)[|front + s| - |suffix|..] == s[|s| - |suffix|..];
  }

  /** A heading line, the parts (one empty line when there are none), an
      empty line and a closing line, joined by newlines. */
  lemma FramedJoin(heading: string, parts: seq<string>, closing: string)
    ensures heading + "\n" + Join("\n", parts) + "\n\n" + closing
         == Join("\n", [heading] + (if parts == [] then [""] else parts) + ["", closing])
  {
    var mid := if parts == [] then [""] else parts;
    assert Join("\n", mid) == Join("\n", parts);
    assert Join("\n", ["", closing]) == "" + "\n" + closing;
    JoinAppend("\n", mid, ["", closing]);
    assert [heading] + mid + ["", closing] == [heading] + (mid + ["", closing]);
    assert Join("\n", [heading] + (mid + ["", closing])) == heading + "\n" + Join("\n", mid + ["", closing]);
  }

  /** `s.split(sep)` undoes `sep.join(parts)` when no part contains the
      separator (and there is at least one part: `"".split(sep)` is `[""]`). */
  lemma {:induction false} SplitJoin(sep: string, parts: seq<string>)
    requires sep != [] && parts != []
    requires forall k | 0 <= k < |parts| :: SepFree(parts[k], sep)
    ensures Split(Join(sep, parts), sep) == parts
    decreases |parts|
  {
    if |parts| == 1 {
      SplitFromLast(parts[0], sep, []);
      assert [] + parts[0] == parts[0];
    } else {
      SplitFromField(parts[0], sep, Join(sep, parts[1..]), []);
      SplitJoin(sep, parts[1..]);
      assert [] + parts[0] == parts[0];
      assert parts == [parts[0]] + parts[1..];
    }
  }

  /** A line without a newline character is a field of `split("\n")`. */
  lemma NewlineFree(x: string)
    requires '\n' !in x
    ensures SepFree(x, "\n")
  {
    forall j | 0 <= j < |x| ensures !OccursAt(x + "\n", j, "\n") {
      assert (x + "\n")[j..j + 1] == [x[j]];
    }
  }

  /** A text without ", " inside it is a field of `split(", ")`: the window
      starting at its last character ends in ',' and so is not ", ". */
  lemma CommaSpaceFree(x: string)
    requires !Contains(x, ", ")
    ensures SepFree(x, ", ")
  {
    forall j | 0 <= j < |x| ensures !OccursAt(x + ", ", j, ", ") {
      if j + 2 <= |x| {
        assert (x + ", ")[j..j + 2] == x[j..j + 2];
        assert !OccursAt(x, j, ", ");
      } else {
        assert (x + ", ")[j + 1] == ',';
      }
    }
  }

  // ---------------------------------------------------------------------
  // substrings

  /** Python's `needle in s`. */
  predicate Contains(s: string, needle: string)
  {
    exists i | 0 <= i <= |s| - |needle| :: OccursAt(s, i, needle)
  }

  /** Python's `s.endswith(suffix)`. */
  predicate EndsWith(s: string, suffix: string)
  {
    |suffix| <= |s| && s[|s| - |suffix|..] == suffix
  }

  // ---------------------------------------------------------------------
  // ASCII case

  function UpperChar(c: char): char
  {
    if 'a' <= c <= 'z' then (c as int - 32) as char else c
  }

  function LowerChar(c: char): char
  {
    if 'A' <= c <= 'Z' then (c as int + 32) as char else c
  }

  /** `s.upper()` on the ASCII letters. */
  function Upper(s: string): (r: string)
    ensures |r| == |s|
    ensures forall i | 0 <= i < |s| :: r[i] == UpperChar(s[i])
  {
    seq(|s|, i requires 0 <= i < |s| => UpperChar(s[i]))
  }

  /** `s.lower()` on the ASCII letters. */
  function Lower(s: string): (r: string)
    ensures |r| == |s|
    ensures forall i | 0 <= i < |s| :: r[i] == LowerChar(s[i])
  {
    seq(|s|, i requires 0 <= i < |s| => LowerChar(s[i]))
  }

  // ---------------------------------------------------------------------
  // decimal numerals

  predicate IsDigit(c: char)
  {
    '0' <= c <= '9'
  }

  predicate AllDigits(s: string)
  {
    forall i | 0 <= i < |s| :: IsDigit(s[i])
  }

  /** The form `str(n)` gives a natural number: digits only, no leading zero. */
  predicate Canonical(s: string)
  {
    s != [] && AllDigits(s) && (|s| > 1 ==> s[0] != '0')
  }

  function DigitChar(d: nat): char
    requires d < 10
  {
    (48 + d) as char
  }

  function DigitValue(c: char): nat
    requires IsDigit(c)
  {
    c as int - 48
  }

  /** Python's `str(n)` for `n >= 0`. */
  function NatToString(n: nat): (s: string)
    ensures Canonical(s)
    ensures n < 10 <==> |s| == 1
  {
    if n < 10 then [DigitChar(n)]
    else
      var front := NatToString(n / 10);
      front + [DigitChar(n % 10)]
  }

  /** Python's `str(i)`. */
  function IntToString(i: int): (s: string)
    ensures s != []
    ensures i < 0 <==> s[0] == '-'
  {
    if i < 0 then "-" + NatToString(-i) else NatToString(i)
  }

  /** Python's `int(s)` on a string of decimal digits. */
  function ParseNat(s: string): nat
    requires AllDigits(s)
  {
    if s == [] then 0 else 10 * ParseNat(s[..|s| - 1]) + DigitValue(s[|s| - 1])
  }

  /** `int(str(n)) == n`. */
  lemma {:induction false} ParseNatToString(n: nat)
    ensures ParseNat(NatToString(n)) == n
  {
    var s := NatToString(n);
    if n >= 10 {
      ParseNatToString(n / 10);
      assert s[..|s| - 1] == NatToString(n / 10);
    }
  }

  lemma {:induction false} ParsePositive(s: string)
    requires Canonical(s) && s[0] != '0'
    ensures ParseNat(s) >= 1
    decreases |s|
  {
    if |s| > 1 {
      ParsePositive(s[..|s| - 1]);
    }
  }

  /** `str(int(s)) == s` for every numeral `str` can produce, so `str` is a
      bijection between the naturals and the canonical numerals. */
  lemma {:induction false} NatToStringParse(s: string)
    requires Canonical(s)
    ensures NatToString(ParseNat(s)) == s
    decreases |s|
  {
    if |s| > 1 {
      var front := s[..|s| - 1];
      ParsePositive(front);
      NatToStringParse(front);
      var n := ParseNat(s);
      assert n / 10 == ParseNat(front) && n % 10 == DigitValue(s[|s| - 1]);
      assert s == front + [s[|s| - 1]];
    }
  }

  /** A numeral followed by a text that starts with a non-digit can be cut
      back apart: the numeral ends at the first non-digit. */
  lemma NumeralPrefix(a: string, x: string, b: string, y: string)
    requires AllDigits(a) && AllDigits(b)
    requires x != [] && !IsDigit(x[0]) && y != [] && !IsDigit(y[0])
    requires a + x == b + y
    ensures a == b && x == y
  {
    assert (a + x)[|a|] == x[0] && (b + y)[|b|] == y[0];
    assert forall i | 0 <= i < |a| :: (a + x)[i] == a[i];
    assert forall i | 0 <= i < |b| :: (b + y)[i] == b[i];
    assert |a| == |b|;
    assert a == (a + x)[..|a|] && b == (b + y)[..|b|];
    assert x == (a + x)[|a|..] && y == (b + y)[|b|..];
  }

  lemma CancelFront(lead: string, x: string, y: string)
    requires lead + x == lead + y
    ensures x == y
  {
    assert x == (lead + x)[|lead|..] && y == (lead + y)[|lead|..];
  }

  lemma CancelAround(mid: string, t: string, u: string, close: string)
    requires mid + t + close == mid + u + close
    ensures t == u
  {
    var x := mid + t + close;
    var y := mid + u + close;
    assert t == x[|mid|..|x| - |close|];
    assert u == y[|mid|..|y| - |close|];
  }

  /** A number and a field framed by fixed texts can both be read back,
      provided the text after the number starts with a non-digit. */
  lemma NumberedFieldReadBack(lead: string, mid: string, close: string, n: nat, t: string, m: nat, u: string)
    requires mid != [] && !IsDigit(mid[0])
    requires lead + (NatToString(n) + (mid + t + close)) == lead + (NatToString(m) + (mid + u + close))
    ensures n == m && t == u
  {
    var x := mid + t + close;
    var y := mid + u + close;
    CancelFront(lead, NatToString(n) + x, NatToString(m) + y);
    assert x[0] == mid[0] && y[0] == mid[0];
    NumeralPrefix(NatToString(n), x, NatToString(m), y);
    ParseNatToString(n);
    ParseNatToString(m);
    CancelAround(mid, t, u, close);
  }
}
