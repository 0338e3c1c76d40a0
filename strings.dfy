/**
 * The Python string operations the readers build names with: `in`,
 * `str.replace`, `str.split`, negative slicing and `str(int(x))`.
 */
module Strings {

  // ---------------------------------------------------------------------
  // Substring test (`pat in s`)
  // ---------------------------------------------------------------------

  /** `pat` occurs in `s` starting at index `i`. */
  predicate OccursAt(s: string, pat: string, i: nat)
  {
    i + |pat| <= |s| && s[i..i + |pat|] == pat
  }

  /** Python's `pat in s`, computed by scanning from the left. */
  predicate Contains(s: string, pat: string)
    decreases |s|
  {
    pat <= s || (|s| > 0 && Contains(s[1..], pat))
  }

  /** Shifting the start of `s` by one shifts every occurrence by one. */
  lemma OccursShift(s: string, pat: string, i: nat)
    requires |s| > 0
    ensures OccursAt(s, pat, i + 1) <==> OccursAt(s[1..], pat, i)
  {
    if i + 1 + |pat| <= |s| {
      assert s[1..][i..i + |pat|] == s[i + 1..i + 1 + |pat|];
    }
  }

  lemma {:induction false} ContainsIff(s: string, pat: string)
    ensures Contains(s, pat) <==> exists i: nat :: OccursAt(s, pat, i)
    decreases |s|
  {
    if pat <= s {
      assert OccursAt(s, pat, 0);
    } else if |s| == 0 {
      assert |pat| > 0;
    } else {
      ContainsIff(s[1..], pat);
      if exists i: nat :: OccursAt(s[1..], pat, i) {
        var i: nat :| OccursAt(s[1..], pat, i);
        OccursShift(s, pat, i);
      }
      if exists i: nat :: OccursAt(s, pat, i) {
        var i: nat :| OccursAt(s, pat, i);
        assert i != 0;
        OccursShift(s, pat, i - 1);
      }
    }
  }

  /** An occurrence at a known index makes the pattern contained. */
  lemma OccursAtContains(s: string, pat: string, i: nat)
    requires OccursAt(s, pat, i)
    ensures Contains(s, pat)
  {
    ContainsIff(s, pat);
  }

  // ---------------------------------------------------------------------
  // `s.replace(pat, rep)`: every leftmost, non-overlapping occurrence
  // ---------------------------------------------------------------------

  function ReplaceAll(s: string, pat: string, rep: string): string
    requires |pat| > 0
    decreases |s|
  {
    if |s| < |pat| then s
    else if pat <= s then rep + ReplaceAll(s[|pat|..], pat, rep)
    else [s[0]] + ReplaceAll(s[1..], pat, rep)
  }

  /** Replacing a pattern that does not occur leaves the string as it is. */
  lemma {:induction false} ReplaceAllAbsent(s: string, pat: string, rep: string)
    requires |pat| > 0
    requires !Contains(s, pat)
    ensures ReplaceAll(s, pat, rep) == s
    decreases |s|
  {
    if |s| >= |pat| {
      assert !(pat <= s);
      ReplaceAllAbsent(s[1..], pat, rep);
      assert [s[0]] + s[1..] == s;
    }
  }

  /**
   * The first occurrence is the one replaced: text before it is kept,
   * and scanning resumes right after it (occurrences never overlap).
   */
  lemma {:induction false} ReplaceAllFirst(s: string, pat: string, rep: string, k: nat)
    requires |pat| > 0
    requires OccursAt(s, pat, k)
    requires forall i: nat :: i < k ==> !OccursAt(s, pat, i)
    ensures ReplaceAll(s, pat, rep) == s[..k] + rep + ReplaceAll(s[k + |pat|..], pat, rep)
    decreases k
  {
    if k == 0 {
      assert pat <= s;
    } else {
      var t := s[1..];
      var tail := ReplaceAll(s[k + |pat|..], pat, rep);
      calc {
        ReplaceAll(s, pat, rep);
      == { ReplaceAllSkip(s, pat, rep); }
        [s[0]] + ReplaceAll(t, pat, rep);
      == { NoEarlierShift(s, pat, k);
           ReplaceAllFirst(t, pat, rep, k - 1);
           assert t[k - 1 + |pat|..] == s[k + |pat|..]; }
        [s[0]] + (t[..k - 1] + rep + tail);
      == { assert s[..k] == [s[0]] + t[..k - 1]; }
        s[..k] + rep + tail;
      }
    }
  }

  /** Where the pattern does not start at index 0, the first character is copied. */
  lemma ReplaceAllSkip(s: string, pat: string, rep: string)
    requires |pat| > 0 && |s| > 0
    requires !OccursAt(s, pat, 0)
    ensures ReplaceAll(s, pat, rep) == [s[0]] + ReplaceAll(s[1..], pat, rep)
  {
  }

  lemma NoEarlierShift(s: string, pat: string, k: nat)
    requires k > 0 && OccursAt(s, pat, k)
    requires forall i: nat :: i < k ==> !OccursAt(s, pat, i)
    ensures OccursAt(s[1..], pat, k - 1)
    ensures forall i: nat :: i < k - 1 ==> !OccursAt(s[1..], pat, i)
  {
    forall i: nat | i < k - 1
      ensures !OccursAt(s[1..], pat, i)
    {
      OccursShift(s, pat, i);
    }
    OccursShift(s, pat, k - 1);
  }

  // ---------------------------------------------------------------------
  // `s.split(sep)` for a one-character separator
  // ---------------------------------------------------------------------

  function Split(s: string, sep: char): (parts: seq<string>)
    ensures |parts| > 0
    decreases |s|
  {
    if |s| == 0 then [""]
    else
      var rest := Split(s[1..], sep);
      if s[0] == sep then [""] + rest
      else [[s[0]] + rest[0]] + rest[1..]
  }

  /** `sep.join(parts)` */
  function Join(parts: seq<string>, sep: char): string
    requires |parts| > 0
  {
    if |parts| == 1 then parts[0] else parts[0] + [sep] + Join(parts[1..], sep)
  }

  /** Splitting loses nothing: joining the pieces back gives the string. */
  lemma {:induction false} JoinSplit(s: string, sep: char)
    ensures Join(Split(s, sep), sep) == s
    decreases |s|
  {
    if |s| > 0 {
      var rest := Split(s[1..], sep);
      JoinSplit(s[1..], sep);
      if s[0] == sep {
        assert Split(s, sep)[1..] == rest;
      } else {
        var parts := Split(s, sep);
        if |rest| == 1 {
          assert parts == [[s[0]] + rest[0]];
        } else {
          assert parts[1..] == rest[1..];
          assert Join(rest, sep) == rest[0] + [sep] + Join(rest[1..], sep);
        }
      }
    }
  }

  /** No piece of a split contains the separator. */
  lemma {:induction false} SplitPiecesFree(s: string, sep: char, k: nat)
    requires k < |Split(s, sep)|
    ensures sep !in Split(s, sep)[k]
    decreases |s|
  {
    if |s| > 0 {
      var rest := Split(s[1..], sep);
      if s[0] == sep {
        if k > 0 { SplitPiecesFree(s[1..], sep, k - 1); }
      } else if k == 0 {
        SplitPiecesFree(s[1..], sep, 0);
      } else {
        SplitPiecesFree(s[1..], sep, k);
      }
    }
  }

  /** `s.split(sep)[0]`: the text before the first separator. */
  function FirstField(s: string, sep: char): string
  {
    Split(s, sep)[0]
  }

  /** `s.split(sep)[-1]`: the text after the last separator. */
  function LastField(s: string, sep: char): string
  {
    var parts := Split(s, sep);
    parts[|parts| - 1]
  }

  /** The first field is a separator-free prefix, and the whole string unless a separator follows it. */
  lemma {:induction false} FirstFieldShape(s: string, sep: char)
    ensures FirstField(s, sep) <= s
    ensures sep !in FirstField(s, sep)
    ensures FirstField(s, sep) == s || s[|FirstField(s, sep)|] == sep
    ensures sep !in s ==> FirstField(s, sep) == s
    decreases |s|
  {
    SplitPiecesFree(s, sep, 0);
    if |s| > 0 && s[0] != sep {
      FirstFieldShape(s[1..], sep);
    }
  }

  /** A separator-free text followed by the separator is the first field. */
  lemma {:induction false} FirstFieldAtSeparator(a: string, b: string, sep: char)
    requires sep !in a
    ensures FirstField(a + [sep] + b, sep) == a
    decreases |a|
  {
    var s := a + [sep] + b;
    if |a| == 0 {
      assert s[0] == sep;
    } else {
      assert s[1..] == a[1..] + [sep] + b;
      FirstFieldAtSeparator(a[1..], b, sep);
      assert [a[0]] + a[1..] == a;
    }
  }

  /** A separator-free text splits into itself alone. */
  lemma {:induction false} SplitFree(a: string, sep: char)
    requires sep !in a
    ensures Split(a, sep) == [a]
    decreases |a|
  {
    if |a| > 0 {
      SplitFree(a[1..], sep);
      assert [a[0]] + a[1..] == a;
    }
  }

  /** Splitting at a first separator: the text before it, then the split of the rest. */
  lemma {:induction false} SplitAtSeparator(a: string, b: string, sep: char)
    requires sep !in a
    ensures Split(a + [sep] + b, sep) == [a] + Split(b, sep)
    decreases |a|
  {
    var s := a + [sep] + b;
    if |a| == 0 {
      assert s[0] == sep && s[1..] == b;
    } else {
      assert s[1..] == a[1..] + [sep] + b;
      SplitAtSeparator(a[1..], b, sep);
      assert [a[0]] + a[1..] == a;
    }
  }

  /** Joining separator-free pieces, then splitting, gives the pieces back. */
  lemma {:induction false} SplitJoin(parts: seq<string>, sep: char)
    requires |parts| > 0
    requires forall k :: 0 <= k < |parts| ==> sep !in parts[k]
    ensures Split(Join(parts, sep), sep) == parts
    decreases |parts|
  {
    if |parts| == 1 {
      SplitFree(parts[0], sep);
    } else {
      SplitJoin(parts[1..], sep);
      SplitAtSeparator(parts[0], Join(parts[1..], sep), sep);
      assert parts == [parts[0]] + parts[1..];
    }
  }

  /**
   * The last field is a separator-free suffix: the whole string when there is
   * no separator, and otherwise the text right after the last separator.
   */
  lemma {:induction false} LastFieldShape(s: string, sep: char)
    ensures |LastField(s, sep)| <= |s|
    ensures LastField(s, sep) == s[|s| - |LastField(s, sep)|..]
    ensures sep !in LastField(s, sep)
    ensures |Split(s, sep)| == 1 ==> LastField(s, sep) == s
    ensures |Split(s, sep)| > 1 ==> |LastField(s, sep)| < |s| && s[|s| - |LastField(s, sep)| - 1] == sep
    decreases |s|
  {
    var parts := Split(s, sep);
    SplitPiecesFree(s, sep, |parts| - 1);
    if |s| > 0 {
      var rest := Split(s[1..], sep);
      LastFieldShape(s[1..], sep);
      if s[0] == sep {
        assert LastField(s, sep) == LastField(s[1..], sep);
      } else if |rest| == 1 {
        assert LastField(s, sep) == [s[0]] + rest[0];
      } else {
        assert LastField(s, sep) == LastField(s[1..], sep);
      }
    }
  }

  /** `[x for x in parts if x]` */
  function NonEmptyParts(parts: seq<string>): (r: seq<string>)
    ensures forall p :: p in r <==> p in parts && p != ""
    ensures |r| <= |parts|
  {
    if |parts| == 0 then []
    else (if parts[0] == "" then [] else [parts[0]]) + NonEmptyParts(parts[1..])
  }

  /** A product's split name: the non-empty `_`-separated fields of its name. */
  function SplitName(name: string): seq<string>
  {
    NonEmptyParts(Split(name, '_'))
  }

  /** Every field of a split name is non-empty and free of `_`. */
  lemma SplitNameField(name: string, k: nat)
    requires k < |SplitName(name)|
    ensures SplitName(name)[k] != "" && '_' !in SplitName(name)[k]
  {
    var field := SplitName(name)[k];
    assert field in SplitName(name);
    var j :| 0 <= j < |Split(name, '_')| && Split(name, '_')[j] == field;
    SplitPiecesFree(name, '_', j);
  }

  // ---------------------------------------------------------------------
  // Negative slicing
  // ---------------------------------------------------------------------

  /** `s[-n:]` */
  function TakeLast(s: string, n: nat): (r: string)
    ensures |r| == if |s| < n then |s| else n
    ensures r == s[|s| - |r|..]
  {
    if |s| < n then s else s[|s| - n..]
  }

  /** `s[:-n]` for n > 0 */
  function DropLast(s: string, n: nat): (r: string)
    requires n > 0
    ensures |r| == if |s| < n then 0 else |s| - n
    ensures r <= s
  {
    if |s| < n then "" else s[..|s| - n]
  }

  /** Dropping the last `|t|` characters of `x + t` gives back `x`. */
  lemma DropLastAppend(x: string, t: string)
    requires |t| > 0
    ensures DropLast(x + t, |t|) == x
  {
    assert (x + t)[..|x|] == x;
  }

  /** `s[-1]`, which raises IndexError on the empty string. */
  function LastChar(s: string): char
    requires |s| > 0
  {
    s[|s| - 1]
  }

  /** `c.isupper()` for ASCII characters (other scripts are not modelled). */
  predicate IsUpper(c: char)
  {
    'A' <= c <= 'Z'
  }

  // ---------------------------------------------------------------------
  // Decimal numbers: `str(n)` and its integer reading
  // ---------------------------------------------------------------------

  predicate IsDigit(c: char)
  {
    '0' <= c <= '9'
  }

  function DigitChar(d: nat): char
    requires d < 10
  {
    "0123456789"[d]
  }

  function DigitValue(c: char): nat
    requires IsDigit(c)
  {
    (c as int - '0' as int) as nat
  }

  /** `str(n)` for a natural number. */
  function NatToString(n: nat): (s: string)
    ensures |s| > 0
    ensures forall i :: 0 <= i < |s| ==> IsDigit(s[i])
  {
    if n < 10 then [DigitChar(n)] else NatToString(n / 10) + [DigitChar(n % 10)]
  }

  /** `str(i)` for any integer. */
  function IntToString(i: int): string
  {
    if i < 0 then "-" + NatToString(-i) else NatToString(i)
  }

  /** `int(s)` for a non-empty string of decimal digits. */
  function DigitsValue(s: string): nat
    requires forall i :: 0 <= i < |s| ==> IsDigit(s[i])
  {
    if |s| == 0 then 0 else 10 * DigitsValue(s[..|s| - 1]) + DigitValue(s[|s| - 1])
  }

  /** Reading back the decimal text of a number gives the number. */
  lemma {:induction false} DigitsValueNatToString(n: nat)
    ensures DigitsValue(NatToString(n)) == n
  {
    if n >= 10 {
      var s := NatToString(n);
      assert s[..|s| - 1] == NatToString(n / 10);
      DigitsValueNatToString(n / 10);
    }
  }

  /** Python's `int(x)` on a real: truncation toward zero. */
  function TruncToInt(x: real): (i: int)
    ensures x >= 0.0 ==> i as real <= x < i as real + 1.0
    ensures x < 0.0 ==> i as real - 1.0 < x <= i as real
  {
    if x >= 0.0 then x.Floor else -((-x).Floor)
  }
}
