/**
 * String primitives the ZOE converter relies on, written out with the
 * semantics of the Python built-ins it calls: `str.split` and `str.join`
 * with a one-character separator, `str.strip`, the collapsing of tab runs
 * done with `re.sub(r'\t+', ' ', ...)`, `str.isdigit` followed by `int`,
 * and `str(n)` for integers.
 */
module Text {

  datatype Option<+T> = None | Some(value: T)

  datatype Result<+T, +E> = Success(value: T) | Failure(error: E)

  /** Number of occurrences of `c` in `s`. */
  function CountChar(s: string, c: char): nat
  {
    if s == [] then 0 else (if s[0] == c then 1 else 0) + CountChar(s[1..], c)
  }

  lemma {:induction false} CountCharAppend(a: string, b: string, c: char)
    ensures CountChar(a + b, c) == CountChar(a, c) + CountChar(b, c)
  {
    if a != [] {
      assert (a + b)[1..] == a[1..] + b;
      CountCharAppend(a[1..], b, c);
    } else {
      assert a + b == b;
    }
  }

  lemma {:induction false} CountCharAbsent(s: string, c: char)
    requires c !in s
    ensures CountChar(s, c) == 0
  {
    if s != [] {
      CountCharAbsent(s[1..], c);
    }
  }

  lemma {:induction false} CountCharPresent(s: string, c: char)
    requires CountChar(s, c) > 0
    ensures c in s
  {
    if s[0] != c {
      CountCharPresent(s[1..], c);
    }
  }

  lemma {:induction false} CountCharPresentCount(s: string, c: char)
    requires c in s
    ensures CountChar(s, c) > 0
  {
    if s[0] != c {
      CountCharPresentCount(s[1..], c);
    }
  }

  // ---------------------------------------------------------------------
  // split and join
  // ---------------------------------------------------------------------

  /**
   * Python's `s.split(sep)`: every occurrence of `sep` ends a field, so
   * the result always has one field more than `s` has separators, and
   * `"".split(sep)` is `[""]`.
   */
  function Split(s: string, sep: char): (r: seq<string>)
    ensures |r| == CountChar(s, sep) + 1
    ensures forall i :: 0 <= i < |r| ==> sep !in r[i]
  {
    if s == [] then [[]]
    else
      var rest := Split(s[1..], sep);
      if s[0] == sep then [[]] + rest
      else [[s[0]] + rest[0]] + rest[1..]
  }

  /** Python's `sep.join(fields)`. */
  function Join(fields: seq<string>, sep: char): (r: string)
    ensures |fields| >= 1 ==> |r| >= |fields| - 1
  {
    if |fields| == 0 then []
    else if |fields| == 1 then fields[0]
    else fields[0] + [sep] + Join(fields[1..], sep)
  }

  /** True when no field of `fields` contains the separator `sep`. */
  predicate NoSeparator(fields: seq<string>, sep: char)
  {
    forall i :: 0 <= i < |fields| ==> sep !in fields[i]
  }

  lemma {:induction false} NoSeparatorAppend(a: seq<string>, b: seq<string>, sep: char)
    requires NoSeparator(a, sep) && NoSeparator(b, sep)
    ensures NoSeparator(a + b, sep)
  {
    forall i | 0 <= i < |a + b| ensures sep !in (a + b)[i] {
      if i < |a| {
        assert (a + b)[i] == a[i];
      } else {
        assert (a + b)[i] == b[i - |a|];
      }
    }
  }

  lemma {:induction false} SplitWithoutSeparator(s: string, sep: char)
    requires sep !in s
    ensures Split(s, sep) == [s]
  {
    if s != [] {
      SplitWithoutSeparator(s[1..], sep);
      assert [s[0]] + s[1..] == s;
    }
  }

  lemma {:induction false} SplitAfterField(a: string, b: string, sep: char)
    requires sep !in a
    ensures Split(a + [sep] + b, sep) == [a] + Split(b, sep)
  {
    if a == [] {
      assert (a + [sep] + b)[1..] == b;
    } else {
      assert (a + [sep] + b)[1..] == a[1..] + [sep] + b;
      SplitAfterField(a[1..], b, sep);
      assert [a[0]] + a[1..] == a;
    }
  }

  /** Splitting a joined list of separator-free fields gives the fields back. */
  lemma {:induction false} SplitJoin(fields: seq<string>, sep: char)
    requires |fields| >= 1
    requires NoSeparator(fields, sep)
    ensures Split(Join(fields, sep), sep) == fields
  {
    if |fields| == 1 {
      SplitWithoutSeparator(fields[0], sep);
    } else {
      SplitJoin(fields[1..], sep);
      SplitAfterField(fields[0], Join(fields[1..], sep), sep);
      assert [fields[0]] + fields[1..] == fields;
    }
  }

  /** Joining the fields of a split gives the original string back. */
  lemma {:induction false} JoinSplit(s: string, sep: char)
    ensures Join(Split(s, sep), sep) == s
  {
    if s != [] {
      var rest := Split(s[1..], sep);
      JoinSplit(s[1..], sep);
      if s[0] == sep {
        assert [[]] + rest == Split(s, sep);
        assert Join([[]] + rest, sep) == [] + [sep] + Join(rest, sep);
      } else {
        var first := [s[0]] + rest[0];
        if |rest| == 1 {
          assert Split(s, sep) == [first];
        } else {
          assert Join(rest, sep) == rest[0] + [sep] + Join(rest[1..], sep);
          assert ([first] + rest[1..])[1..] == rest[1..];
        }
      }
    }
  }

  /** Join of a concatenation puts one separator between the two parts. */
  lemma {:induction false} JoinAppend(a: seq<string>, b: seq<string>, sep: char)
    requires |a| >= 1 && |b| >= 1
    ensures Join(a + b, sep) == Join(a, sep) + [sep] + Join(b, sep)
  {
    if |a| == 1 {
      assert (a + b)[1..] == b;
    } else {
      assert (a + b)[1..] == a[1..] + b;
      JoinAppend(a[1..], b, sep);
    }
  }

  /**
   * A join ends with the last character of its last field, and starts with
   * the first character of its first field when that field is not empty.
   */
  lemma {:induction false} JoinEnds(fields: seq<string>, sep: char)
    requires |fields| >= 1 && |fields[|fields| - 1]| > 0
    ensures var r := Join(fields, sep);
      |r| > 0 && r[|r| - 1] == fields[|fields| - 1][|fields[|fields| - 1]| - 1]
    ensures |fields[0]| > 0 ==> Join(fields, sep)[0] == fields[0][0]
  {
    if |fields| > 1 {
      var rest := fields[1..];
      assert rest[|rest| - 1] == fields[|fields| - 1];
      JoinEnds(rest, sep);
    }
  }

  /** A join of separator-free fields holds exactly one separator fewer than it has fields. */
  lemma JoinCount(fields: seq<string>, sep: char)
    requires |fields| >= 1
    requires NoSeparator(fields, sep)
    ensures CountChar(Join(fields, sep), sep) == |fields| - 1
  {
    SplitJoin(fields, sep);
  }

  // ---------------------------------------------------------------------
  // strip and tab collapsing
  // ---------------------------------------------------------------------

  /** The characters Python's `str.strip()` removes, restricted to ASCII. */
  predicate IsSpace(c: char)
  {
    c == ' ' || c == '\t' || c == '\n' || c == '\r' || c == '\U{B}' || c == '\U{C}'
    || c == '\U{1C}' || c == '\U{1D}' || c == '\U{1E}' || c == '\U{1F}'
  }

  function TrimLeft(s: string): (r: string)
    ensures |r| <= |s| && r == s[|s| - |r|..]
    ensures forall i :: 0 <= i < |s| - |r| ==> IsSpace(s[i])
    ensures r == [] || !IsSpace(r[0])
  {
    if s != [] && IsSpace(s[0]) then TrimLeft(s[1..]) else s
  }

  function TrimRight(s: string): (r: string)
    ensures |r| <= |s| && r == s[..|r|]
    ensures forall i :: |r| <= i < |s| ==> IsSpace(s[i])
    ensures r == [] || !IsSpace(r[|r| - 1])
  {
    if s != [] && IsSpace(s[|s| - 1]) then TrimRight(s[..|s| - 1]) else s
  }

  /** Python's `s.strip()`: leading and trailing white space removed. */
  function Strip(s: string): (r: string)
  {
    TrimRight(TrimLeft(s))
  }

  /** A string with no white space at either end is its own strip. */
  lemma StripUnchanged(s: string)
    requires s == [] || (!IsSpace(s[0]) && !IsSpace(s[|s| - 1]))
    ensures Strip(s) == s
  {
    var l := TrimLeft(s);
    assert l == s;
  }

  lemma {:induction false} TrimLeftKeepsCount(s: string, c: char)
    requires !IsSpace(c)
    ensures CountChar(TrimLeft(s), c) == CountChar(s, c)
  {
    if s != [] && IsSpace(s[0]) {
      TrimLeftKeepsCount(s[1..], c);
    }
  }

  lemma {:induction false} TrimRightKeepsCount(s: string, c: char)
    requires !IsSpace(c)
    ensures CountChar(TrimRight(s), c) == CountChar(s, c)
  {
    if s != [] && IsSpace(s[|s| - 1]) {
      var init := s[..|s| - 1];
      TrimRightKeepsCount(init, c);
      assert s == init + [s[|s| - 1]];
      CountCharAppend(init, [s[|s| - 1]], c);
    }
  }

  /** Stripping removes only white space, so it keeps every other character's count. */
  lemma StripKeepsCount(s: string, c: char)
    requires !IsSpace(c)
    ensures CountChar(Strip(s), c) == CountChar(s, c)
  {
    TrimLeftKeepsCount(s, c);
    TrimRightKeepsCount(TrimLeft(s), c);
  }

  /** `re.sub(r'\t+', ' ', s)`: every maximal run of tabs becomes one space. */
  function CollapseTabs(s: string): (r: string)
    ensures '\t' !in r
    ensures |r| <= |s|
    ensures forall c :: c != '\t' && c != ' ' ==> CountChar(r, c) == CountChar(s, c)
  {
    if s == [] then []
    else if s[0] == '\t' && |s| > 1 && s[1] == '\t' then CollapseTabs(s[1..])
    else if s[0] == '\t' then [' '] + CollapseTabs(s[1..])
    else [s[0]] + CollapseTabs(s[1..])
  }

  /** Collapsing distributes over a cut that does not split a run of tabs. */
  lemma {:induction false} CollapseTabsAppend(x: string, y: string)
    requires x == [] || x[|x| - 1] != '\t'
    ensures CollapseTabs(x + y) == CollapseTabs(x) + CollapseTabs(y)
  {
    if x != [] {
      var s := x + y;
      assert s[0] == x[0] && s[1..] == x[1..] + y;
      CollapseTabsAppend(x[1..], y);
      var rest := CollapseTabs(x[1..]) + CollapseTabs(y);
      assert CollapseTabs(s[1..]) == rest;
      if x[0] != '\t' {
        assert CollapseTabs(s) == [x[0]] + rest;
        assert CollapseTabs(x) == [x[0]] + CollapseTabs(x[1..]);
      } else {
        assert |x| > 1 && s[1] == x[1];
        if x[1] == '\t' {
          assert CollapseTabs(s) == rest;
        } else {
          assert CollapseTabs(s) == [' '] + rest;
          assert CollapseTabs(x) == [' '] + CollapseTabs(x[1..]);
        }
      }
    } else {
      assert x + y == y;
    }
  }

  /** A run of one or more tabs that is not followed by a tab becomes one space. */
  lemma {:induction false} CollapseTabRun(k: nat, b: string)
    requires k >= 1
    requires b == [] || b[0] != '\t'
    ensures CollapseTabs(seq(k, _ => '\t') + b) == " " + CollapseTabs(b)
  {
    var s := seq(k, _ => '\t') + b;
    assert s[1..] == seq(k - 1, _ => '\t') + b;
    if k > 1 {
      CollapseTabRun(k - 1, b);
    }
  }

  /** A run of `k >= 1` tabs between two non-tab neighbours becomes one space. */
  lemma CollapseTabsRunBetween(a: string, k: nat, b: string)
    requires k >= 1
    requires a == [] || a[|a| - 1] != '\t'
    requires b == [] || b[0] != '\t'
    ensures CollapseTabs(a + seq(k, _ => '\t') + b) == CollapseTabs(a) + " " + CollapseTabs(b)
  {
    assert a + seq(k, _ => '\t') + b == a + (seq(k, _ => '\t') + b);
    CollapseTabsAppend(a, seq(k, _ => '\t') + b);
    CollapseTabRun(k, b);
  }

  /** A string without tabs is left as it is. */
  lemma {:induction false} CollapseTabsUnchanged(s: string)
    requires '\t' !in s
    ensures CollapseTabs(s) == s
  {
    if s != [] {
      CollapseTabsUnchanged(s[1..]);
      assert [s[0]] + s[1..] == s;
    }
  }

  // ---------------------------------------------------------------------
  // decimal digits
  // ---------------------------------------------------------------------

  predicate IsDigit(c: char) { '0' <= c <= '9' }

  /** Python's `s.isdigit()`, restricted to the ASCII digits. */
  predicate IsDigits(s: string)
  {
    |s| > 0 && forall i :: 0 <= i < |s| ==> IsDigit(s[i])
  }

  function DigitValue(c: char): nat
    requires IsDigit(c)
  {
    (c as int - '0' as int) as nat
  }

  function DigitChar(d: nat): (c: char)
    requires d < 10
    ensures IsDigit(c) && DigitValue(c) == d
  {
    ('0' as int + d) as char
  }

  /** Python's `int(s)` on a string of decimal digits (leading zeros allowed). */
  function DigitsValue(s: string): nat
    requires forall i :: 0 <= i < |s| ==> IsDigit(s[i])
  {
    if s == [] then 0 else DigitsValue(s[..|s| - 1]) * 10 + DigitValue(s[|s| - 1])
  }

  /** Python's `str(n)` for a non-negative integer: no sign, no leading zero. */
  function NatToString(n: nat): (r: string)
    ensures IsDigits(r)
    ensures r[0] == '0' ==> n == 0
  {
    if n < 10 then [DigitChar(n)] else NatToString(n / 10) + [DigitChar(n % 10)]
  }

  /** Rendering a count and reading it back gives the same count. */
  lemma {:induction false} NatToStringRoundTrip(n: nat)
    ensures DigitsValue(NatToString(n)) == n
  {
    if n >= 10 {
      var s := NatToString(n);
      NatToStringRoundTrip(n / 10);
      assert s[..|s| - 1] == NatToString(n / 10);
    }
  }

  /** Python's `str(i)` for any integer. */
  function IntToString(i: int): (r: string)
    ensures |r| > 0
  {
    if i < 0 then "-" + NatToString(-i) else NatToString(i)
  }

  /**
   * A rendered integer reads back as the same integer: digits without a
   * leading zero for a non-negative one, a minus sign before the digits
   * of its magnitude for a negative one.
   */
  lemma IntToStringRoundTrip(i: int)
    ensures var r := IntToString(i);
      && (i >= 0 ==> IsDigits(r) && DigitsValue(r) == i && (r[0] == '0' ==> i == 0))
      && (i < 0 ==> r[0] == '-' && IsDigits(r[1..]) && DigitsValue(r[1..]) == -i)
  {
    if i < 0 {
      NatToStringRoundTrip(-i);
      assert IntToString(i)[1..] == NatToString(-i);
    } else {
      NatToStringRoundTrip(i);
    }
  }

  /** A rendered integer never contains a field or pair separator. */
  lemma IntToStringPlain(i: int)
    ensures '|' !in IntToString(i) && ':' !in IntToString(i)
  {
    var r := IntToString(i);
    if i >= 0 {
      assert forall k :: 0 <= k < |r| ==> IsDigit(r[k]);
    } else {
      assert r == "-" + NatToString(-i);
      assert forall k :: 1 <= k < |r| ==> IsDigit(r[k]);
    }
  }

  /** Python's `s.startswith(p)`. */
  predicate StartsWith(s: string, p: string)
  {
    |p| <= |s| && s[..|p|] == p
  }

  /** Strings whose first characters differ do not start one with the other. */
  lemma FirstCharNotStartsWith(s: string, p: string)
    requires |s| > 0 && |p| > 0 && s[0] != p[0]
    ensures !StartsWith(s, p)
  {
    if |p| <= |s| {
      assert s[..|p|][0] == s[0];
    }
  }
}
