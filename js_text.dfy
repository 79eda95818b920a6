/**
 * The JavaScript string operations the browser script relies on: `length` (UTF-16 code units),
 * `trim`, `split` on one character, `join`, and rendering a number in a template literal.
 */
module JsText {

  /** `s.length` counts UTF-16 code units: a character outside the Basic Multilingual Plane counts twice. */
  function Utf16Length(s: string): (n: nat)
    ensures n >= |s|
    decreases |s|
  {
    if s == [] then 0 else (if s[0] as int >= 0x10000 then 2 else 1) + Utf16Length(s[1..])
  }

  predicate InBmp(s: string) {
    forall i :: 0 <= i < |s| ==> s[i] as int < 0x10000
  }

  /** JavaScript and Python agree on the length of a string exactly when it stays in the BMP. */
  lemma {:induction false} Utf16LengthIsLenIffBmp(s: string)
    ensures Utf16Length(s) == |s| <==> InBmp(s)
    decreases |s|
  {
    if s != [] {
      Utf16LengthIsLenIffBmp(s[1..]);
      assert forall i :: 0 < i < |s| ==> s[i] == s[1..][i - 1];
    }
  }

  lemma {:induction false} Utf16LengthAppend(a: string, b: string)
    ensures Utf16Length(a + b) == Utf16Length(a) + Utf16Length(b)
    decreases |a|
  {
    if a == [] {
      assert a + b == b;
    } else {
      assert (a + b)[1..] == a[1..] + b;
      Utf16LengthAppend(a[1..], b);
    }
  }

  /** The characters `String.prototype.trim` removes: WhiteSpace and LineTerminator. */
  predicate IsJsSpace(c: char) {
    var n := c as int;
    n == 0x09 || n == 0x0a || n == 0x0b || n == 0x0c || n == 0x0d || n == 0x20 || n == 0xa0
    || n == 0x1680 || 0x2000 <= n <= 0x200a || n == 0x2028 || n == 0x2029 || n == 0x202f
    || n == 0x205f || n == 0x3000 || n == 0xfeff
  }

  function TrimStart(s: string): (r: string)
    ensures |r| <= |s| && r == s[|s| - |r|..]
    ensures r != [] ==> !IsJsSpace(r[0])
    ensures forall i :: 0 <= i < |s| - |r| ==> IsJsSpace(s[i])
    decreases |s|
  {
    if |s| > 0 && IsJsSpace(s[0]) then TrimStart(s[1..]) else s
  }

  function TrimEnd(s: string): (r: string)
    ensures |r| <= |s| && r == s[..|r|]
    ensures r != [] ==> !IsJsSpace(r[|r| - 1])
    ensures forall i :: |r| <= i < |s| ==> IsJsSpace(s[i])
    decreases |s|
  {
    if |s| > 0 && IsJsSpace(s[|s| - 1]) then TrimEnd(s[..|s| - 1]) else s
  }

  /**
   * `s.trim()`: the slice of `s` left once the white space at both ends is removed. Everything
   * before and after the slice is white space, and the slice neither starts nor ends with it.
   */
  function Trim(s: string): (r: string)
    ensures r != [] ==> !IsJsSpace(r[0]) && !IsJsSpace(r[|r| - 1])
    ensures |r| <= |TrimStart(s)| && r == s[|s| - |TrimStart(s)|..|s| - |TrimStart(s)| + |r|]
    ensures forall i :: 0 <= i < |s| - |TrimStart(s)| ==> IsJsSpace(s[i])
    ensures forall i :: |s| - |TrimStart(s)| + |r| <= i < |s| ==> IsJsSpace(s[i])
  {
    TrimEnd(TrimStart(s))
  }

  lemma {:induction false} TrimStartFixed(s: string)
    requires s == [] || !IsJsSpace(s[0])
    ensures TrimStart(s) == s
  {
  }

  lemma {:induction false} TrimEndFixed(s: string)
    requires s == [] || !IsJsSpace(s[|s| - 1])
    ensures TrimEnd(s) == s
  {
  }

  /** Every character of `s` is white space to `trim()`. */
  predicate AllJsSpace(s: string) {
    forall i :: 0 <= i < |s| ==> IsJsSpace(s[i])
  }

  lemma {:induction false} TrimStartPadding(p: string, u: string)
    requires AllJsSpace(p) && (u == [] || !IsJsSpace(u[0]))
    ensures TrimStart(p + u) == u
    decreases |p|
  {
    if p == [] {
      assert p + u == u;
      TrimStartFixed(u);
    } else {
      assert (p + u)[0] == p[0];
      assert (p + u)[1..] == p[1..] + u;
      assert AllJsSpace(p[1..]) by {
        forall i | 0 <= i < |p[1..]| ensures IsJsSpace(p[1..][i]) {
          assert p[1..][i] == p[i + 1];
        }
      }
      TrimStartPadding(p[1..], u);
    }
  }

  lemma {:induction false} TrimEndPadding(u: string, q: string)
    requires AllJsSpace(q) && (u == [] || !IsJsSpace(u[|u| - 1]))
    ensures TrimEnd(u + q) == u
    decreases |q|
  {
    if q == [] {
      assert u + q == u;
      TrimEndFixed(u);
    } else {
      var n := |u + q|;
      assert (u + q)[n - 1] == q[|q| - 1];
      assert (u + q)[..n - 1] == u + q[..|q| - 1];
      var front := q[..|q| - 1];
      assert AllJsSpace(front) by {
        forall i | 0 <= i < |front| ensures IsJsSpace(front[i]) {
          assert front[i] == q[i];
        }
      }
      TrimEndPadding(u, front);
    }
  }

  /**
   * `trim()` removes exactly the white space around a text that neither starts nor ends
   * with white space, however much of it there is.
   */
  lemma TrimPadding(p: string, t: string, q: string)
    requires AllJsSpace(p) && AllJsSpace(q)
    requires t == [] || (!IsJsSpace(t[0]) && !IsJsSpace(t[|t| - 1]))
    ensures Trim(p + t + q) == t
  {
    if t == [] {
      assert p + t + q == (p + q) + t;
      assert AllJsSpace(p + q) by {
        forall i | 0 <= i < |p + q| ensures IsJsSpace((p + q)[i]) {
          if i < |p| { assert (p + q)[i] == p[i]; } else { assert (p + q)[i] == q[i - |p|]; }
        }
      }
      TrimStartPadding(p + q, t);
    } else {
      assert p + t + q == p + (t + q);
      assert (t + q)[0] == t[0];
      TrimStartPadding(p, t + q);
      TrimEndPadding(t, q);
    }
  }

  /** Trimming twice is trimming once. */
  lemma TrimIdempotent(s: string)
    ensures Trim(Trim(s)) == Trim(s)
  {
    var r := Trim(s);
    TrimStartFixed(r);
    TrimEndFixed(r);
  }

  /** `s.split(c)` for a one-character separator: never empty, and no part contains `c`. */
  function Split(s: string, c: char): (parts: seq<string>)
    ensures |parts| >= 1
    ensures forall i :: 0 <= i < |parts| ==> c !in parts[i]
    decreases |s|
  {
    if s == [] then [""]
    else
      var rest := Split(s[1..], c);
      if s[0] == c then [""] + rest
      else
        assert forall i :: 1 <= i < |rest| ==> rest[1..][i - 1] == rest[i];
        [[s[0]] + rest[0]] + rest[1..]
  }

  /** `parts.join(sep)` */
  function Join(sep: string, parts: seq<string>): string
    decreases |parts|
  {
    if parts == [] then ""
    else if |parts| == 1 then parts[0]
    else parts[0] + sep + Join(sep, parts[1..])
  }

  /** Joining the parts of a split with the separator gives back the original string. */
  lemma {:induction false} JoinSplit(s: string, c: char)
    ensures Join([c], Split(s, c)) == s
    decreases |s|
  {
    if s != [] {
      var rest := Split(s[1..], c);
      JoinSplit(s[1..], c);
      if s[0] == c {
        assert Split(s, c) == [""] + rest;
        assert ([""] + rest)[1..] == rest;
      } else {
        var parts := [[s[0]] + rest[0]] + rest[1..];
        assert Split(s, c) == parts;
        if |rest| == 1 {
          assert rest == [rest[0]];
          assert Join([c], rest) == rest[0];
        } else {
          assert parts[1..] == rest[1..];
          assert Join([c], rest) == rest[0] + [c] + Join([c], rest[1..]);
        }
      }
    }
  }

  lemma JoinTwoOrMore(sep: string, parts: seq<string>)
    requires |parts| >= 2
    ensures Join(sep, parts) == parts[0] + sep + Join(sep, parts[1..])
  {
  }

  /** Splitting a text that starts with a separator-free part `a`: `a` is glued to the first part. */
  lemma {:induction false} SplitAfterPlainPrefix(a: string, b: string, c: char)
    requires c !in a
    ensures Split(a + b, c) == [a + Split(b, c)[0]] + Split(b, c)[1..]
    decreases |a|
  {
    if a == [] {
      assert a + b == b;
      assert a + Split(b, c)[0] == Split(b, c)[0];
      assert Split(b, c) == [Split(b, c)[0]] + Split(b, c)[1..];
    } else {
      assert (a + b)[0] == a[0] && (a + b)[1..] == a[1..] + b;
      SplitAfterPlainPrefix(a[1..], b, c);
      assert [a[0]] + (a[1..] + Split(b, c)[0]) == a + Split(b, c)[0];
    }
  }

  /** Splitting the join of separator-free parts gives the parts back. */
  lemma {:induction false} SplitJoin(parts: seq<string>, c: char)
    requires |parts| >= 1 && forall i :: 0 <= i < |parts| ==> c !in parts[i]
    ensures Split(Join([c], parts), c) == parts
    decreases |parts|
  {
    if |parts| == 1 {
      SplitAfterPlainPrefix(parts[0], "", c);
      assert parts[0] + "" == parts[0];
      assert Join([c], parts) == parts[0];
      assert Split(parts[0], c) == [parts[0] + ""];
    } else {
      var rest := Join([c], parts[1..]);
      JoinTwoOrMore([c], parts);
      SplitJoin(parts[1..], c);
      SplitAfterPlainPrefix(parts[0], [c] + rest, c);
      assert ([c] + rest)[0] == c && ([c] + rest)[1..] == rest;
      assert Split([c] + rest, c) == [""] + parts[1..];
      assert parts[0] + [c] + rest == parts[0] + ([c] + rest);
      assert parts[0] + "" == parts[0];
      assert [parts[0]] + parts[1..] == parts;
    }
  }

  /** A number in a template literal: its shortest decimal representation. */
  function NatToDecimal(n: nat): (s: string)
    ensures |s| >= 1
    ensures forall i :: 0 <= i < |s| ==> '0' <= s[i] <= '9'
    ensures |s| > 1 ==> s[0] != '0'
    decreases n
  {
    var d := [(('0' as int) + n % 10) as char];
    if n < 10 then d
    else
      var p := NatToDecimal(n / 10);
      assert (p + d)[0] == p[0];
      p + d
  }

  /** The value of a string of decimal digits. */
  function DecimalValue(s: string): nat
    requires forall i :: 0 <= i < |s| ==> '0' <= s[i] <= '9'
    decreases |s|
  {
    if s == [] then 0 else 10 * DecimalValue(s[..|s| - 1]) + (s[|s| - 1] as int - '0' as int)
  }

  /** Reading back the rendered decimal gives the number. */
  lemma {:induction false} DecimalRoundTrip(n: nat)
    ensures DecimalValue(NatToDecimal(n)) == n
    decreases n
  {
    if n >= 10 {
      DecimalRoundTrip(n / 10);
      var s := NatToDecimal(n);
      assert s[..|s| - 1] == NatToDecimal(n / 10);
    }
  }

  /** Different numbers render differently. */
  lemma DecimalInjective(m: nat, n: nat)
    requires NatToDecimal(m) == NatToDecimal(n)
    ensures m == n
  {
    DecimalRoundTrip(m);
    DecimalRoundTrip(n);
  }
}
