/**
 * The Python values the core handles: what `json.load`/`json.loads` produce, with Python's
 * truthiness, `len`, and the string methods `lower()` and `strip()` the core calls on them.
 */
module PyValues {
  import opened Wrappers

  /** Python's `json` module also accepts `NaN` and `Infinity`; only the kind of a float matters here. */
  datatype FloatKind = Zero | NonZeroFinite | Infinite | NaN

  datatype Json =
    | JNull
    | JBool(b: bool)
    | JInt(i: int)
    | JFloat(kind: FloatKind)
    | JStr(s: string)
    | JList(items: seq<Json>)
    | JObj(fields: map<string, Json>)

  /** `bool(v)`: empty containers, zero, `False` and `None` are falsy; NaN is truthy. */
  predicate Truthy(v: Json) {
    match v
    case JNull => false
    case JBool(b) => b
    case JInt(i) => i != 0
    case JFloat(k) => k != Zero
    case JStr(s) => s != ""
    case JList(xs) => xs != []
    case JObj(m) => m != map[]
  }

  /** `len(v)`; `None` stands for the TypeError raised on a number, a boolean or `None`. */
  function Len(v: Json): Option<nat> {
    match v
    case JStr(s) => Some(|s|)
    case JList(xs) => Some(|xs|)
    case JObj(m) => Some(|m|)
    case _ => None
  }

  /** `len(v) <= cap` evaluated without an exception. */
  predicate LenAtMost(v: Json, cap: nat) {
    Len(v).Some? && Len(v).value <= cap
  }

  /** The characters for which Python's `str.isspace()` holds. */
  predicate IsPySpace(c: char) {
    var n := c as int;
    n == 0x20 || 0x09 <= n <= 0x0d || 0x1c <= n <= 0x1f || n == 0x85 || n == 0xa0
    || n == 0x1680 || 0x2000 <= n <= 0x200a || n == 0x2028 || n == 0x2029
    || n == 0x202f || n == 0x205f || n == 0x3000
  }

  predicate AllPySpace(s: string) {
    forall i :: 0 <= i < |s| ==> IsPySpace(s[i])
  }

  /** Lower-casing of one character; only the ASCII letters are mapped (see README, Left out). */
  function LowerChar(c: char): char {
    if 'A' <= c <= 'Z' then (c as int + 32) as char else c
  }

  /** `s.lower()` */
  function Lower(s: string): (r: string)
    ensures |r| == |s|
    ensures forall i :: 0 <= i < |s| ==> r[i] == LowerChar(s[i])
  {
    seq(|s|, i requires 0 <= i < |s| => LowerChar(s[i]))
  }

  function StripStart(s: string): string {
    if |s| > 0 && IsPySpace(s[0]) then StripStart(s[1..]) else s
  }

  function StripEnd(s: string): string {
    if |s| > 0 && IsPySpace(s[|s| - 1]) then StripEnd(s[..|s| - 1]) else s
  }

  /** `s.strip()` */
  function Strip(s: string): string {
    StripEnd(StripStart(s))
  }

  /** `s.lower().strip()`, the comparison key of the featured-keyword registry. */
  function Norm(s: string): string {
    Strip(Lower(s))
  }

  lemma {:induction false} LowerAppend(a: string, b: string)
    ensures Lower(a + b) == Lower(a) + Lower(b)
  {
    assert forall i :: 0 <= i < |a + b| ==> Lower(a + b)[i] == (Lower(a) + Lower(b))[i];
  }

  lemma LowerKeepsSpaces(p: string)
    requires AllPySpace(p)
    ensures Lower(p) == p
  {
    assert forall i :: 0 <= i < |p| ==> Lower(p)[i] == p[i];
  }

  lemma {:induction false} StripStartAllSpace(s: string)
    requires AllPySpace(s)
    ensures StripStart(s) == ""
  {
    if |s| > 0 {
      StripStartAllSpace(s[1..]);
    }
  }

  lemma {:induction false} StripStartPrefix(p: string, s: string)
    requires AllPySpace(p)
    ensures StripStart(p + s) == StripStart(s)
  {
    if |p| > 0 {
      assert (p + s)[0] == p[0] && IsPySpace(p[0]);
      assert (p + s)[1..] == p[1..] + s;
      StripStartPrefix(p[1..], s);
    } else {
      assert p + s == s;
    }
  }

  lemma {:induction false} StripStartSuffix(s: string, q: string)
    requires !AllPySpace(s)
    ensures StripStart(s + q) == StripStart(s) + q
  {
    assert |s| > 0;
    if IsPySpace(s[0]) {
      assert (s + q)[1..] == s[1..] + q;
      StripStartSuffix(s[1..], q);
    }
  }

  lemma {:induction false} StripEndSuffix(s: string, q: string)
    requires AllPySpace(q)
    ensures StripEnd(s + q) == StripEnd(s)
  {
    if |q| > 0 {
      assert (s + q)[..|s + q| - 1] == s + q[..|q| - 1];
      StripEndSuffix(s, q[..|q| - 1]);
    } else {
      assert s + q == s;
    }
  }

  /** `strip()` removes whitespace added at either end, whatever the text in between. */
  lemma StripPadding(p: string, t: string, q: string)
    requires AllPySpace(p) && AllPySpace(q)
    ensures Strip(p + t + q) == Strip(t)
  {
    assert p + t + q == p + (t + q);
    StripStartPrefix(p, t + q);
    if AllPySpace(t) {
      assert AllPySpace(t + q);
      StripStartAllSpace(t + q);
      StripStartAllSpace(t);
    } else {
      StripStartSuffix(t, q);
      StripEndSuffix(StripStart(t), q);
    }
  }

  /**
   * Surrounding whitespace never changes the comparison key: `"  K  "`, `"\tK\n"` and `K` are
   * the same keyword to the registry.
   */
  lemma PaddingIgnored(p: string, s: string, q: string)
    requires AllPySpace(p) && AllPySpace(q)
    ensures Norm(p + s + q) == Norm(s)
  {
    LowerAppend(p + s, q);
    LowerAppend(p, s);
    LowerKeepsSpaces(p);
    LowerKeepsSpaces(q);
    assert Lower(p + s + q) == p + Lower(s) + q;
    StripPadding(p, Lower(s), q);
  }
}
