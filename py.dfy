/** The few Python built-ins the two interpreters rely on, on `string`s:
    `str.isspace`, `str.lstrip`, `str.rstrip`, `str.strip`, `str.startswith`,
    `str.split(" ", 1)`, `str.isdigit`, `int(...)` on a digit string, the
    clamped slice `s[k:]`, list indexing `xs[i]`, and where a negative slice
    start `xs[-n:]` begins. */
module Py {

  datatype Option<T> = None | Some(value: T)

  /** `c.isspace()`: the characters CPython's `str.strip()` removes. */
  predicate IsSpace(c: char) {
    c == ' ' || ('\t' <= c <= '\r') || ('\U{1C}' <= c <= '\U{1F}')
    || c == '\U{85}' || c == '\U{A0}' || c == '\U{1680}'
    || ('\U{2000}' <= c <= '\U{200A}') || c == '\U{2028}' || c == '\U{2029}'
    || c == '\U{202F}' || c == '\U{205F}' || c == '\U{3000}'
  }

  predicate NoSpace(s: string) {
    forall i :: 0 <= i < |s| ==> !IsSpace(s[i])
  }

  /** `s.lstrip()`: the suffix of `s` left after its leading whitespace. */
  function LStrip(s: string): string
  {
    if |s| > 0 && IsSpace(s[0]) then LStrip(s[1..]) else s
  }

  /** `s.rstrip()`: the prefix of `s` left before its trailing whitespace. */
  function RStrip(s: string): string
  {
    if |s| > 0 && IsSpace(s[|s| - 1]) then RStrip(s[..|s| - 1]) else s
  }

  /** `s.strip()`: whitespace removed at both ends. */
  function Strip(s: string): string {
    RStrip(LStrip(s))
  }

  /** `s.startswith(p)`. */
  predicate StartsWith(s: string, p: string) {
    |p| <= |s| && s[..|p|] == p
  }

  /** `s[k:]` for `k >= 0`: empty once `k` passes the end. */
  function Drop(s: string, k: nat): string {
    if k <= |s| then s[k..] else []
  }

  /** `s.split(" ", 1)`: `None` for the one-element list (no space in `s`),
      otherwise the text before the first space and the text after it. */
  function SplitOnce(s: string): Option<(string, string)> {
    if s == [] then None
    else if s[0] == ' ' then Some(([], s[1..]))
    else match SplitOnce(s[1..])
      case None => None
      case Some((a, b)) => Some(([s[0]] + a, b))
  }

  /** `s.isdigit()`, for the ASCII digits. */
  predicate IsDigit(s: string) {
    |s| > 0 && forall i :: 0 <= i < |s| ==> '0' <= s[i] <= '9'
  }

  /** `int(s)` for a string of ASCII digits. */
  function DigitsValue(s: string): nat
    requires forall i :: 0 <= i < |s| ==> '0' <= s[i] <= '9'
  {
    if s == [] then 0
    else 10 * DigitsValue(s[..|s| - 1]) + (s[|s| - 1] as int - '0' as int)
  }

  /** Where `xs[i]` reads in a list of length `len`: a negative index
      counts from the end; `None` is the `IndexError` outside the list. */
  function ListIndex(len: nat, i: int): (r: Option<nat>)
    ensures r.Some? <==> -(len as int) <= i < len
    ensures r.Some? ==> r.value < len && (r.value == i || r.value == len + i)
  {
    if 0 <= i < len then Some(i)
    else if -(len as int) <= i < 0 then Some(len + i)
    else None
  }

  /** The index at which the slice `xs[-n:]` starts in a list of length `len`:
      Python negates `n`, counts a negative start from the end and clamps it to
      the list, so `n == 0` (and any `n > len`) starts at 0, the whole list. */
  function TailStart(len: nat, n: int): (k: nat)
    ensures k <= len
  {
    if n > 0 then (if n <= len then len - n else 0)
    else if -n <= len then -n else len
  }

  // ----- facts about the built-ins -----

  /** `xs[-n:]` holds the last `n` elements whenever `0 < n <= len`, the whole
      list when `n` is 0 or larger than the list. */
  lemma TailStartCounts(len: nat, n: int)
    ensures 0 < n <= len ==> len - TailStart(len, n) == n
    ensures n == 0 || n > len ==> TailStart(len, n) == 0
  {
  }

  /** `split(" ", 1)` gives one piece exactly when there is no space, and
      otherwise cuts at the first space: the pieces joined by a space give
      back the string, and the first piece holds no space. */
  lemma {:induction false} SplitOnceFacts(s: string)
    ensures var r := SplitOnce(s);
            && (r.None? <==> ' ' !in s)
            && (r.Some? ==> s == r.value.0 + " " + r.value.1 && ' ' !in r.value.0)
  {
    if s != [] && s[0] != ' ' {
      SplitOnceFacts(s[1..]);
      assert s == [s[0]] + s[1..];
      match SplitOnce(s[1..])
      case None =>
      case Some((a, b)) =>
        assert s == ([s[0]] + a) + " " + b;
    }
  }

  /** Splitting `a + " " + b` at its first space gives back `a` and `b` when
      `a` holds no space. */
  lemma {:induction false} SplitOnceOf(a: string, b: string)
    requires ' ' !in a
    ensures SplitOnce(a + " " + b) == Some((a, b))
  {
    var s := a + " " + b;
    if a != [] {
      assert s[1..] == a[1..] + " " + b;
      SplitOnceOf(a[1..], b);
      assert [a[0]] + a[1..] == a;
    }
  }

  /** `lstrip` removes exactly the leading whitespace: what is left is a
      suffix that does not start with whitespace, and everything removed was
      whitespace. */
  lemma {:induction false} LStripFacts(s: string)
    ensures var r := LStrip(s);
            && |r| <= |s|
            && r == s[|s| - |r|..]
            && (r == [] || !IsSpace(r[0]))
            && forall i :: 0 <= i < |s| - |r| ==> IsSpace(s[i])
  {
    if |s| > 0 && IsSpace(s[0]) {
      var t := s[1..];
      LStripFacts(t);
      var r := LStrip(t);
      assert LStrip(s) == r;
      assert r == s[|s| - |r|..];
      forall i | 0 <= i < |s| - |r|
        ensures IsSpace(s[i])
      {
        if i > 0 {
          assert s[i] == t[i - 1];
        }
      }
    }
  }

  /** `rstrip` removes exactly the trailing whitespace. */
  lemma {:induction false} RStripFacts(s: string)
    ensures var r := RStrip(s);
            && |r| <= |s|
            && r == s[..|r|]
            && (r == [] || !IsSpace(r[|r| - 1]))
            && forall i :: |r| <= i < |s| ==> IsSpace(s[i])
  {
    if |s| > 0 && IsSpace(s[|s| - 1]) {
      var t := s[..|s| - 1];
      RStripFacts(t);
      var r := RStrip(t);
      assert RStrip(s) == r;
      assert r == s[..|r|];
      forall i | |r| <= i < |s|
        ensures IsSpace(s[i])
      {
        if i < |s| - 1 {
          assert s[i] == t[i];
        }
      }
    }
  }

  lemma {:induction false} LStripNoSpace(s: string)
    requires s == [] || !IsSpace(s[0])
    ensures LStrip(s) == s
  {
  }

  lemma {:induction false} RStripNoSpace(s: string)
    requires s == [] || !IsSpace(s[|s| - 1])
    ensures RStrip(s) == s
  {
  }

  /** A name with no whitespace at its ends strips to itself. */
  lemma StripNoSpace(s: string)
    requires NoSpace(s)
    ensures Strip(s) == s
  {
    LStripNoSpace(s);
    RStripNoSpace(s);
  }

  /** Stripping a word followed by its line terminator gives the word. */
  lemma {:induction false} StripLine(s: string)
    requires NoSpace(s)
    ensures Strip(s + "\n") == s
  {
    var t := s + "\n";
    if s == [] {
      assert LStrip(t) == LStrip([]) == [];
    } else {
      assert t[0] == s[0];
      LStripNoSpace(t);
      assert t[..|t| - 1] == s;
      RStripNoSpace(s);
    }
  }

  /** Stripping changes nothing the second time. */
  lemma {:induction false} StripIdempotent(s: string)
    ensures Strip(Strip(s)) == Strip(s)
  {
    var l := LStrip(s);
    var r := Strip(s);
    LStripFacts(s);
    RStripFacts(l);
    if r != [] {
      assert r[0] == l[0];
      LStripNoSpace(r);
      RStripNoSpace(r);
    }
  }

  /** `l.lstrip().strip() == l.strip()`. */
  lemma {:induction false} StripOfLStrip(s: string)
    ensures Strip(LStrip(s)) == Strip(s)
  {
    LStripFacts(s);
    LStripNoSpace(LStrip(s));
  }
}
