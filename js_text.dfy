/**
 * The JavaScript string builtins the application relies on, written out over `seq<char>`:
 * `\s` and `trim`, `replace(/\s+/g, " ")`, `toLowerCase`, `includes`, `startsWith`,
 * `slice`, `Array.prototype.join`, decimal formatting and the string `||` default.
 */
module JsText {
  import opened Wrappers

  /** The characters that `\s` matches and `String.prototype.trim` removes:
      ECMAScript's WhiteSpace and LineTerminator code points. */
  predicate IsSpace(c: char) {
    || c == '\t' || c == '\n' || c == '\U{000B}' || c == '\U{000C}' || c == '\r' || c == ' '
    || c == '\U{00A0}' || c == '\U{1680}' || ('\U{2000}' <= c <= '\U{200A}')
    || c == '\U{2028}' || c == '\U{2029}' || c == '\U{202F}' || c == '\U{205F}'
    || c == '\U{3000}' || c == '\U{FEFF}'
  }

  predicate AllSpace(s: string) {
    forall i :: 0 <= i < |s| ==> IsSpace(s[i])
  }

  /** Leading white space removed. */
  function TrimStart(s: string): string {
    if s != [] && IsSpace(s[0]) then TrimStart(s[1..]) else s
  }

  /** What `TrimStart` removes is a white-space prefix, and what it keeps starts visibly. */
  lemma {:induction false} TrimStartFacts(s: string)
    ensures var r := TrimStart(s);
      && |r| <= |s| && r == s[|s| - |r|..]
      && AllSpace(s[..|s| - |r|])
      && (r != [] ==> !IsSpace(r[0]))
  {
    if s != [] && IsSpace(s[0]) {
      TrimStartFacts(s[1..]);
      var r := TrimStart(s);
      assert s[..|s| - |r|] == [s[0]] + s[1..][..|s| - 1 - |r|];
    }
  }

  /** Trailing white space removed. */
  function TrimEnd(s: string): string {
    if s != [] && IsSpace(s[|s| - 1]) then TrimEnd(s[..|s| - 1]) else s
  }

  /** What `TrimEnd` removes is a white-space suffix, and what it keeps ends visibly. */
  lemma {:induction false} TrimEndFacts(s: string)
    ensures var r := TrimEnd(s);
      && |r| <= |s| && r == s[..|r|]
      && AllSpace(s[|r|..])
      && (r != [] ==> !IsSpace(r[|r| - 1]))
  {
    if s != [] && IsSpace(s[|s| - 1]) {
      TrimEndFacts(s[..|s| - 1]);
      var r := TrimEnd(s);
      assert s[|r|..] == s[..|s| - 1][|r|..] + [s[|s| - 1]];
    }
  }

  /** `s[i..j]` is `s` with its white-space margins cut off. */
  ghost predicate MarginsAt(s: string, i: int, j: int) {
    && 0 <= i <= j <= |s|
    && (forall k :: 0 <= k < i ==> IsSpace(s[k]))
    && (forall k :: j <= k < |s| ==> IsSpace(s[k]))
    && (i < j ==> !IsSpace(s[i]) && !IsSpace(s[j - 1]))
  }

  ghost predicate IsTrimOf(r: string, s: string) {
    exists i, j :: MarginsAt(s, i, j) && r == s[i..j]
  }

  /** A trim is empty exactly when the string is all white space. */
  lemma TrimOfEmpty(r: string, s: string)
    requires IsTrimOf(r, s)
    ensures r == [] <==> AllSpace(s)
  {
    var i, j :| MarginsAt(s, i, j) && r == s[i..j];
    if r != [] {
      assert !IsSpace(s[i]);
    }
  }

  /** `String.prototype.trim`. */
  function Trim(s: string): (r: string)
    ensures IsTrimOf(r, s)
    ensures r != [] ==> !IsSpace(r[0]) && !IsSpace(r[|r| - 1])
    ensures r == [] <==> AllSpace(s)
  {
    TrimMargins(s);
    TrimOfEmpty(TrimEnd(TrimStart(s)), s);
    TrimEnd(TrimStart(s))
  }

  lemma TrimMargins(s: string)
    ensures IsTrimOf(TrimEnd(TrimStart(s)), s)
  {
    var a := TrimStart(s);
    var r := TrimEnd(a);
    TrimStartFacts(s);
    TrimEndFacts(a);
    var i := |s| - |a|;
    SpaceBefore(s, i);
    assert r == s[i..i + |r|];
    assert s[i + |r|..] == a[|r|..];
    SpaceAfter(s, i + |r|);
    assert MarginsAt(s, i, i + |r|);
  }

  /** There is only one way to trim a string. */
  lemma TrimOfUnique(r1: string, r2: string, s: string)
    requires IsTrimOf(r1, s) && IsTrimOf(r2, s)
    ensures r1 == r2
  {
    TrimOfEmpty(r1, s);
    TrimOfEmpty(r2, s);
    var i1, j1 :| MarginsAt(s, i1, j1) && r1 == s[i1..j1];
    var i2, j2 :| MarginsAt(s, i2, j2) && r2 == s[i2..j2];
    if r1 != [] && r2 != [] {
      assert i1 == i2 && j1 == j2;
    }
  }

  lemma SpaceBefore(s: string, i: nat)
    requires i <= |s| && AllSpace(s[..i])
    ensures forall k :: 0 <= k < i ==> IsSpace(s[k])
  {
    forall k | 0 <= k < i ensures IsSpace(s[k]) { assert s[..i][k] == s[k]; }
  }

  lemma SpaceAfter(s: string, j: nat)
    requires j <= |s| && AllSpace(s[j..])
    ensures forall k :: j <= k < |s| ==> IsSpace(s[k])
  {
    forall k | j <= k < |s| ensures IsSpace(s[k]) { assert s[j..][k - j] == s[k]; }
  }

  /** Trimming twice is trimming once. */
  lemma TrimIdempotent(s: string)
    ensures Trim(Trim(s)) == Trim(s)
  {
    var t := Trim(s);
    assert TrimStart(t) == t;
    assert TrimEnd(t) == t;
  }

  /** A string with no white space at either end is its own trim. */
  lemma TrimFixed(s: string)
    requires s != [] ==> !IsSpace(s[0]) && !IsSpace(s[|s| - 1])
    ensures Trim(s) == s
  {
    assert TrimStart(s) == s;
    assert TrimEnd(s) == s;
  }

  /** The non-space characters of `s`, in order. */
  function Visible(s: string): string {
    if s == [] then [] else (if IsSpace(s[0]) then [] else [s[0]]) + Visible(s[1..])
  }

  lemma {:induction false} VisibleAppend(a: string, b: string)
    ensures Visible(a + b) == Visible(a) + Visible(b)
  {
    if a != [] {
      assert (a + b)[0] == a[0];
      assert (a + b)[1..] == a[1..] + b;
      VisibleAppend(a[1..], b);
    } else {
      assert a + b == b;
    }
  }

  lemma {:induction false} VisibleOfSpace(s: string)
    requires AllSpace(s)
    ensures Visible(s) == []
  {
    if s != [] {
      assert AllSpace(s[1..]) by {
        forall k | 0 <= k < |s| - 1 ensures IsSpace(s[1..][k]) { assert s[1..][k] == s[k + 1]; }
      }
      VisibleOfSpace(s[1..]);
    }
  }

  lemma TrimStartKeepsVisible(s: string)
    ensures Visible(TrimStart(s)) == Visible(s)
  {
    var a := TrimStart(s);
    TrimStartFacts(s);
    assert s == s[..|s| - |a|] + a;
    VisibleAppend(s[..|s| - |a|], a);
    VisibleOfSpace(s[..|s| - |a|]);
  }

  lemma TrimEndKeepsVisible(s: string)
    ensures Visible(TrimEnd(s)) == Visible(s)
  {
    var a := TrimEnd(s);
    TrimEndFacts(s);
    assert s == a + s[|a|..];
    VisibleAppend(a, s[|a|..]);
    VisibleOfSpace(s[|a|..]);
  }

  /** Trimming drops white space only. */
  lemma TrimKeepsVisible(s: string)
    ensures Visible(Trim(s)) == Visible(s)
  {
    TrimStartKeepsVisible(s);
    TrimEndKeepsVisible(TrimStart(s));
  }

  /** `s.replace(/\s+/g, " ")`: every maximal run of white space becomes one space. */
  function CollapseSpaces(s: string): (r: string)
    ensures |r| <= |s|
    ensures forall k :: 0 <= k < |r| && IsSpace(r[k]) ==> r[k] == ' '
    ensures forall k :: 0 <= k < |r| - 1 ==> !(IsSpace(r[k]) && IsSpace(r[k + 1]))
    ensures (r == []) == (s == [])
    ensures r != [] ==> (IsSpace(r[0]) <==> IsSpace(s[0]))
    ensures AllSpace(r) <==> AllSpace(s)
    decreases |s|
  {
    if s == [] then []
    else if IsSpace(s[0]) then
      var rest := TrimStart(s);
      TrimStartFacts(s);
      var tail := CollapseSpaces(rest);
      assert AllSpace(s) <==> rest == [] by {
        if rest == [] { assert s[..|s|] == s; } else { assert s[|s| - |rest|] == rest[0]; }
      }
      assert AllSpace(" " + tail) <==> tail == [] by {
        if tail != [] { assert (" " + tail)[1] == tail[0]; }
      }
      " " + tail
    else
      var tail := CollapseSpaces(s[1..]);
      assert !AllSpace([s[0]] + tail) by { assert ([s[0]] + tail)[0] == s[0]; }
      [s[0]] + tail
  }

  /** Collapsing keeps every non-space character, in order. */
  lemma {:induction false} CollapseKeepsVisible(s: string)
    ensures Visible(CollapseSpaces(s)) == Visible(s)
    decreases |s|
  {
    if s == [] {
    } else if IsSpace(s[0]) {
      var rest := TrimStart(s);
      TrimStartFacts(s);
      CollapseKeepsVisible(rest);
      assert s == s[..|s| - |rest|] + rest;
      VisibleAppend(s[..|s| - |rest|], rest);
      VisibleOfSpace(s[..|s| - |rest|]);
      VisibleAppend(" ", CollapseSpaces(rest));
    } else {
      CollapseKeepsVisible(s[1..]);
      VisibleAppend([s[0]], CollapseSpaces(s[1..]));
    }
  }

  /** White space occurs only as single `' '` characters. */
  ghost predicate SingleSpaced(s: string) {
    && (forall k :: 0 <= k < |s| && IsSpace(s[k]) ==> s[k] == ' ')
    && (forall k :: 0 <= k < |s| - 1 ==> !(IsSpace(s[k]) && IsSpace(s[k + 1])))
  }

  /** Every piece of a single-spaced string is single-spaced. */
  lemma SliceSingleSpaced(s: string, i: nat, j: nat)
    requires SingleSpaced(s) && i <= j <= |s|
    ensures SingleSpaced(s[i..j])
  {
    assert forall k :: 0 <= k < j - i ==> s[i..j][k] == s[i + k];
  }

  /** Collapsing changes nothing in a string that is already single-spaced. */
  lemma {:induction false} CollapseSingleSpaced(s: string)
    requires SingleSpaced(s)
    ensures CollapseSpaces(s) == s
    decreases |s|
  {
    if s != [] {
      var t := s[1..];
      SliceSingleSpaced(s, 1, |s|);
      CollapseSingleSpaced(t);
      if IsSpace(s[0]) {
        TrimStartAfterOneSpace(s);
        assert s == [' '] + t;
      } else {
        assert s == [s[0]] + t;
      }
    }
  }

  lemma TrimStartAfterOneSpace(s: string)
    requires s != [] && IsSpace(s[0]) && (|s| > 1 ==> !IsSpace(s[1]))
    ensures TrimStart(s) == s[1..]
  {
    var t := s[1..];
    if t != [] {
      assert t[0] == s[1];
    }
  }

  /** `s.replace(/\s+/g, " ").trim()`: words separated by single spaces, no margins. */
  function NormalizeSpaces(s: string): (r: string)
    ensures SingleSpaced(r)
    ensures r != [] ==> !IsSpace(r[0]) && !IsSpace(r[|r| - 1])
    ensures r == [] <==> AllSpace(s)
    ensures Visible(r) == Visible(s)
  {
    NormalizeSpacesFacts(s);
    Trim(CollapseSpaces(s))
  }

  lemma NormalizeSpacesFacts(s: string)
    ensures var r := Trim(CollapseSpaces(s));
      && SingleSpaced(r)
      && (r != [] ==> !IsSpace(r[0]) && !IsSpace(r[|r| - 1]))
      && (r == [] <==> AllSpace(s))
      && Visible(r) == Visible(s)
  {
    var collapsed := CollapseSpaces(s);
    TrimSingleSpaced(collapsed);
    assert AllSpace(collapsed) <==> AllSpace(s);
    CollapseKeepsVisible(s);
    TrimKeepsVisible(collapsed);
  }

  /** Trimming a single-spaced string leaves it single-spaced. */
  lemma TrimSingleSpaced(s: string)
    requires SingleSpaced(s)
    ensures SingleSpaced(Trim(s))
  {
    var r := Trim(s);
    var i, j :| MarginsAt(s, i, j) && r == s[i..j];
    SliceSingleSpaced(s, i, j);
  }

  /** A single-spaced string without margins is already normalised. */
  lemma NormalizeSpacesFixed(s: string)
    requires SingleSpaced(s) && (s != [] ==> !IsSpace(s[0]) && !IsSpace(s[|s| - 1]))
    ensures NormalizeSpaces(s) == s
  {
    CollapseSingleSpaced(s);
    assert TrimStart(s) == s;
    assert TrimEnd(s) == s;
  }

  /** Normalising twice is normalising once. */
  lemma NormalizeSpacesIdempotent(s: string)
    ensures NormalizeSpaces(NormalizeSpaces(s)) == NormalizeSpaces(s)
  {
    NormalizeSpacesFixed(NormalizeSpaces(s));
  }

  /** `toLowerCase` on one character (ASCII letters only). */
  function LowerChar(c: char): char {
    if 'A' <= c <= 'Z' then (c as int + 32) as char else c
  }

  /** `String.prototype.toLowerCase`, restricted to the ASCII letters. */
  function ToLower(s: string): (r: string)
    ensures |r| == |s|
    ensures forall k :: 0 <= k < |s| ==> r[k] == LowerChar(s[k])
  {
    seq(|s|, k requires 0 <= k < |s| => LowerChar(s[k]))
  }

  /** Lower-casing twice is lower-casing once, and the result has no upper-case ASCII letter. */
  lemma ToLowerIdempotent(s: string)
    ensures ToLower(ToLower(s)) == ToLower(s)
    ensures forall k :: 0 <= k < |s| ==> !('A' <= ToLower(s)[k] <= 'Z')
  {
  }

  /** `s.startsWith(p)`. */
  predicate StartsWith(s: string, p: string) {
    p <= s
  }

  /** `s.includes(sub)`. */
  predicate Includes(s: string, sub: string) {
    StartsWith(s, sub) || (s != [] && Includes(s[1..], sub))
  }

  /** `includes` finds exactly the occurrences of `sub` at some position. */
  lemma {:induction false} IncludesAt(s: string, sub: string, k: nat)
    requires k + |sub| <= |s| && s[k..k + |sub|] == sub
    ensures Includes(s, sub)
  {
    if k > 0 {
      assert s[1..][k - 1..k - 1 + |sub|] == s[k..k + |sub|];
      IncludesAt(s[1..], sub, k - 1);
    } else {
      assert s[..|sub|] == sub;
    }
  }

  /** `s.slice(start, end)`: a negative index counts from the end, and both are clamped. */
  function Slice(s: string, start: int, end: int): (r: string)
    ensures |r| <= |s|
    ensures 0 <= start <= end <= |s| ==> r == s[start..end]
  {
    var from := SliceIndex(start, |s|);
    var to := SliceIndex(end, |s|);
    if from >= to then "" else s[from..to]
  }

  function SliceIndex(rel: int, len: nat): (k: nat)
    ensures k <= len
  {
    if rel < 0 then (if len + rel < 0 then 0 else len + rel) else if rel > len then len else rel
  }

  /** The strings one after another: what `acc += part` leaves after a stream of parts. */
  function Concat(parts: seq<string>): string {
    if parts == [] then "" else Concat(parts[..|parts| - 1]) + parts[|parts| - 1]
  }

  /** The concatenation of one part more. */
  lemma ConcatPrefix(parts: seq<string>, i: nat)
    requires i < |parts|
    ensures Concat(parts[..i + 1]) == Concat(parts[..i]) + parts[i]
  {
    assert parts[..i + 1][..i] == parts[..i];
  }

  /** `parts.join(sep)`. */
  function Join(parts: seq<string>, sep: string): string {
    if |parts| == 0 then "" else if |parts| == 1 then parts[0] else parts[0] + sep + Join(parts[1..], sep)
  }

  /** Joining one more part appends the separator and the part. */
  lemma {:induction false} JoinSnoc(parts: seq<string>, p: string, sep: string)
    requires parts != []
    ensures Join(parts + [p], sep) == Join(parts, sep) + sep + p
  {
    if |parts| > 1 {
      assert (parts + [p])[1..] == parts[1..] + [p];
      JoinSnoc(parts[1..], p, sep);
    }
  }

  function TotalLength(parts: seq<string>): nat {
    if parts == [] then 0 else |parts[0]| + TotalLength(parts[1..])
  }

  /** The joined string holds every part and one separator between neighbours. */
  lemma {:induction false} JoinLength(parts: seq<string>, sep: string)
    ensures |Join(parts, sep)| == TotalLength(parts) + (if parts == [] then 0 else (|parts| - 1) * |sep|)
  {
    if |parts| > 1 { JoinLength(parts[1..], sep); }
  }

  /** JavaScript's `a || b` on a possibly absent string: the empty string is falsy. */
  function Or(a: Option<string>, b: string): (r: string)
    ensures r == b || (a.Some? && r == a.value)
  {
    if a.Some? && a.value != "" then a.value else b
  }

  /** A present, non-empty string is truthy. */
  predicate Truthy(a: Option<string>) {
    a.Some? && a.value != ""
  }

  /** The decimal digits of `n`, as template literals render a non-negative integer. */
  function DecimalString(n: nat): (r: string)
    ensures r != [] && forall k :: 0 <= k < |r| ==> '0' <= r[k] <= '9'
  {
    if n < 10 then [('0' as int + n) as char] else DecimalString(n / 10) + [('0' as int + n % 10) as char]
  }

  /** The number a string of decimal digits denotes. */
  function DecimalValue(s: string): nat
    requires forall k :: 0 <= k < |s| ==> '0' <= s[k] <= '9'
  {
    if s == [] then 0 else 10 * DecimalValue(s[..|s| - 1]) + (s[|s| - 1] as int - '0' as int)
  }

  /** Formatting then reading back yields the number. */
  lemma {:induction false} DecimalRoundTrip(n: nat)
    ensures DecimalValue(DecimalString(n)) == n
  {
    if n >= 10 {
      var d := DecimalString(n / 10);
      var r := d + [('0' as int + n % 10) as char];
      assert r[..|r| - 1] == d;
      DecimalRoundTrip(n / 10);
    }
  }
}
