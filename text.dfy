/**
 * The handful of Python string and path operations the bot and the stream
 * controller rely on: `str.lower`, `str.endswith`, `str.startswith`,
 * `str.strip`, `str.split(sep)[1]` and the two-argument `os.path.join`
 * (POSIX flavour).
 */
module Text {
  import opened Wrappers

  // ---------------------------------------------------------------------
  // Prefixes, suffixes and case
  // ---------------------------------------------------------------------

  predicate StartsWith(s: string, prefix: string) {
    |prefix| <= |s| && s[..|prefix|] == prefix
  }

  predicate EndsWith(s: string, suffix: string) {
    |suffix| <= |s| && s[|s| - |suffix|..] == suffix
  }

  /** True when `s` ends with at least one of `suffixes` (Python's `endswith` on a tuple). */
  predicate EndsWithAny(s: string, suffixes: seq<string>) {
    exists k :: 0 <= k < |suffixes| && EndsWith(s, suffixes[k])
  }

  /** Case mapping of one character; only the ASCII letters A-Z are mapped. */
  function LowerChar(c: char): (d: char)
    ensures 'A' <= c <= 'Z' ==> 'a' <= d <= 'z'
    ensures !('A' <= c <= 'Z') ==> d == c
  {
    if 'A' <= c <= 'Z' then (c as int - 'A' as int + 'a' as int) as char else c
  }

  /** `s.lower()`, character by character. */
  function Lower(s: string): string
  {
    seq(|s|, i requires 0 <= i < |s| => LowerChar(s[i]))
  }

  /** Lower-casing commutes with taking a suffix, so a suffix test survives it. */
  lemma LowerKeepsSuffix(s: string, suffix: string)
    requires EndsWith(s, suffix)
    ensures EndsWith(Lower(s), Lower(suffix))
  {
    var ls, lsuf := Lower(s), Lower(suffix);
    var n := |s| - |suffix|;
    assert ls[n..] == lsuf by {
      forall i | 0 <= i < |suffix| ensures ls[n..][i] == lsuf[i] {
        assert s[n + i] == s[n..][i];
      }
    }
  }

  /** A text without upper-case ASCII letters is its own lower case. */
  lemma LowerNoUpper(s: string)
    requires forall i :: 0 <= i < |s| ==> !('A' <= s[i] <= 'Z')
    ensures Lower(s) == s
  {
  }

  // ---------------------------------------------------------------------
  // Whitespace stripping, as Python's argument-less `str.strip`
  // ---------------------------------------------------------------------

  /** The characters Python's `str.isspace` accepts. */
  predicate IsSpace(c: char) {
    ('\t' <= c <= '\r') || ('\U{1C}' <= c <= ' ') || c == '\U{85}' || c == '\U{A0}'
    || c == '\U{1680}' || ('\U{2000}' <= c <= '\U{200A}') || c == '\U{2028}' || c == '\U{2029}'
    || c == '\U{202F}' || c == '\U{205F}' || c == '\U{3000}'
  }

  predicate AllSpace(s: string) {
    forall i :: 0 <= i < |s| ==> IsSpace(s[i])
  }

  function TrimLeft(s: string): (r: string)
    ensures |r| <= |s| && r == s[|s| - |r|..]
    ensures AllSpace(s[..|s| - |r|])
    ensures r == [] || !IsSpace(r[0])
  {
    if s != [] && IsSpace(s[0]) then TrimLeft(s[1..]) else s
  }

  function TrimRight(s: string): (r: string)
    ensures |r| <= |s| && r == s[..|r|]
    ensures AllSpace(s[|r|..])
    ensures r == [] || !IsSpace(r[|r| - 1])
  {
    if s != [] && IsSpace(s[|s| - 1]) then TrimRight(s[..|s| - 1]) else s
  }

  /** Python's `s.strip()`: drop the leading and trailing whitespace. */
  function Strip(s: string): (r: string)
  {
    TrimRight(TrimLeft(s))
  }

  /** `r` sits at offset `i` of `s`, with only whitespace around it. */
  ghost predicate SpaceAround(s: string, i: nat, r: string) {
    i + |r| <= |s| && s[i..i + |r|] == r && AllSpace(s[..i]) && AllSpace(s[i + |r|..])
  }

  /** What is stripped is exactly a run of whitespace on either side. */
  lemma StripShape(s: string)
    ensures exists i: nat :: SpaceAround(s, i, Strip(s))
  {
    var l := TrimLeft(s);
    var r := TrimRight(l);
    assert r == Strip(s);
    var i := |s| - |l|;
    assert l == s[i..];
    assert r == l[..|r|];
    assert s[i..i + |r|] == r;
    assert s[i + |r|..] == l[|r|..];
    assert SpaceAround(s, i, r);
  }

  /** No more is stripped than the whitespace: the result neither starts nor ends with it. */
  lemma StripEnds(s: string)
    ensures Strip(s) == [] || (!IsSpace(Strip(s)[0]) && !IsSpace(Strip(s)[|Strip(s)| - 1]))
  {
    var l := TrimLeft(s);
    var r := TrimRight(l);
    if r != [] {
      assert r[0] == l[0];
    }
  }

  lemma TrimLeftNoSpace(s: string)
    requires s == [] || !IsSpace(s[0])
    ensures TrimLeft(s) == s
  {
  }

  lemma TrimRightNoSpace(s: string)
    requires s == [] || !IsSpace(s[|s| - 1])
    ensures TrimRight(s) == s
  {
  }

  /** Stripping twice strips nothing more. */
  lemma StripIdempotent(s: string)
    ensures Strip(Strip(s)) == Strip(s)
  {
    var r := Strip(s);
    StripEnds(s);
    TrimLeftNoSpace(r);
    TrimRightNoSpace(r);
  }

  // ---------------------------------------------------------------------
  // Substring search and `data.split(sep)[1]`
  // ---------------------------------------------------------------------

  predicate OccursAt(s: string, sep: string, k: nat) {
    k + |sep| <= |s| && s[k..k + |sep|] == sep
  }

  ghost predicate Contains(s: string, sep: string) {
    exists k: nat :: OccursAt(s, sep, k)
  }

  /** The first position at or after `from` where `sep` occurs in `s`. */
  function FindFrom(s: string, sep: string, from: nat): (r: Option<nat>)
    requires from <= |s|
    ensures r.Some? ==> from <= r.value && OccursAt(s, sep, r.value)
    ensures r.Some? ==> forall k: nat :: from <= k < r.value ==> !OccursAt(s, sep, k)
    ensures r.None? ==> forall k: nat :: from <= k ==> !OccursAt(s, sep, k)
    decreases |s| - from
  {
    if from + |sep| > |s| then None
    else if s[from..from + |sep|] == sep then Some(from)
    else if from == |s| then None
    else FindFrom(s, sep, from + 1)
  }

  /**
   * `data.split(sep)[1]` for a `data` that starts with `sep`: the text
   * between the leading `sep` and the next occurrence of `sep`, or the
   * whole remainder when there is none.
   */
  function FieldAfter(data: string, sep: string): string
    requires |sep| > 0 && StartsWith(data, sep)
  {
    var rest := data[|sep|..];
    match FindFrom(rest, sep, 0)
    case Some(i) => rest[..i]
    case None => rest
  }

  /** The field is a prefix of what follows the leading separator and never contains the separator. */
  lemma FieldAfterShape(data: string, sep: string)
    requires |sep| > 0 && StartsWith(data, sep)
    ensures StartsWith(data[|sep|..], FieldAfter(data, sep))
    ensures !Contains(FieldAfter(data, sep), sep)
  {
    var rest := data[|sep|..];
    var f := FieldAfter(data, sep);
    if k: nat :| OccursAt(f, sep, k) {
      assert f[k..k + |sep|] == rest[k..k + |sep|];
      assert OccursAt(rest, sep, k);
      assert false;
    }
  }

  /** A name without the separator comes back unchanged: `(sep + f).split(sep)[1] == f`. */
  lemma FieldAfterPrefixed(sep: string, f: string)
    requires |sep| > 0 && !Contains(f, sep)
    ensures StartsWith(sep + f, sep) && FieldAfter(sep + f, sep) == f
  {
    assert (sep + f)[..|sep|] == sep;
    assert (sep + f)[|sep|..] == f;
  }

  // ---------------------------------------------------------------------
  // Paths
  // ---------------------------------------------------------------------

  /** Python's `os.path.join(dir, name)` on POSIX. */
  function Join(dir: string, name: string): (p: string)
    ensures StartsWith(name, "/") ==> p == name
    ensures !StartsWith(name, "/") ==> EndsWith(p, name) && StartsWith(p, dir)
  {
    if StartsWith(name, "/") then name
    else if dir == [] || dir[|dir| - 1] == '/' then dir + name
    else dir + "/" + name
  }
}
