/** The few JavaScript built-ins the FES mock relies on: `undefined` for an
    absent header, `String.prototype.includes` (also what chai's
    `to.contain` does on a string), `indexOf`, and `replace` with a string
    pattern, which replaces only the first occurrence. */
module JsBuiltins {

  /** A value that may be `undefined`, such as an absent request header. */
  datatype Option<+T> = None | Some(value: T) {

    /** The present value, or `default` for `undefined`. This is `x || ''`
        for a string header (an empty string is falsy too, but then both
        sides are `''`), and `${x}` in a template literal with `default`
        `"undefined"`, which is how an absent value is printed there. */
    function GetOr(default: T): T {
      match this
      case Some(v) => v
      case None => default
    }
  }

  /** `sub` occurs in `s` starting at index `i`. */
  ghost predicate OccursAt(s: string, sub: string, i: int) {
    0 <= i && i + |sub| <= |s| && s[i..i + |sub|] == sub
  }

  /** `i` is the first index at which `sub` occurs in `s`. */
  ghost predicate FirstOccurrence(s: string, sub: string, i: int) {
    OccursAt(s, sub, i) && forall j :: 0 <= j < i ==> !OccursAt(s, sub, j)
  }

  /** `s.indexOf(sub, from)` for `from <= |s|`: the first index at or after
      `from` where `sub` occurs, or `None` for JavaScript's `-1`. (For
      `from > |s|` JavaScript answers `|s|` for an empty `sub`; the only
      caller starts at 0.) */
  function IndexOfFrom(s: string, sub: string, from: nat): (r: Option<nat>)
    decreases |s| - from
    ensures r.Some? ==> from <= r.value && OccursAt(s, sub, r.value)
    ensures forall j :: from <= j && (r.None? || j < r.value) ==> !OccursAt(s, sub, j)
  {
    if from + |sub| > |s| then None
    else if s[from..from + |sub|] == sub then Some(from)
    else IndexOfFrom(s, sub, from + 1)
  }

  /** `s.indexOf(sub)`. */
  function IndexOf(s: string, sub: string): (r: Option<nat>)
    ensures r.Some? ==> FirstOccurrence(s, sub, r.value)
    ensures r.None? ==> forall j :: !OccursAt(s, sub, j)
  {
    IndexOfFrom(s, sub, 0)
  }

  /** `s.includes(sub)`, and chai's `expect(s).to.contain(sub)` on a string. */
  function Includes(s: string, sub: string): (b: bool)
    ensures b <==> exists i :: OccursAt(s, sub, i)
  {
    IndexOf(s, sub).Some?
  }

  /** `s.replace(pattern, replacement)` with a string pattern: only the first
      occurrence is replaced, and a string without it comes back unchanged.
      (JavaScript's `$` substitutions in the replacement are not modelled;
      the one caller passes `''`.) */
  function ReplaceFirst(s: string, pattern: string, replacement: string): (r: string)
    ensures !Includes(s, pattern) ==> r == s
    ensures forall i :: FirstOccurrence(s, pattern, i) ==>
              r == s[..i] + replacement + s[i + |pattern|..]
  {
    match IndexOf(s, pattern)
    case None => s
    case Some(i) => s[..i] + replacement + s[i + |pattern|..]
  }

  /** A string that starts with `pattern` loses exactly that prefix. */
  lemma ReplaceFirstAtStart(pattern: string, rest: string, replacement: string)
    ensures ReplaceFirst(pattern + rest, pattern, replacement) == replacement + rest
  {
    var s := pattern + rest;
    assert s[0..|pattern|] == pattern;
    assert FirstOccurrence(s, pattern, 0);
    assert s[|pattern|..] == rest;
  }

  /** Deleting the first occurrence of a non-empty `pattern` leaves nothing
      exactly when the string was empty or was the pattern itself. */
  lemma DeleteFirstEmpty(s: string, pattern: string)
    requires pattern != ""
    ensures ReplaceFirst(s, pattern, "") == "" <==> s == "" || s == pattern
  {
    if s == pattern {
      ReplaceFirstAtStart(pattern, "", "");
      assert pattern + "" == pattern;
    } else {
      match IndexOf(s, pattern)
      case None =>
      case Some(i) =>
        assert OccursAt(s, pattern, i);
        var r := s[..i] + s[i + |pattern|..];
        assert ReplaceFirst(s, pattern, "") == r;
        assert |r| == |s| - |pattern|;
    }
  }
}
