/** The few pieces of JavaScript value semantics the server's decisions rest on:
    values that may be `undefined`, truthiness of strings, the `a || b`
    default, `String.prototype.includes` and `Array.prototype.includes` on
    strings. */
module JsValues {

  /** A value that may be `undefined` (None) or present (Some). */
  datatype Option<+T> = None | Some(value: T)

  /** A string-or-undefined value is truthy exactly when it is present and
      not the empty string. */
  predicate Truthy(s: Option<string>)
  {
    s.Some? && s.value != ""
  }

  /** `s || fallback` for a string-or-undefined `s`. */
  function OrElse(s: Option<string>, fallback: string): string
  {
    if Truthy(s) then s.value else fallback
  }

  /** The result of `s || fallback` is never empty when the fallback is not,
      and it is the given value whenever that value is usable. */
  lemma OrElseNonEmpty(s: Option<string>, fallback: string)
    requires fallback != ""
    ensures OrElse(s, fallback) != ""
    ensures s.Some? && s.value != "" ==> OrElse(s, fallback) == s.value
    ensures s == None || s == Some("") ==> OrElse(s, fallback) == fallback
  {
  }

  /** The window of s starting at position i spells p. */
  predicate OccursAt(p: string, s: string, i: int)
  {
    0 <= i <= |s| - |p| && s[i..i + |p|] == p
  }

  /** Reference meaning of "p occurs in s": some window of s equals p. */
  ghost predicate IsSubstring(p: string, s: string)
  {
    exists i :: OccursAt(p, s, i)
  }

  /** `s.includes(p)`: scans s left to right for a window equal to p. */
  function Includes(s: string, p: string): bool
    decreases |s|
  {
    if |p| == 0 then true
    else if |s| < |p| then false
    else if s[..|p|] == p then true
    else Includes(s[1..], p)
  }

  /** The scan finds p exactly when p occurs somewhere in s. */
  lemma {:induction false} IncludesIsSubstring(s: string, p: string)
    ensures Includes(s, p) <==> IsSubstring(p, s)
    decreases |s|
  {
    if |p| == 0 {
      assert OccursAt(p, s, 0);
    } else if |s| < |p| {
    } else if s[..|p|] == p {
      assert OccursAt(p, s, 0);
    } else {
      IncludesIsSubstring(s[1..], p);
      if IsSubstring(p, s[1..]) {
        var i :| OccursAt(p, s[1..], i);
        var window := s[1..][i..i + |p|];
        assert window == s[i + 1..i + 1 + |p|] by {
          forall k | 0 <= k < |p|
            ensures window[k] == s[i + 1..i + 1 + |p|][k]
          {
          }
        }
        assert OccursAt(p, s, i + 1);
      }
      if IsSubstring(p, s) {
        var i :| OccursAt(p, s, i);
        assert i != 0;
        assert s[1..][i - 1..i - 1 + |p|] == s[i..i + |p|];
        assert OccursAt(p, s[1..], i - 1);
      }
    }
  }

  /** A pattern longer than the text never occurs in it. */
  lemma LongPatternNeverIncluded(s: string, p: string)
    requires |s| < |p|
    ensures !IsSubstring(p, s)
  {
    IncludesIsSubstring(s, p);
  }

  /** `xs.includes(x)` on an array of strings: strict equality, element by element. */
  function ListIncludes(xs: seq<string>, x: string): bool
    decreases |xs|
  {
    if |xs| == 0 then false else xs[0] == x || ListIncludes(xs[1..], x)
  }

  /** The element-by-element scan agrees with sequence membership. */
  lemma {:induction false} ListIncludesIsMembership(xs: seq<string>, x: string)
    ensures ListIncludes(xs, x) <==> x in xs
    decreases |xs|
  {
    if |xs| > 0 {
      ListIncludesIsMembership(xs[1..], x);
      assert xs == [xs[0]] + xs[1..];
    }
  }
}
