/** Shared value types: Option/Result wrappers and the ASCII string helpers
    that the front end's string predicates are built from. */
module Common {

  datatype Option<+T> = None | Some(value: T)

  datatype Result<+T, +E> = Ok(value: T) | Err(error: E)

  /** `s.startsWith(p)` of JavaScript. */
  predicate StartsWith(s: string, p: string)
  {
    |p| <= |s| && s[..|p|] == p
  }

  /** `s.endsWith(p)`: the regex anchor `$` without the multiline flag. */
  predicate EndsWith(s: string, p: string)
  {
    |p| <= |s| && s[|s| - |p|..] == p
  }

  predicate IsAsciiUpper(c: char)
  {
    'A' <= c <= 'Z'
  }

  function ToLowerAsciiChar(c: char): (r: char)
    ensures IsAsciiUpper(c) ==> r as int == c as int + 32
    ensures !IsAsciiUpper(c) ==> r == c
  {
    if IsAsciiUpper(c) then (c as int + 32) as char else c
  }

  /** Lower-cases the ASCII letters of `s` and leaves every other character alone. */
  function ToLowerAscii(s: string): (r: string)
    ensures |r| == |s|
    ensures forall i :: 0 <= i < |s| ==> r[i] == ToLowerAsciiChar(s[i])
  {
    if s == [] then [] else [ToLowerAsciiChar(s[0])] + ToLowerAscii(s[1..])
  }

  /** Lowering distributes over the suffix taken by `EndsWith`. */
  lemma LowerSuffix(s: string, k: nat)
    requires k <= |s|
    ensures ToLowerAscii(s)[k..] == ToLowerAscii(s[k..])
  {
    var a, b := ToLowerAscii(s)[k..], ToLowerAscii(s[k..]);
    assert |a| == |b|;
    forall i | 0 <= i < |a| ensures a[i] == b[i] {
      assert a[i] == ToLowerAsciiChar(s[k + i]);
    }
  }

  /** Lowering twice is lowering once. */
  lemma LowerIdempotent(s: string)
    ensures ToLowerAscii(ToLowerAscii(s)) == ToLowerAscii(s)
  {
    var l := ToLowerAscii(s);
    forall i | 0 <= i < |s| ensures ToLowerAscii(l)[i] == l[i] {
      assert !IsAsciiUpper(l[i]);
    }
  }
}
