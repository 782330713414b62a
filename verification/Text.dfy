/** Strings as both runtimes see them: trimming and the whitespace each one strips. */
module Text {

  /** Code points removed by Python's `str.strip()`. */
  predicate PythonSpace(c: char) {
    var n := c as int;
    || 0x09 <= n <= 0x0d || 0x1c <= n <= 0x20 || n == 0x85 || n == 0xa0 || n == 0x1680
    || 0x2000 <= n <= 0x200a || n == 0x2028 || n == 0x2029 || n == 0x202f || n == 0x205f || n == 0x3000
  }

  /** One by one: tab to carriage return, the information separators and space, next line, no-break space, the space
      separators, and the line and paragraph separators. */
  lemma PythonSpacesListed(c: char)
    ensures PythonSpace(c) <==>
              c as int in {9, 10, 11, 12, 13, 28, 29, 30, 31, 32, 133, 160, 5760, 8192, 8193, 8194, 8195, 8196, 8197,
                           8198, 8199, 8200, 8201, 8202, 8232, 8233, 8239, 8287, 12288}
  {
  }

  function TrimStart<T>(s: seq<T>, space: T -> bool): seq<T> {
    if s == [] || !space(s[0]) then s else TrimStart(s[1..], space)
  }

  function TrimEnd<T>(s: seq<T>, space: T -> bool): seq<T> {
    if s == [] || !space(s[|s| - 1]) then s else TrimEnd(s[..|s| - 1], space)
  }

  function Trim<T>(s: seq<T>, space: T -> bool): seq<T> {
    TrimEnd(TrimStart(s, space), space)
  }

  lemma {:induction false} TrimStartCutsSpaces<T>(s: seq<T>, space: T -> bool)
    ensures var r := TrimStart(s, space);
            && |r| <= |s| && r == s[|s| - |r|..]
            && (r != [] ==> !space(r[0]))
            && (forall i :: 0 <= i < |s| - |r| ==> space(s[i]))
  {
    if s != [] && space(s[0]) {
      TrimStartCutsSpaces(s[1..], space);
      var r := TrimStart(s[1..], space);
      forall i | 0 <= i < |s| - |r|
        ensures space(s[i])
      {
        assert i > 0 ==> s[i] == s[1..][i - 1];
      }
    }
  }

  lemma {:induction false} TrimEndCutsSpaces<T>(s: seq<T>, space: T -> bool)
    ensures var r := TrimEnd(s, space);
            && r <= s
            && (r != [] ==> !space(r[|r| - 1]))
            && (forall i :: |r| <= i < |s| ==> space(s[i]))
  {
    if s != [] && space(s[|s| - 1]) {
      TrimEndCutsSpaces(s[..|s| - 1], space);
    }
  }

  /** `r` is `s` without its first `k` and its last whitespace elements, and cannot be cut further. */
  ghost predicate CutsSpaces<T>(s: seq<T>, r: seq<T>, space: T -> bool, k: nat) {
    && k + |r| <= |s| && r == s[k..k + |r|]
    && (r != [] ==> !space(r[0]) && !space(r[|r| - 1]))
    && (forall i :: 0 <= i < k || k + |r| <= i < |s| ==> space(s[i]))
  }

  /** Trimming cuts whitespace off both ends, all of it, and nothing else. */
  lemma TrimCutsSpaces<T>(s: seq<T>, space: T -> bool)
    ensures exists k: nat :: CutsSpaces(s, Trim(s, space), space, k)
  {
    var a := TrimStart(s, space);
    TrimStartCutsSpaces(s, space);
    TrimEndCutsSpaces(a, space);
    CutBoth(s, a, Trim(s, space), space);
  }

  lemma CutBoth<T>(s: seq<T>, a: seq<T>, r: seq<T>, space: T -> bool)
    requires |a| <= |s| && a == s[|s| - |a|..] && r <= a
    requires (a != [] ==> !space(a[0])) && (r != [] ==> !space(r[|r| - 1]))
    requires forall i :: 0 <= i < |s| - |a| ==> space(s[i])
    requires forall i :: |r| <= i < |a| ==> space(a[i])
    ensures exists k: nat :: CutsSpaces(s, r, space, k)
  {
    var k: nat := |s| - |a|;
    forall i | k + |r| <= i < |s|
      ensures space(s[i])
    {
      assert s[i] == a[i - k];
    }
    assert CutsSpaces(s, r, space, k);
  }

  lemma {:induction false} TrimShrinks<T>(s: seq<T>, space: T -> bool)
    ensures |Trim(s, space)| <= |s|
  {
    TrimStartCutsSpaces(s, space);
    TrimEndCutsSpaces(TrimStart(s, space), space);
  }

  /** Nothing is left exactly of what is all whitespace. */
  lemma TrimmedAway<T>(s: seq<T>, space: T -> bool)
    ensures Trim(s, space) == [] <==> forall i :: 0 <= i < |s| ==> space(s[i])
  {
    var a := TrimStart(s, space);
    TrimStartCutsSpaces(s, space);
    TrimEndCutsSpaces(a, space);
    if Trim(s, space) != [] {
      assert !space(s[|s| - |a|]);
    }
  }
}
