/**
 * The .NET string helpers the AI pipeline relies on: string.IsNullOrWhiteSpace,
 * string.IsNullOrEmpty, ToLower, Contains and Path.GetExtension.
 */
module Text {
  import opened Wrappers

  /** char.IsWhiteSpace: the Unicode space, line and paragraph separators, U+0009..U+000D and U+0085. */
  predicate IsWhiteSpace(c: char)
  {
    var n := c as int;
    (0x09 <= n <= 0x0D) || n == 0x20 || n == 0x85 || n == 0xA0 || n == 0x1680
    || (0x2000 <= n <= 0x200A) || n == 0x2028 || n == 0x2029 || n == 0x202F
    || n == 0x205F || n == 0x3000
  }

  /** string.IsNullOrWhiteSpace: null, empty, or white space only. */
  predicate IsNullOrWhiteSpace(s: Option<string>)
  {
    s.None? || forall i :: 0 <= i < |s.value| ==> IsWhiteSpace(s.value[i])
  }

  /** string.IsNullOrEmpty */
  predicate IsNullOrEmpty(s: Option<string>)
  {
    s.None? || s.value == ""
  }

  /** The upper-case letters this model lowers: ASCII A-Z and the Latin-1 letters U+00C0..U+00DE but U+00D7. */
  predicate IsUpper(c: char)
  {
    ('A' <= c <= 'Z') || ('\U{C0}' <= c <= '\U{DE}' && c != '\U{D7}')
  }

  function LowerChar(c: char): (r: char)
    ensures !IsUpper(r)
    ensures !IsUpper(c) ==> r == c
  {
    if IsUpper(c) then (c as int + 32) as char else c
  }

  /** String.ToLower, restricted to the letters IsUpper names. */
  function Lower(s: string): (r: string)
    ensures |r| == |s|
  {
    if s == [] then [] else [LowerChar(s[0])] + Lower(s[1..])
  }

  lemma {:induction false} LowerAt(s: string, i: nat)
    requires i < |s|
    ensures Lower(s)[i] == LowerChar(s[i])
  {
    if i > 0 {
      LowerAt(s[1..], i - 1);
    }
  }

  /** Lowering twice is lowering once: matching on Lower(p) ignores the case of p. */
  lemma LowerIdempotent(s: string)
    ensures Lower(Lower(s)) == Lower(s)
  {
    forall i | 0 <= i < |s|
      ensures Lower(Lower(s))[i] == Lower(s)[i]
    {
      LowerAt(s, i);
      LowerAt(Lower(s), i);
    }
  }

  /** A string without upper-case letters is its own lower-case form. */
  lemma {:induction false} LowerKeeps(s: string)
    requires forall i :: 0 <= i < |s| ==> !IsUpper(s[i])
    ensures Lower(s) == s
  {
    if s != [] {
      LowerKeeps(s[1..]);
    }
  }

  /** String.Contains (ordinal): t occurs in s at some position. */
  function Contains(s: string, t: string): bool
    decreases |s|
  {
    |t| <= |s| && (s[..|t|] == t || Contains(s[1..], t))
  }

  /** t occurs in s starting at position i. */
  predicate OccursAt(s: string, t: string, i: int)
  {
    0 <= i <= |s| - |t| && s[i..i + |t|] == t
  }

  /** Contains agrees with "t occurs at some position of s". */
  lemma {:induction false} ContainsIff(s: string, t: string)
    ensures Contains(s, t) <==> exists i :: OccursAt(s, t, i)
    decreases |s|
  {
    if |t| <= |s| {
      if s[..|t|] != t {
        ContainsIff(s[1..], t);
        if exists i :: OccursAt(s, t, i) {
          var i :| OccursAt(s, t, i);
          assert i > 0;
          assert OccursAt(s[1..], t, i - 1);
        }
        if Contains(s[1..], t) {
          var i :| OccursAt(s[1..], t, i);
          assert OccursAt(s, t, i + 1);
        }
      } else {
        assert OccursAt(s, t, 0);
      }
    }
  }

  /** A string contains whatever was concatenated into it. */
  lemma ContainsConcat(a: string, t: string, b: string)
    ensures Contains(a + t + b, t)
  {
    var s := a + t + b;
    assert OccursAt(s, t, |a|);
    ContainsIff(s, t);
  }

  lemma ContainsAt(s: string, t: string, i: nat)
    requires i + |t| <= |s| && s[i..i + |t|] == t
    ensures Contains(s, t)
  {
    assert OccursAt(s, t, i);
    ContainsIff(s, t);
  }

  /** A string in which t's first character never occurs does not contain t. */
  lemma {:induction false} FirstCharAbsent(s: string, t: string)
    requires |t| > 0
    requires forall i :: 0 <= i < |s| ==> s[i] != t[0]
    ensures !Contains(s, t)
    decreases |s|
  {
    if |t| <= |s| {
      assert s[..|t|][0] == s[0];
      FirstCharAbsent(s[1..], t);
    }
  }

  predicate IsDirectorySeparator(c: char)
  {
    c == '/' || c == '\\'
  }

  /** Position k holds the dot that starts the extension of path. */
  predicate IsExtensionDot(path: string, k: int)
  {
    0 <= k < |path| - 1 && path[k] == '.'
    && forall j :: k < j < |path| ==> path[j] != '.' && !IsDirectorySeparator(path[j])
  }

  /**
   * Path.GetExtension: scanning from the end, the suffix from the last '.' that comes
   * after every directory separator, or "" when there is none or the '.' is last.
   */
  function Extension(path: string): string
  {
    ExtensionBefore(path, |path|)
  }

  function ExtensionBefore(path: string, i: nat): string
    requires i <= |path|
    decreases i
  {
    if i == 0 then ""
    else if path[i - 1] == '.' then (if i - 1 != |path| - 1 then path[i - 1..] else "")
    else if IsDirectorySeparator(path[i - 1]) then ""
    else ExtensionBefore(path, i - 1)
  }

  lemma {:induction false} ExtensionBeforeSpec(path: string, i: nat)
    requires i <= |path|
    requires forall j :: i <= j < |path| ==> path[j] != '.' && !IsDirectorySeparator(path[j])
    ensures ExtensionBefore(path, i) != "" <==> exists k :: IsExtensionDot(path, k)
    ensures forall k :: IsExtensionDot(path, k) ==> ExtensionBefore(path, i) == path[k..]
    decreases i
  {
    if i == 0 {
    } else if path[i - 1] == '.' {
      forall k | IsExtensionDot(path, k) ensures k == i - 1 { }
      if i - 1 != |path| - 1 {
        assert IsExtensionDot(path, i - 1);
      }
    } else if IsDirectorySeparator(path[i - 1]) {
      forall k | IsExtensionDot(path, k) ensures false { }
    } else {
      ExtensionBeforeSpec(path, i - 1);
    }
  }

  /** The extension exists exactly when there is an extension dot, and then it is the suffix from that dot. */
  lemma ExtensionSpec(path: string)
    ensures Extension(path) != "" <==> exists k :: IsExtensionDot(path, k)
    ensures forall k :: IsExtensionDot(path, k) ==> Extension(path) == path[k..]
  {
    ExtensionBeforeSpec(path, |path|);
  }
}
