/** The string operations the application relies on: `toLowerCase`, `toUpperCase`,
    `includes` and `trim`, over the ASCII letters and the common white-space characters. */
module Text {

  function LowerChar(c: char): char
  {
    if 'A' <= c <= 'Z' then (c as int + 32) as char else c
  }

  function UpperChar(c: char): char
  {
    if 'a' <= c <= 'z' then (c as int - 32) as char else c
  }

  /** `String.prototype.toLowerCase` on the ASCII letters. */
  function Lower(s: string): (r: string)
    ensures |r| == |s|
    ensures forall i :: 0 <= i < |s| ==> !('A' <= r[i] <= 'Z')
    ensures forall i :: 0 <= i < |s| ==> if 'A' <= s[i] <= 'Z' then r[i] as int == s[i] as int + 32 else r[i] == s[i]
  {
    seq(|s|, i requires 0 <= i < |s| => LowerChar(s[i]))
  }

  /** `String.prototype.toUpperCase` on the ASCII letters. */
  function Upper(s: string): (r: string)
    ensures |r| == |s|
    ensures forall i :: 0 <= i < |s| ==> !('a' <= r[i] <= 'z')
    ensures forall i :: 0 <= i < |s| ==> if 'a' <= s[i] <= 'z' then r[i] as int == s[i] as int - 32 else r[i] == s[i]
  {
    seq(|s|, i requires 0 <= i < |s| => UpperChar(s[i]))
  }

  predicate IsPrefix(p: string, s: string)
  {
    |p| <= |s| && s[..|p|] == p
  }

  /** `s.includes(t)`: `t` occurs in `s` as a contiguous block (the empty string occurs everywhere). */
  predicate Contains(s: string, t: string)
    decreases |s|
  {
    IsPrefix(t, s) || (s != [] && Contains(s[1..], t))
  }

  /** `t` occurs in `s` starting at offset `i`. */
  predicate OccursAt(s: string, t: string, i: int)
  {
    0 <= i && i + |t| <= |s| && s[i..i + |t|] == t
  }

  /** The recursive search finds `t` exactly when some offset of `s` starts a copy of `t`. */
  lemma {:induction false} ContainsAtOffset(s: string, t: string)
    ensures Contains(s, t) <==> exists i :: OccursAt(s, t, i)
  {
    if IsPrefix(t, s) {
      assert OccursAt(s, t, 0);
    } else if s != [] {
      ContainsAtOffset(s[1..], t);
      if exists i :: OccursAt(s, t, i) {
        var i :| OccursAt(s, t, i);
        assert s[1..][i - 1..i - 1 + |t|] == s[i..i + |t|];
        assert OccursAt(s[1..], t, i - 1);
      }
      if exists i :: OccursAt(s[1..], t, i) {
        var i :| OccursAt(s[1..], t, i);
        assert s[1..][i..i + |t|] == s[i + 1..i + 1 + |t|];
        assert OccursAt(s, t, i + 1);
      }
    }
  }

  /** The characters `String.prototype.trim` removes that this model knows about. */
  predicate IsSpace(c: char)
  {
    c == ' ' || c == '\t' || c == '\n' || c == '\r' || c == '\U{000B}' || c == '\U{000C}'
    || c == '\U{00A0}' || c == '\U{FEFF}' || c == '\U{2028}' || c == '\U{2029}'
  }

  function TrimStart(s: string): (r: string)
    ensures |r| <= |s| && r == s[|s| - |r|..]
    ensures r == [] || !IsSpace(r[0])
    ensures s != [] && !IsSpace(s[0]) ==> r == s
  {
    if s != [] && IsSpace(s[0]) then TrimStart(s[1..]) else s
  }

  /** Everything `TrimStart` drops is white space. */
  lemma {:induction false} TrimStartDropsSpaces(s: string)
    ensures forall k :: 0 <= k < |s| - |TrimStart(s)| ==> IsSpace(s[k])
  {
    if s != [] && IsSpace(s[0]) {
      TrimStartDropsSpaces(s[1..]);
      forall k | 1 <= k < |s| - |TrimStart(s)| ensures IsSpace(s[k]) {
        assert s[k] == s[1..][k - 1];
      }
    }
  }

  function TrimEnd(s: string): (r: string)
    ensures |r| <= |s| && r == s[..|r|]
    ensures r == [] || !IsSpace(r[|r| - 1])
  {
    if s != [] && IsSpace(s[|s| - 1]) then TrimEnd(s[..|s| - 1]) else s
  }

  /** Everything `TrimEnd` drops is white space. */
  lemma {:induction false} TrimEndDropsSpaces(s: string)
    ensures forall k :: |TrimEnd(s)| <= k < |s| ==> IsSpace(s[k])
  {
    if s != [] && IsSpace(s[|s| - 1]) {
      TrimEndDropsSpaces(s[..|s| - 1]);
    }
  }

  /** `String.prototype.trim`. */
  function Trim(s: string): (r: string)
    ensures r == [] || (!IsSpace(r[0]) && !IsSpace(r[|r| - 1]))
    ensures |s| - |TrimStart(s)| + |r| <= |s| && r == s[|s| - |TrimStart(s)|..|s| - |TrimStart(s)| + |r|]
  {
    TrimEnd(TrimStart(s))
  }

  /** Trimming drops only white space: the trimmed text is the slice of `s` between its
      leading and its trailing white space. */
  lemma TrimDropsOnlySpaces(s: string)
    ensures forall k :: 0 <= k < |s| - |TrimStart(s)| ==> IsSpace(s[k])
    ensures forall k :: |s| - |TrimStart(s)| + |Trim(s)| <= k < |s| ==> IsSpace(s[k])
  {
    var a := TrimStart(s);
    var start := |s| - |a|;
    TrimStartDropsSpaces(s);
    TrimEndDropsSpaces(a);
    forall k | start + |Trim(s)| <= k < |s| ensures IsSpace(s[k]) {
      assert s[k] == a[k - start];
    }
  }

  lemma {:induction false} TrimStartBlank(s: string)
    requires forall k :: 0 <= k < |s| ==> IsSpace(s[k])
    ensures TrimStart(s) == []
  {
    if s != [] {
      TrimStartBlank(s[1..]);
    }
  }

  /** A trimmed string is empty exactly when the input was nothing but white space. */
  lemma TrimEmptyIffBlank(s: string)
    ensures Trim(s) == [] <==> forall k :: 0 <= k < |s| ==> IsSpace(s[k])
  {
    var a := TrimStart(s);
    TrimStartDropsSpaces(s);
    TrimEndDropsSpaces(a);
    if forall k :: 0 <= k < |s| ==> IsSpace(s[k]) {
      TrimStartBlank(s);
    }
  }
}
