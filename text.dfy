/** String operations of the JavaScript runtime: `trim` and `toUpperCase`. */
module Text {

  /** The characters `String.prototype.trim` removes: WhiteSpace and LineTerminator
      of ECMAScript (section 12.2 and 12.3 of ECMA-262). */
  predicate IsSpace(c: char) {
    || c == ' ' || c == '\t' || c == '\n' || c == '\r'
    || c == '\U{000B}' || c == '\U{000C}' || c == '\U{00A0}' || c == '\U{FEFF}'
    || c == '\U{1680}' || ('\U{2000}' <= c <= '\U{200A}')
    || c == '\U{2028}' || c == '\U{2029}' || c == '\U{202F}' || c == '\U{205F}'
    || c == '\U{3000}'
  }

  /** A string `trim` reduces to "" (empty, or whitespace only). */
  predicate IsBlank(s: string) {
    forall i :: 0 <= i < |s| ==> IsSpace(s[i])
  }

  /** Neither end of `s` is whitespace. */
  predicate IsTrimmed(s: string) {
    s == [] || (!IsSpace(s[0]) && !IsSpace(s[|s| - 1]))
  }

  function TrimStart(s: string): (r: string)
    ensures |r| <= |s| && r == s[|s| - |r|..]
    ensures forall i :: 0 <= i < |s| - |r| ==> IsSpace(s[i])
    ensures r == [] || !IsSpace(r[0])
  {
    if s == [] || !IsSpace(s[0]) then s else TrimStart(s[1..])
  }

  function TrimEnd(s: string): (r: string)
    ensures |r| <= |s| && r == s[..|r|]
    ensures forall i :: |r| <= i < |s| ==> IsSpace(s[i])
    ensures r == [] || !IsSpace(r[|r| - 1])
  {
    if s == [] || !IsSpace(s[|s| - 1]) then s else TrimEnd(s[..|s| - 1])
  }

  /** `s.trim()`: `s` without its leading and trailing whitespace. */
  function Trim(s: string): (r: string)
    ensures IsTrimmed(r)
    ensures r == [] <==> IsBlank(s)
    ensures |r| <= |s|
    ensures IsTrimmed(s) ==> r == s
  {
    var t := TrimStart(s);
    BlankAfterTrimStart(s, t);
    TrimEnd(t)
  }

  /** `Trim` keeps a slice of its input and drops only whitespace around it. */
  lemma TrimKeepsSlice(s: string)
    ensures exists k :: KeptSlice(s, Trim(s), k)
  {
    var t := TrimStart(s);
    TrimIsSlice(s, t, TrimEnd(t));
    assert KeptSlice(s, Trim(s), |s| - |t|);
  }

  /** `r` is the slice of `s` from `k`, and everything of `s` around it is
      whitespace. */
  predicate KeptSlice(s: string, r: string, k: nat) {
    && k + |r| <= |s| && r == s[k..k + |r|]
    && (forall i :: 0 <= i < k ==> IsSpace(s[i]))
    && (forall i :: k + |r| <= i < |s| ==> IsSpace(s[i]))
  }

  /** Dropping whitespace from the front of `s` to get `t`, then from the back of
      `t` to get `r`, keeps a slice of `s`. */
  lemma TrimIsSlice(s: string, t: string, r: string)
    requires |t| <= |s| && t == s[|s| - |t|..]
    requires forall i :: 0 <= i < |s| - |t| ==> IsSpace(s[i])
    requires |r| <= |t| && r == t[..|r|]
    requires forall i :: |r| <= i < |t| ==> IsSpace(t[i])
    ensures KeptSlice(s, r, |s| - |t|)
  {
    var k := |s| - |t|;
    assert r == s[k..k + |r|] by {
      forall i | 0 <= i < |r| ensures r[i] == s[k + i] {
        assert r[i] == t[i];
      }
    }
    forall i | k + |r| <= i < |s| ensures IsSpace(s[i]) {
      assert s[i] == t[i - k];
    }
  }

  lemma BlankAfterTrimStart(s: string, t: string)
    requires t == TrimStart(s)
    ensures TrimEnd(t) == [] <==> IsBlank(s)
    ensures IsTrimmed(s) ==> TrimEnd(t) == s
  {
    // a non-empty TrimStart result starts with a non-space, so TrimEnd keeps it
    // non-empty; hence an empty result means t == [] and s was all whitespace
    if t != [] {
      assert TrimEnd(t)[0] == t[0];
    }
  }

  /** `toUpperCase` on one character, for the ASCII letters. */
  function UpperChar(c: char): (u: char)
    ensures IsSpace(u) <==> IsSpace(c)
    ensures !('a' <= u <= 'z')
    ensures 'a' <= c <= 'z' ==> u as int == c as int - 32
    ensures !('a' <= c <= 'z') ==> u == c
  {
    if 'a' <= c <= 'z' then (c as int - 32) as char else c
  }

  /** `s.toUpperCase()`, ASCII letters only. */
  function ToUpper(s: string): (r: string)
    ensures |r| == |s|
    ensures forall i :: 0 <= i < |s| ==> r[i] == UpperChar(s[i])
  {
    if s == [] then [] else [UpperChar(s[0])] + ToUpper(s[1..])
  }

  /** Upper-casing keeps a trimmed string trimmed and is idempotent. */
  lemma {:induction false} ToUpperIdempotent(s: string)
    ensures ToUpper(ToUpper(s)) == ToUpper(s)
    ensures IsTrimmed(s) ==> IsTrimmed(ToUpper(s))
    ensures IsBlank(ToUpper(s)) <==> IsBlank(s)
  {
    var u := ToUpper(s);
    assert forall i :: 0 <= i < |s| ==> UpperChar(u[i]) == u[i];
    if s != [] {
      assert IsSpace(u[0]) <==> IsSpace(s[0]);
      assert IsSpace(u[|s| - 1]) <==> IsSpace(s[|s| - 1]);
    }
    assert IsBlank(u) ==> IsBlank(s) by {
      if IsBlank(u) {
        forall i | 0 <= i < |s| ensures IsSpace(s[i]) { assert IsSpace(u[i]); }
      }
    }
  }
}
