/** JavaScript value semantics the page scripts and the proxy rely on:
    optional (possibly undefined or null) properties, truthiness and the
    `||` default idiom, `String.prototype.trim` and `toLowerCase`. */
module Js {

  /** A property that may be undefined or null (None) or hold a value. */
  datatype Option<+T> = None | Some(value: T)

  /** Truthiness of an optional string: undefined, null and '' are falsy. */
  predicate Truthy(v: Option<string>)
    ensures Truthy(v) <==> v != None && v != Some("")
  {
    v.Some? && v.value != ""
  }

  /** Truthiness of an optional numeric identifier: undefined, null and 0 are falsy. */
  predicate IdTruthy(id: Option<int>)
    ensures IdTruthy(id) <==> id != None && id != Some(0)
  {
    id.Some? && id.value != 0
  }

  /** `v || fallback` for a string-valued property. */
  function OrElse(v: Option<string>, fallback: string): (r: string)
    ensures Truthy(v) ==> r == v.value
    ensures !Truthy(v) ==> r == fallback
  {
    if Truthy(v) then v.value else fallback
  }

  /** The characters `trim` removes: ECMAScript WhiteSpace and LineTerminator
      (tab, vertical tab, form feed, space, no-break space, byte order mark,
      the Unicode space separators, line feed, carriage return and the line
      and paragraph separators), by code point. */
  predicate IsJsWhitespace(c: char) {
    var n := c as int;
    n == 0x09 || n == 0x0A || n == 0x0B || n == 0x0C || n == 0x0D ||
    n == 0x20 || n == 0xA0 || n == 0x1680 || (0x2000 <= n <= 0x200A) ||
    n == 0x2028 || n == 0x2029 || n == 0x202F || n == 0x205F ||
    n == 0x3000 || n == 0xFEFF
  }

  predicate AllWhitespace(s: string) {
    forall i :: 0 <= i < |s| ==> IsJsWhitespace(s[i])
  }

  /** Drops leading whitespace: the result is a suffix of s, and what was
      dropped is all whitespace. */
  function TrimStart(s: string): (r: string)
    ensures |r| <= |s| && r == s[|s| - |r|..]
    ensures AllWhitespace(s[..|s| - |r|])
    ensures r == [] || !IsJsWhitespace(r[0])
  {
    if |s| > 0 && IsJsWhitespace(s[0]) then
      var r := TrimStart(s[1..]);
      assert s[..|s| - |r|] == [s[0]] + s[1..][..|s| - 1 - |r|];
      r
    else s
  }

  /** Drops trailing whitespace: the result is a prefix of s, and what was
      dropped is all whitespace. */
  function TrimEnd(s: string): (r: string)
    ensures |r| <= |s| && r == s[..|r|]
    ensures AllWhitespace(s[|r|..])
    ensures r == [] || !IsJsWhitespace(r[|r| - 1])
  {
    if |s| > 0 && IsJsWhitespace(s[|s| - 1]) then
      var r := TrimEnd(s[..|s| - 1]);
      assert s[|r|..] == s[..|s| - 1][|r|..] + [s[|s| - 1]];
      r
    else s
  }

  /** `s.trim()`: no whitespace is left at either end, and the result is
      empty exactly when s is all whitespace. */
  function Trim(s: string): (r: string)
    ensures |r| <= |s|
    ensures r == [] || (!IsJsWhitespace(r[0]) && !IsJsWhitespace(r[|r| - 1]))
    ensures r == [] <==> AllWhitespace(s)
  {
    var t := TrimStart(s);
    var r := TrimEnd(t);
    assert r != [] ==> r[0] == t[0];
    assert AllWhitespace(s) ==> t == [];
    assert r == [] ==> AllWhitespace(s) by {
      if r == [] {
        assert AllWhitespace(t[0..]);
        assert s == s[..|s| - |t|] + t;
      }
    }
    r
  }

  /** `toLowerCase` on one character, restricted to ASCII letters. */
  function LowerChar(c: char): char {
    if 'A' <= c <= 'Z' then (c as int + 32) as char else c
  }

  predicate IsAsciiUpper(c: char) {
    'A' <= c <= 'Z'
  }

  /** `s.toLowerCase()` restricted to ASCII: same length, every upper-case
      ASCII letter replaced by its lower-case letter (32 code points on), no
      upper-case ASCII letter left, every other character kept. */
  function Lower(s: string): (r: string)
    ensures |r| == |s|
    ensures forall i :: 0 <= i < |r| ==> !IsAsciiUpper(r[i])
    ensures forall i :: 0 <= i < |s| && !IsAsciiUpper(s[i]) ==> r[i] == s[i]
    ensures forall i :: 0 <= i < |s| && IsAsciiUpper(s[i]) ==> r[i] as int == s[i] as int + 32
  {
    seq(|s|, i requires 0 <= i < |s| => LowerChar(s[i]))
  }

  /** A prefix r of a suffix t of s, followed in t by whitespace only, is
      an infix of s followed in s by whitespace only. */
  lemma PrefixOfSuffix(s: string, i: nat, t: string, r: string)
    requires i <= |s| && t == s[i..]
    requires |r| <= |t| && r == t[..|r|] && AllWhitespace(t[|r|..])
    ensures i + |r| <= |s| && r == s[i..i + |r|] && AllWhitespace(s[i + |r|..])
  {
    assert t[|r|..] == s[i + |r|..];
  }

  lemma SplitTwice(s: string, i: nat, j: nat)
    requires i <= j <= |s|
    ensures s == s[..i] + s[i..j] + s[j..]
  {
  }

  /** `trim` cuts only whitespace: s is its trimmed value between a
      whitespace prefix and a whitespace suffix. */
  lemma TrimCutsWhitespaceEnds(s: string) returns (pre: string, post: string)
    ensures s == pre + Trim(s) + post
    ensures AllWhitespace(pre) && AllWhitespace(post)
  {
    var t := TrimStart(s);
    var r := Trim(s);
    var i := |s| - |t|;
    PrefixOfSuffix(s, i, t, r);
    pre, post := s[..i], s[i + |r|..];
    SplitTwice(s, i, i + |r|);
  }

  /** Trimming a string that has no whitespace at its ends changes nothing;
      in particular trimming is idempotent. */
  lemma TrimKeepsTrimmed(s: string)
    requires s == [] || (!IsJsWhitespace(s[0]) && !IsJsWhitespace(s[|s| - 1]))
    ensures Trim(s) == s
  {
  }

  lemma TrimIdempotent(s: string)
    ensures Trim(Trim(s)) == Trim(s)
  {
    TrimKeepsTrimmed(Trim(s));
  }

  lemma {:induction false} TrimStartSkipsPadding(pre: string, s: string)
    requires AllWhitespace(pre)
    ensures TrimStart(pre + s) == TrimStart(s)
  {
    if pre != [] {
      assert (pre + s)[1..] == pre[1..] + s;
      TrimStartSkipsPadding(pre[1..], s);
    } else {
      assert pre + s == s;
    }
  }

  lemma {:induction false} TrimStartAppend(s: string, t: string)
    requires !AllWhitespace(s)
    ensures TrimStart(s + t) == TrimStart(s) + t
  {
    assert s != [];
    if IsJsWhitespace(s[0]) {
      assert (s + t)[1..] == s[1..] + t;
      var k :| 0 <= k < |s| && !IsJsWhitespace(s[k]);
      assert s[1..][k - 1] == s[k];
      TrimStartAppend(s[1..], t);
    }
  }

  lemma {:induction false} TrimEndSkipsPadding(s: string, post: string)
    requires AllWhitespace(post)
    ensures TrimEnd(s + post) == TrimEnd(s)
  {
    if post != [] {
      assert (s + post)[..|s + post| - 1] == s + post[..|post| - 1];
      TrimEndSkipsPadding(s, post[..|post| - 1]);
    } else {
      assert s + post == s;
    }
  }

  /** Whitespace padding on either side does not change what `trim` yields. */
  lemma TrimIgnoresPadding(pre: string, s: string, post: string)
    requires AllWhitespace(pre) && AllWhitespace(post)
    ensures Trim(pre + s + post) == Trim(s)
  {
    assert pre + s + post == pre + (s + post);
    TrimStartSkipsPadding(pre, s + post);
    if AllWhitespace(s) {
      assert AllWhitespace(s + post);
      assert TrimStart(s + post) == [];
      assert Trim(s) == [];
    } else {
      TrimStartAppend(s, post);
      TrimEndSkipsPadding(TrimStart(s), post);
    }
  }
}
