/**
 * The two JavaScript string primitives the pipe protocol relies on:
 * `String.prototype.indexOf` for a single character and
 * `String.prototype.trim`. Strings are sequences of already-decoded
 * characters.
 */
module JsText {

  /** The characters `trim` strips: ECMAScript WhiteSpace and LineTerminator. */
  predicate IsTrimmable(c: char) {
    var n := c as int;
    || n == 0x09 || n == 0x0A || n == 0x0B || n == 0x0C || n == 0x0D
    || n == 0x20 || n == 0xA0 || n == 0x1680
    || (0x2000 <= n <= 0x200A)
    || n == 0x2028 || n == 0x2029 || n == 0x202F || n == 0x205F
    || n == 0x3000 || n == 0xFEFF
  }

  /** `s.indexOf(c)`: the first position holding `c`, or -1 when there is none. */
  function IndexOf(s: string, c: char): (i: int)
    ensures -1 <= i < |s|
    ensures i == -1 <==> c !in s
    ensures 0 <= i ==> s[i] == c && c !in s[..i]
    decreases |s|
  {
    if |s| == 0 then -1
    else if s[0] == c then 0
    else
      var j := IndexOf(s[1..], c);
      if j == -1 then -1
      else
        assert s[..j + 1] == [s[0]] + s[1..][..j];
        j + 1
  }

  /** Drops leading trimmable characters; what is left is a suffix of `s`. */
  function TrimStart(s: string): (r: string)
    ensures |r| <= |s| && r == s[|s| - |r|..]
    ensures forall k :: 0 <= k < |s| - |r| ==> IsTrimmable(s[k])
    ensures r == [] || !IsTrimmable(r[0])
    decreases |s|
  {
    if |s| > 0 && IsTrimmable(s[0]) then TrimStart(s[1..]) else s
  }

  /** Drops trailing trimmable characters; what is left is a prefix of `s`. */
  function TrimEnd(s: string): (r: string)
    ensures |r| <= |s| && r == s[..|r|]
    ensures forall k :: |r| <= k < |s| ==> IsTrimmable(s[k])
    ensures r == [] || !IsTrimmable(r[|r| - 1])
    decreases |s|
  {
    if |s| > 0 && IsTrimmable(s[|s| - 1]) then TrimEnd(s[..|s| - 1]) else s
  }

  /**
   * `r` is `s` from position `i` on, with only trimmable characters cut
   * from either end.
   */
  predicate StrippedAt(s: string, i: int, r: string) {
    && 0 <= i <= |s| - |r| && r == s[i..i + |r|]
    && (forall k :: 0 <= k < i ==> IsTrimmable(s[k]))
    && (forall k :: i + |r| <= k < |s| ==> IsTrimmable(s[k]))
  }

  /** `s.trim()`. */
  function Trim(s: string): (r: string)
    ensures |r| <= |s|
    ensures r == [] <==> forall k :: 0 <= k < |s| ==> IsTrimmable(s[k])
    ensures r != [] ==> !IsTrimmable(r[0]) && !IsTrimmable(r[|r| - 1])
    // Only leading and trailing trimmable characters are removed.
    ensures exists i :: StrippedAt(s, i, r)
  {
    var t := TrimStart(s);
    var r := TrimEnd(t);
    // An all-trimmable `t` would have been emptied by TrimStart already.
    assert r == [] ==> t == [];
    var i := |s| - |t|;
    assert r == s[i..i + |r|];
    forall k | i + |r| <= k < |s|
      ensures IsTrimmable(s[k])
    {
      assert s[k] == t[k - i];
    }
    assert StrippedAt(s, i, r);
    r
  }

  /**
   * The trimmed text begins with the first character of `s` that is not
   * trimmable: this is what `s.trim().startsWith(x)` inspects.
   */
  lemma {:induction false} TrimHead(s: string, k: nat)
    requires k < |s| && !IsTrimmable(s[k])
    requires forall j :: 0 <= j < k ==> IsTrimmable(s[j])
    ensures Trim(s) != [] && Trim(s)[0] == s[k]
  {
    if k == 0 {
      assert TrimStart(s) == s;
    } else {
      assert TrimStart(s) == TrimStart(s[1..]);
      TrimHead(s[1..], k - 1);
    }
  }
}
