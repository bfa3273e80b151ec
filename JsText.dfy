/** The part of JavaScript's string semantics the command relies on:
    `String.prototype.trim`. */
module JsText {

  /** WhiteSpace and LineTerminator code points of ECMAScript, which `trim`
      removes: tab, line tabulation, form feed, space, no-break space, the
      byte order mark, the other space separators, and the four line
      terminators. */
  predicate IsTrimmable(c: char) {
    c == '\t' || c == '\n' || c == '\U{000B}' || c == '\U{000C}' || c == '\r'
    || c == ' ' || c == '\U{00A0}' || c == '\U{1680}'
    || ('\U{2000}' <= c <= '\U{200A}')
    || c == '\U{2028}' || c == '\U{2029}' || c == '\U{202F}' || c == '\U{205F}'
    || c == '\U{3000}' || c == '\U{FEFF}'
  }

  /** `s` with its leading whitespace removed. */
  function TrimStart(s: string): string {
    if s != [] && IsTrimmable(s[0]) then TrimStart(s[1..]) else s
  }

  /** `s` with its trailing whitespace removed. */
  function TrimEnd(s: string): string {
    if s != [] && IsTrimmable(s[|s| - 1]) then TrimEnd(s[..|s| - 1]) else s
  }

  /** `String.prototype.trim`. */
  function Trim(s: string): string {
    TrimEnd(TrimStart(s))
  }

  /** TrimStart keeps a suffix, drops only whitespace before it, and what it
      keeps does not start with whitespace. */
  lemma {:induction false} TrimStartDropsLeading(s: string)
    ensures var r := TrimStart(s);
      && |r| <= |s| && r == s[|s| - |r|..]
      && (forall k :: 0 <= k < |s| - |r| ==> IsTrimmable(s[k]))
      && (r == [] || !IsTrimmable(r[0]))
    decreases |s|
  {
    if s != [] && IsTrimmable(s[0]) {
      TrimStartDropsLeading(s[1..]);
      var r := TrimStart(s);
      forall k | 1 <= k < |s| - |r|
        ensures IsTrimmable(s[k])
      {
        assert s[k] == s[1..][k - 1];
      }
    }
  }

  /** TrimEnd keeps a prefix, drops only whitespace after it, and what it
      keeps does not end with whitespace. */
  lemma {:induction false} TrimEndDropsTrailing(s: string)
    ensures var r := TrimEnd(s);
      && |r| <= |s| && r == s[..|r|]
      && (forall k :: |r| <= k < |s| ==> IsTrimmable(s[k]))
      && (r == [] || !IsTrimmable(r[|r| - 1]))
    decreases |s|
  {
    if s != [] && IsTrimmable(s[|s| - 1]) {
      TrimEndDropsTrailing(s[..|s| - 1]);
      var r := TrimEnd(s);
      forall k | |r| <= k < |s| - 1
        ensures IsTrimmable(s[k])
      {
        assert s[k] == s[..|s| - 1][k];
      }
    }
  }

  /** `s[i..j]` is what remains of `s` once whitespace is dropped around it. */
  predicate MiddleOf(s: string, i: int, j: int) {
    && 0 <= i <= j <= |s|
    && (forall k :: 0 <= k < i ==> IsTrimmable(s[k]))
    && (forall k :: j <= k < |s| ==> IsTrimmable(s[k]))
  }

  /** Trim keeps a contiguous middle part of its input, drops only
      whitespace around it, and the part it keeps neither starts nor ends
      with whitespace. */
  lemma TrimIsMiddle(s: string)
    ensures exists i, j :: MiddleOf(s, i, j) && Trim(s) == s[i..j]
    ensures Trim(s) == [] || (!IsTrimmable(Trim(s)[0]) && !IsTrimmable(Trim(s)[|Trim(s)| - 1]))
  {
    var t := TrimStart(s);
    TrimStartDropsLeading(s);
    var i := |s| - |t|;
    var j := i + |Trim(s)|;
    TrimEndWithin(s, t, i);
    assert MiddleOf(s, i, j) && Trim(s) == s[i..j];
    TrimEdges(s);
  }

  /** Trimming the end of the suffix `t == s[i..]` keeps `s[i..j]` and drops
      only whitespace after `j`. */
  lemma TrimEndWithin(s: string, t: string, i: nat)
    requires i <= |s| && t == s[i..]
    ensures var j := i + |TrimEnd(t)|;
      j <= |s| && TrimEnd(t) == s[i..j] && forall k :: j <= k < |s| ==> IsTrimmable(s[k])
  {
    var r := TrimEnd(t);
    TrimEndDropsTrailing(t);
    forall k | i + |r| <= k < |s|
      ensures IsTrimmable(s[k])
    {
      assert s[k] == t[k - i];
    }
  }

  lemma TrimEdges(s: string)
    ensures Trim(s) == [] || (!IsTrimmable(Trim(s)[0]) && !IsTrimmable(Trim(s)[|Trim(s)| - 1]))
  {
    var t := TrimStart(s);
    var r := TrimEnd(t);
    TrimStartDropsLeading(s);
    TrimEndDropsTrailing(t);
    if r != [] {
      assert r[0] == t[0];
    }
  }

  /** Trimming twice is trimming once. */
  lemma TrimIdempotent(s: string)
    ensures Trim(Trim(s)) == Trim(s)
  {
    var t := TrimStart(s);
    var r := Trim(s);
    TrimStartDropsLeading(s);
    TrimEndDropsTrailing(t);
    if r != [] {
      assert r[0] == t[0];
      assert TrimStart(r) == r;
      TrimEndDropsTrailing(r);
      assert TrimEnd(r) == r;
    }
  }
}
