/** Text as a sequence of characters, for any rule that says how long the character at the front is. Instantiated
    with UTF-8 in Diagnostic. */
module Runes {
  import opened Bytes

  /** The length of the character at the front, 0 when there is none. */
  type Scan = seq<byte> -> nat

  /** Characters have at most four octets, and only their own octets matter. */
  ghost predicate Local(len: Scan) {
    && (forall s: seq<byte> :: len(s) <= 4 && len(s) <= |s|)
    && (forall s: seq<byte>, rest: seq<byte> {:trigger len(s[..len(s)] + rest)} :: len(s) > 0 ==> len(s[..len(s)] + rest) == len(s))
  }

  predicate Valid(len: Scan, s: seq<byte>) { s == [] || (0 < len(s) <= |s| && Valid(len, s[len(s)..])) }

  lemma FrontThenRest(len: Scan, rune: seq<byte>, rest: seq<byte>)
    requires Local(len) && rune != [] && len(rune) == |rune|
    ensures Valid(len, rune + rest) <==> Valid(len, rest)
  {
    assert rune[..len(rune)] + rest == rune + rest;
    assert (rune + rest)[|rune|..] == rest;
  }

  lemma FirstRune(len: Scan, s: seq<byte>)
    requires Local(len) && len(s) > 0
    ensures len(s[..len(s)]) == len(s) == |s[..len(s)]|
  {
    assert s[..len(s)] + [] == s[..len(s)];
    assert len(s[..len(s)] + []) == len(s);
  }

  // ----- Cleaning -----

  /** Every run of stray octets becomes one replacement; `inRun` says that such a run is going on. */
  function Clean(len: Scan, replacement: seq<byte>, s: seq<byte>, inRun: bool): seq<byte>
    decreases |s|
  {
    if s == [] then []
    else if 0 < len(s) <= |s| then s[..len(s)] + Clean(len, replacement, s[len(s)..], false)
    else (if inRun then [] else replacement) + Clean(len, replacement, s[1..], true)
  }

  lemma {:induction false} CleanIsValid(len: Scan, replacement: seq<byte>, s: seq<byte>, inRun: bool)
    requires Local(len) && replacement != [] && len(replacement) == |replacement|
    ensures Valid(len, Clean(len, replacement, s, inRun))
    decreases |s|
  {
    if s != [] {
      if len(s) > 0 {
        CleanIsValid(len, replacement, s[len(s)..], false);
        FirstRune(len, s);
        FrontThenRest(len, s[..len(s)], Clean(len, replacement, s[len(s)..], false));
      } else {
        var rest := Clean(len, replacement, s[1..], true);
        CleanIsValid(len, replacement, s[1..], true);
        FrontThenRest(len, replacement, rest);
        assert [] + rest == rest;
      }
    }
  }

  /** Valid text is left alone. */
  lemma {:induction false} CleanKeepsValid(len: Scan, replacement: seq<byte>, s: seq<byte>, inRun: bool)
    requires Valid(len, s)
    ensures Clean(len, replacement, s, inRun) == s
    decreases |s|
  {
    if s != [] {
      CleanKeepsValid(len, replacement, s[len(s)..], false);
      assert s == s[..len(s)] + s[len(s)..];
    }
  }

  ghost predicate Lacks(s: seq<byte>, b: byte) { forall i :: 0 <= i < |s| ==> s[i] != b }

  /** Cleaning brings in no octet but the replacement's. */
  lemma {:induction false} CleanAddsNone(len: Scan, replacement: seq<byte>, s: seq<byte>, inRun: bool, b: byte)
    requires Lacks(s, b) && Lacks(replacement, b)
    ensures Lacks(Clean(len, replacement, s, inRun), b)
    decreases |s|
  {
    if s != [] {
      if 0 < len(s) <= |s| {
        CleanAddsNone(len, replacement, s[len(s)..], false, b);
      } else {
        CleanAddsNone(len, replacement, s[1..], true, b);
      }
    }
  }

  /** The first n octets are a run of stray ones, and the run ends there. */
  ghost predicate StrayRun(len: Scan, s: seq<byte>, n: nat) {
    0 < n <= |s| && (forall k :: 0 <= k < n ==> len(s[k..]) == 0) && (s[n..] == [] || len(s[n..]) > 0)
  }

  /** A whole run of stray octets becomes one replacement. */
  lemma {:induction false} CleanRun(len: Scan, replacement: seq<byte>, s: seq<byte>, n: nat, inRun: bool)
    requires Local(len) && StrayRun(len, s, n)
    ensures Clean(len, replacement, s, inRun) == (if inRun then [] else replacement) + Clean(len, replacement, s[n..], false)
    decreases n
  {
    assert s[0..] == s;
    if n > 1 {
      forall k | 0 <= k < n - 1 ensures len(s[1..][k..]) == 0 { assert s[1..][k..] == s[k + 1..]; }
      assert s[1..][n - 1..] == s[n..];
      CleanRun(len, replacement, s[1..], n - 1, true);
    }
  }

  /** A character stays as it is. */
  lemma CleanRune(len: Scan, replacement: seq<byte>, s: seq<byte>, inRun: bool)
    requires Local(len) && s != [] && len(s) > 0
    ensures Clean(len, replacement, s, inRun) == s[..len(s)] + Clean(len, replacement, s[len(s)..], false)
  {
  }

  /** One round of the copying loop: what to copy, and how far to move. */
  function Piece(len: Scan, replacement: seq<byte>, rest: seq<byte>, inRun: bool): seq<byte> {
    if 0 < len(rest) <= |rest| then rest[..len(rest)] else if inRun then [] else replacement
  }

  function Width(len: Scan, rest: seq<byte>): nat { if 0 < len(rest) <= |rest| then len(rest) else 1 }

  lemma CleanNext(len: Scan, replacement: seq<byte>, done: seq<byte>, s: seq<byte>, i: nat, inRun: bool)
    requires Local(len) && i < |s|
    ensures var rest := s[i..];
            var next := i + Width(len, rest);
            && next <= |s|
            && done + Clean(len, replacement, rest, inRun)
               == done + Piece(len, replacement, rest, inRun) + Clean(len, replacement, s[next..], len(rest) == 0)
  {
    var rest := s[i..];
    assert rest[Width(len, rest)..] == s[i + Width(len, rest)..];
  }

  method Sanitise(len: Scan, replacement: seq<byte>, s: seq<byte>) returns (r: seq<byte>)
    requires Local(len)
    ensures r == Clean(len, replacement, s, false)
  {
    r := [];
    var i, inRun := 0, false;
    assert s[0..] == s;
    while i < |s|
      invariant 0 <= i <= |s| && r + Clean(len, replacement, s[i..], inRun) == Clean(len, replacement, s, false)
    {
      var rest := s[i..];
      CleanNext(len, replacement, r, s, i, inRun);
      r := r + Piece(len, replacement, rest, inRun);
      i, inRun := i + Width(len, rest), len(rest) == 0;
    }
  }

  // ----- Bounding -----

  /** The longest prefix of text that is whole characters and fits the bound. */
  ghost predicate LongestFit(len: Scan, r: seq<byte>, text: seq<byte>, bound: int) {
    && r <= text && Valid(len, r) && |r| <= bound
    && forall m {:trigger text[..m]} :: |r| < m <= |text| && m <= bound ==> !Valid(len, text[..m])
  }

  /** Where the last character that fits ends. */
  function Boundary(len: Scan, s: seq<byte>, bound: nat): (m: nat)
    ensures m <= bound && m <= |s|
    decreases |s|
  {
    if !(0 < len(s) <= |s|) || len(s) > bound then 0 else len(s) + Boundary(len, s[len(s)..], bound - len(s))
  }

  /** It ends a whole character, at most three octets short of the bound. */
  lemma {:induction false} BoundaryIsNear(len: Scan, s: seq<byte>, bound: nat)
    requires Local(len) && Valid(len, s)
    ensures Valid(len, s[..Boundary(len, s, bound)])
    ensures bound <= |s| ==> Boundary(len, s, bound) >= bound - 3
    decreases |s|
  {
    if s != [] && len(s) <= bound {
      var n, rest := len(s), s[len(s)..];
      BoundaryIsNear(len, rest, bound - n);
      var m := Boundary(len, rest, bound - n);
      FirstRune(len, s);
      FrontThenRest(len, s[..n], rest[..m]);
      assert s[..n + m] == s[..n] + rest[..m];
    }
  }

  /** Shrink octet by octet until what is left is whole characters. */
  method Shrink(len: Scan, text: seq<byte>, bound: nat) returns (r: seq<byte>)
    requires Local(len) && Valid(len, text) && bound < |text|
    ensures LongestFit(len, r, text, bound) && |r| >= bound - 3
  {
    ghost var near := Boundary(len, text, bound);
    BoundaryIsNear(len, text, bound);
    var n := bound;
    while n > 0 && !Valid(len, text[..n])
      invariant near <= n <= bound
      invariant forall m {:trigger text[..m]} :: n < m <= bound ==> !Valid(len, text[..m])
      decreases n
    {
      n := n - 1;
    }
    r := text[..n];
  }
}
