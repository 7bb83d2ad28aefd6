/** Bounded diagnostics: internal/diagnostic/text.go, the error line of internal/listencontrol/server.go:769-774 and
    the native client's reader (native/listen_interposer.c:273-296). Valid text is UTF-8 as defined in section 4 of
    RFC 3629. */
module Diagnostic {
  import opened Bytes
  import opened Runes

  const REPLACEMENT: seq<byte> := [0xEF, 0xBF, 0xBD]
  const SPACE: byte := 32
  const NEWLINE: byte := 10
  const RETURN: byte := 13
  const MAX_RESPONSE := 255
  const NATIVE_BUFFER := 256

  predicate Tail(b: byte) { 0x80 <= b <= 0xBF }

  predicate TwoBytes(s: seq<byte>) { |s| >= 2 && 0xC2 <= s[0] <= 0xDF && Tail(s[1]) }

  predicate ThreeBytes(s: seq<byte>) {
    && |s| >= 3 && Tail(s[2])
    && ( || (s[0] == 0xE0 && 0xA0 <= s[1] <= 0xBF)
         || (0xE1 <= s[0] <= 0xEC && Tail(s[1]))
         || (s[0] == 0xED && 0x80 <= s[1] <= 0x9F)
         || (0xEE <= s[0] <= 0xEF && Tail(s[1])))
  }

  predicate FourBytes(s: seq<byte>) {
    && |s| >= 4 && Tail(s[2]) && Tail(s[3])
    && ( || (s[0] == 0xF0 && 0x90 <= s[1] <= 0xBF)
         || (0xF1 <= s[0] <= 0xF3 && Tail(s[1]))
         || (s[0] == 0xF4 && 0x80 <= s[1] <= 0x8F))
  }

  /** How many octets the character at the front has; 0 when there is none. */
  function RuneLen(s: seq<byte>): (n: nat)
    ensures n <= 4 && n <= |s|
  {
    if s == [] then 0
    else if s[0] < 0x80 then 1
    else if TwoBytes(s) then 2
    else if ThreeBytes(s) then 3
    else if FourBytes(s) then 4
    else 0
  }

  lemma RuneLenIsLocal()
    ensures Local(RuneLen) && RuneLen(REPLACEMENT) == |REPLACEMENT|
  {
    forall s: seq<byte>, rest: seq<byte> | RuneLen(s) > 0 ensures RuneLen(s[..RuneLen(s)] + rest) == RuneLen(s) { }
  }

  predicate ValidUTF8(s: seq<byte>) { Valid(RuneLen, s) }

  /** strings.ToValidUTF8 with the replacement character. */
  function ToValidUTF8(s: seq<byte>): seq<byte> { Clean(RuneLen, REPLACEMENT, s, false) }

  /** Sanitised text is valid, valid text is unchanged, and no line break comes in. */
  lemma Sanitised(s: seq<byte>)
    ensures ValidUTF8(ToValidUTF8(s)) && (ValidUTF8(s) ==> ToValidUTF8(s) == s)
    ensures Lacks(s, NEWLINE) ==> Lacks(ToValidUTF8(s), NEWLINE)
    ensures Lacks(s, RETURN) ==> Lacks(ToValidUTF8(s), RETURN)
  {
    RuneLenIsLocal();
    CleanIsValid(RuneLen, REPLACEMENT, s, false);
    if ValidUTF8(s) { CleanKeepsValid(RuneLen, REPLACEMENT, s, false); }
    if Lacks(s, NEWLINE) { CleanAddsNone(RuneLen, REPLACEMENT, s, false, NEWLINE); }
    if Lacks(s, RETURN) { CleanAddsNone(RuneLen, REPLACEMENT, s, false, RETURN); }
  }

  /** What becomes of text from its front: a character is kept, a whole run of octets that belong to none becomes one
      replacement character. */
  lemma FromTheFront(s: seq<byte>, n: nat)
    requires s != []
    ensures RuneLen(s) > 0 ==> ToValidUTF8(s) == s[..RuneLen(s)] + ToValidUTF8(s[RuneLen(s)..])
    ensures StrayRun(RuneLen, s, n) ==> ToValidUTF8(s) == [0xEF, 0xBF, 0xBD] + ToValidUTF8(s[n..])
  {
    RuneLenIsLocal();
    if StrayRun(RuneLen, s, n) { CleanRun(RuneLen, REPLACEMENT, s, n, false); }
  }

  /** UTF8: the longest prefix of the sanitised text that fits, at most three octets short of the bound. */
  method UTF8(value: seq<byte>, bound: int) returns (r: seq<byte>)
    ensures bound <= 0 ==> r == []
    ensures bound > 0 ==> LongestFit(RuneLen, r, ToValidUTF8(value), bound)
    ensures bound > 0 && |ToValidUTF8(value)| <= bound ==> r == ToValidUTF8(value)
    ensures bound > 0 && |ToValidUTF8(value)| > bound ==> |r| >= bound - 3
  {
    if bound <= 0 { return []; }
    RuneLenIsLocal();
    Sanitised(value);
    var text := Sanitise(RuneLen, REPLACEMENT, value);
    if |text| <= bound { return text; }
    r := Shrink(RuneLen, text, bound);
  }

  // ----- SingleLine and the error line -----

  function OneLine(s: seq<byte>): (r: seq<byte>)
    ensures |r| == |s| && Lacks(r, NEWLINE) && Lacks(r, RETURN)
    ensures forall i :: 0 <= i < |s| ==> r[i] == if s[i] == 10 || s[i] == 13 then 32 else s[i]
  {
    seq(|s|, i requires 0 <= i < |s| => if s[i] == NEWLINE || s[i] == RETURN then SPACE else s[i])
  }

  method SingleLine(value: seq<byte>, bound: int) returns (r: seq<byte>)
    ensures bound <= 0 ==> r == []
    ensures bound > 0 ==> LongestFit(RuneLen, r, ToValidUTF8(OneLine(value)), bound)
    ensures bound > 0 ==> |r| >= bound - 3 || r == ToValidUTF8(OneLine(value))
    ensures ValidUTF8(r) && Lacks(r, NEWLINE) && Lacks(r, RETURN) && (bound >= 0 ==> |r| <= bound)
  {
    r := UTF8(OneLine(value), bound);
    Sanitised(OneLine(value));
  }

  function Pow10(k: nat): nat { if k == 0 then 1 else 10 * Pow10(k - 1) }

  function Digits(n: nat): (s: seq<byte>)
    ensures |s| >= 1 && forall i :: 0 <= i < |s| ==> 48 <= s[i] <= 57
  {
    if n < 10 then [48 + n] else Digits(n / 10) + [48 + n % 10]
  }

  lemma {:induction false} DigitsFit(n: nat, k: nat)
    requires k >= 1 && n < Pow10(k)
    ensures |Digits(n)| <= k
    decreases k
  {
    if n >= 10 { DigitsFit(n / 10, k - 1); }
  }

  /** The number the digits stand for. */
  function Value(s: seq<byte>): int { if s == [] then 0 else 10 * Value(s[..|s| - 1]) + s[|s| - 1] - 48 }

  lemma {:induction false} DigitsValue(n: nat)
    ensures Value(Digits(n)) == n
  {
    if n >= 10 {
      DigitsValue(n / 10);
      assert Digits(n)[..|Digits(n)| - 1] == Digits(n / 10);
    } else {
      assert Digits(n)[..0] == [];
    }
  }

  /** The line starts with ERR, the sign, the digits of the number and a space. */
  lemma PrefixReads(errno: int) returns (head: seq<byte>, digits: seq<byte>)
    ensures ErrorPrefix(errno) == head + digits + [32]
    ensures head == if errno < 0 then [69, 82, 82, 32, 45] else [69, 82, 82, 32]
    ensures Value(digits) == (if errno < 0 then -errno else errno) && |digits| >= 1 && forall i :: 0 <= i < |digits| ==> 48 <= digits[i] <= 57
  {
    head := if errno < 0 then [69, 82, 82, 32, 45] else [69, 82, 82, 32];
    digits := Digits(if errno < 0 then -errno else errno);
    DigitsValue(if errno < 0 then -errno else errno);
  }

  /** "ERR %d " */
  function ErrorPrefix(errno: int): (s: seq<byte>)
    ensures Lacks(s, NEWLINE) && Lacks(s, RETURN)
  {
    [69, 82, 82, SPACE] + (if errno < 0 then [45] + Digits(-errno) else Digits(errno)) + [SPACE]
  }

  lemma PrefixIsShort(errno: int)
    requires -0x8000_0000_0000_0000 <= errno < 0x8000_0000_0000_0000
    ensures |ErrorPrefix(errno)| <= 25
  {
    assert Pow10(5) == 100_000;
    assert Pow10(10) == 10_000_000_000;
    assert Pow10(15) == 1_000_000_000_000_000;
    assert Pow10(19) == 10_000_000_000_000_000_000;
    DigitsFit(if errno < 0 then -errno else errno, 19);
  }

  /** A line: one newline, at the end. */
  ghost predicate IsLine(s: seq<byte>) { s != [] && s[|s| - 1] == NEWLINE && Lacks(s[..|s| - 1], NEWLINE) }

  /** writeError: one line of whole characters that fits the response bound, for any errno and any message. */
  method WriteError(errno: int, message: seq<byte>) returns (line: seq<byte>)
    requires -0x8000_0000_0000_0000 <= errno < 0x8000_0000_0000_0000
    ensures IsLine(line) && |line| <= MAX_RESPONSE
    ensures ErrorPrefix(errno) <= line
    ensures LongestFit(RuneLen, line[|ErrorPrefix(errno)|..|line| - 1], ToValidUTF8(OneLine(message)), MAX_RESPONSE - |ErrorPrefix(errno)| - 1)
  {
    var prefix := ErrorPrefix(errno);
    PrefixIsShort(errno);
    var text := SingleLine(message, MAX_RESPONSE - |prefix| - 1);
    line := prefix + text + [NEWLINE];
    assert line[|prefix|..|line| - 1] == text;
  }

  /** The native client reads octet by octet until a newline, and gives up when its buffer is full or the stream
      ends first: it returns exactly the first line, if that fits. */
  method NativeRead(stream: seq<byte>, capacity: nat) returns (r: Option<seq<byte>>)
    ensures r.Some? ==> r.value <= stream && IsLine(r.value) && |r.value| < capacity
    ensures r.None? ==> forall i :: 0 <= i < |stream| && i + 1 < capacity ==> stream[i] != NEWLINE
  {
    var used := 0;
    while used + 1 < capacity
      invariant 0 <= used <= |stream| && (used + 1 <= capacity || capacity == 0) && Lacks(stream[..used], NEWLINE)
      decreases capacity - used
    {
      if used == |stream| {
        assert stream[..used] == stream;
        return None;
      }
      used := used + 1;
      assert stream[..used][..used - 1] == stream[..used - 1];
      if stream[used - 1] == NEWLINE { return Some(stream[..used]); }
    }
    forall i | 0 <= i < |stream| && i + 1 < capacity ensures stream[i] != NEWLINE { assert stream[..used][i] == stream[i]; }
    return None;
  }

  /** Every error line reaches the native client whole. */
  method ErrorReachesClient(errno: int, message: seq<byte>) returns (line: seq<byte>, read: Option<seq<byte>>)
    requires -0x8000_0000_0000_0000 <= errno < 0x8000_0000_0000_0000
    ensures IsLine(line) && |line| <= MAX_RESPONSE && read == Some(line)
  {
    line := WriteError(errno, message);
    read := NativeRead(line, NATIVE_BUFFER);
    if read.Some? { FirstLine(line, read.value); }
  }

  lemma FirstLine(line: seq<byte>, got: seq<byte>)
    requires IsLine(line) && IsLine(got) && got <= line
    ensures got == line
  {
    forall i | 0 <= i < |line| - 1 ensures line[i] != NEWLINE { assert line[..|line| - 1][i] == line[i]; }
    assert line[|got| - 1] == got[|got| - 1];
  }
}
