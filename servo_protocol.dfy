/**
  The servo board's ASCII command protocol.  A frame addresses a board channel
  (1 = upper/vertical servo, 2 = bottom/horizontal servo), gives the target
  pulse value and the time in milliseconds the move should take:

      single channel   #<channel>P<pulse>T<time>\r\n
      both channels    #1P<pulse>#2P<pulse>T<time>\r\n
      stop             #STOP\r\n

  Numbers are written the way Python's `str.format` writes an `int`: decimal
  digits without leading zeros, preceded by `-` when negative.  `Parse` is the
  board's side of the exchange; `ParseRender` shows that every frame the
  manager renders is read back as exactly the command it encodes.
 */
module ServoProtocol {

  datatype Option<+T> = None | Some(value: T) {
    predicate IsFailure() { None? }

    function PropagateFailure<U>(): Option<U>
      requires None?
    {
      None
    }

    function Extract(): T
      requires Some?
    {
      value
    }
  }

  /** The two servos of the pan/tilt head and the board channel each is wired to. */
  datatype ServoEnum = Vertical | Horizontal {
    /** Board channel: the upper (vertical) servo is on S1, the bottom (horizontal) one on S2. */
    function Value(): int {
      match this
      case Vertical => 1
      case Horizontal => 2
    }
  }

  /** The servo wired to a board channel, if any. */
  function ServoOfChannel(channel: int): (servo: Option<ServoEnum>)
    ensures servo.Some? <==> channel == 1 || channel == 2
    ensures servo.Some? ==> servo.value.Value() == channel
  {
    if channel == 1 then Some(Vertical)
    else if channel == 2 then Some(Horizontal)
    else None
  }

  /** One command frame of the protocol, before it is written as text. */
  datatype Frame =
    | Single(servo: ServoEnum, pulse: int, time: int)
    | Dual(verticalPulse: int, horizontalPulse: int, time: int)
    | Stop

  const CRLF: string := "\r\n"
  const StopText: string := "#STOP\r\n"

  // ---------------------------------------------------------------------
  // Decimal numbers

  predicate IsDigit(c: char) {
    '0' <= c <= '9'
  }

  predicate AllDigits(s: string) {
    forall i :: 0 <= i < |s| ==> IsDigit(s[i])
  }

  /** A digit may not follow a number: the number has ended. */
  predicate Delimited(rest: string) {
    rest == [] || !IsDigit(rest[0])
  }

  function DigitValue(c: char): int
    requires IsDigit(c)
  {
    c as int - '0' as int
  }

  function DigitChar(d: int): (c: char)
    requires 0 <= d < 10
    ensures IsDigit(c) && DigitValue(c) == d
  {
    ('0' as int + d) as char
  }

  /** The decimal digits of `n`, most significant first, without leading zeros. */
  function NatToDecimal(n: nat): (s: string)
    ensures |s| >= 1 && AllDigits(s)
    ensures |s| > 1 ==> s[0] != '0'
  {
    if n < 10 then [DigitChar(n)]
    else NatToDecimal(n / 10) + [DigitChar(n % 10)]
  }

  /** Python's `str(i)` for an integer. */
  function IntToDecimal(i: int): (s: string)
    ensures |s| >= 1 && (IsDigit(s[0]) || s[0] == '-')
    ensures i >= 0 <==> IsDigit(s[0])
  {
    if i < 0 then "-" + NatToDecimal(-i) else NatToDecimal(i)
  }

  /** Length of the longest prefix of `s` made of digits. */
  function DigitRun(s: string): (k: nat)
    ensures k <= |s|
    ensures AllDigits(s[..k])
    ensures Delimited(s[k..])
  {
    if |s| > 0 && IsDigit(s[0]) then 1 + DigitRun(s[1..]) else 0
  }

  /** The value of a string of decimal digits. */
  function DecimalValue(ds: string): nat
    requires AllDigits(ds)
  {
    if |ds| == 0 then 0
    else 10 * DecimalValue(ds[..|ds| - 1]) + DigitValue(ds[|ds| - 1])
  }

  /** Reads an unsigned decimal number at the start of `s`; returns it and the rest. */
  function ParseNat(s: string): Option<(int, string)> {
    var k := DigitRun(s);
    if k == 0 then None else Some((DecimalValue(s[..k]), s[k..]))
  }

  /** Reads a decimal number, optionally preceded by `-`, at the start of `s`. */
  function ParseInt(s: string): Option<(int, string)> {
    if |s| > 0 && s[0] == '-' then
      match ParseNat(s[1..])
      case None => None
      case Some((n, rest)) => Some((-n, rest))
    else
      match ParseNat(s)
      case None => None
      case Some((n, rest)) => Some((n, rest))
  }

  function Expect(c: char, s: string): Option<string> {
    if |s| > 0 && s[0] == c then Some(s[1..]) else None
  }

  // ---------------------------------------------------------------------
  // Frames

  /** The text the manager writes to the serial link for a frame. */
  function Render(f: Frame): (s: string)
    ensures |s| >= 2 && s[0] == '#' && s[|s| - 2..] == CRLF
  {
    match f
    case Single(servo, pulse, time) =>
      "#" + IntToDecimal(servo.Value()) + "P" + IntToDecimal(pulse) + "T" + IntToDecimal(time) + CRLF
    case Dual(v, h, time) =>
      "#1P" + IntToDecimal(v) + "#2P" + IntToDecimal(h) + "T" + IntToDecimal(time) + CRLF
    case Stop => StopText
  }

  /** Reads `T<time>\r\n`, the end of every move frame. */
  function ParseTime(s: string): Option<int> {
    var rest :- Expect('T', s);
    var r :- ParseInt(rest);
    if r.1 == CRLF then Some(r.0) else None
  }

  /** Reads `#2P<pulse>T<time>\r\n`, the second half of a two-channel frame. */
  function ParseSecondChannel(verticalPulse: int, s: string): Option<Frame> {
    var s1 :- Expect('#', s);
    var ch :- ParseInt(s1);
    if ch.0 != 2 then None
    else
      var s2 :- Expect('P', ch.1);
      var p :- ParseInt(s2);
      var time :- ParseTime(p.1);
      Some(Dual(verticalPulse, p.0, time))
  }

  /** How the board reads one line of text; None for text that is not a frame. */
  function Parse(s: string): Option<Frame> {
    if s == StopText then Some(Stop)
    else
      var s1 :- Expect('#', s);
      var ch :- ParseInt(s1);
      var s2 :- Expect('P', ch.1);
      var p :- ParseInt(s2);
      if |p.1| > 0 && p.1[0] == 'T' then
        var servo :- ServoOfChannel(ch.0);
        var time :- ParseTime(p.1);
        Some(Single(servo, p.0, time))
      else if ch.0 == 1 then ParseSecondChannel(p.0, p.1)
      else None
  }

  // ---------------------------------------------------------------------
  // Round trip

  lemma {:induction false} DecimalValueOfNat(n: nat)
    ensures DecimalValue(NatToDecimal(n)) == n
  {
    var s := NatToDecimal(n);
    if n >= 10 {
      assert s[..|s| - 1] == NatToDecimal(n / 10);
      DecimalValueOfNat(n / 10);
    }
  }

  lemma {:induction false} DigitRunOfNumber(ds: string, rest: string)
    requires AllDigits(ds) && Delimited(rest)
    ensures DigitRun(ds + rest) == |ds|
  {
    if ds != [] {
      assert (ds + rest)[1..] == ds[1..] + rest;
      DigitRunOfNumber(ds[1..], rest);
    }
  }

  lemma ParseNatRoundTrip(n: nat, rest: string)
    requires Delimited(rest)
    ensures ParseNat(NatToDecimal(n) + rest) == Some((n, rest))
  {
    var ds := NatToDecimal(n);
    var s := ds + rest;
    DigitRunOfNumber(ds, rest);
    assert s[..|ds|] == ds && s[|ds|..] == rest;
    DecimalValueOfNat(n);
  }

  lemma ParseIntRoundTrip(i: int, rest: string)
    requires Delimited(rest)
    ensures ParseInt(IntToDecimal(i) + rest) == Some((i, rest))
  {
    var s := IntToDecimal(i) + rest;
    if i < 0 {
      var ds := NatToDecimal(-i);
      assert s == "-" + (ds + rest);
      assert s[0] == '-';
      assert s[1..] == ds + rest;
      ParseNatRoundTrip(-i, rest);
      assert ParseNat(s[1..]) == Some((-i, rest));
    } else {
      assert s[0] == IntToDecimal(i)[0] != '-';
      ParseNatRoundTrip(i, rest);
    }
  }

  lemma ParseTimeRoundTrip(time: int)
    ensures ParseTime("T" + IntToDecimal(time) + CRLF) == Some(time)
  {
    var s := "T" + IntToDecimal(time) + CRLF;
    assert s[1..] == IntToDecimal(time) + CRLF;
    ParseIntRoundTrip(time, CRLF);
  }

  /** Reading `<c><number><rest>`: the marker, then the number, then `rest`. */
  lemma FieldRoundTrip(c: char, i: int, rest: string)
    requires Delimited(rest)
    ensures Expect(c, [c] + IntToDecimal(i) + rest) == Some(IntToDecimal(i) + rest)
    ensures ParseInt(IntToDecimal(i) + rest) == Some((i, rest))
  {
    assert ([c] + IntToDecimal(i) + rest)[1..] == IntToDecimal(i) + rest;
    ParseIntRoundTrip(i, rest);
  }

  lemma SingleRoundTrip(servo: ServoEnum, pulse: int, time: int)
    ensures Parse(Render(Single(servo, pulse, time))) == Some(Single(servo, pulse, time))
  {
    var ch, p := IntToDecimal(servo.Value()), IntToDecimal(pulse);
    var tail := "T" + IntToDecimal(time) + CRLF;
    var afterChannel := "P" + p + tail;
    var s := "#" + ch + afterChannel;
    assert Render(Single(servo, pulse, time)) == s;
    assert s != StopText by { assert IsDigit(s[1]); }
    FieldRoundTrip('#', servo.Value(), afterChannel);
    assert Expect('#', s) == Some(ch + afterChannel);
    FieldRoundTrip('P', pulse, tail);
    assert Expect('P', afterChannel) == Some(p + tail);
    ParseTimeRoundTrip(time);
    assert tail[0] == 'T';
  }

  lemma SecondChannelRoundTrip(v: int, h: int, time: int)
    ensures ParseSecondChannel(v, "#2P" + IntToDecimal(h) + "T" + IntToDecimal(time) + CRLF)
         == Some(Dual(v, h, time))
  {
    var hs := IntToDecimal(h);
    var tail := "T" + IntToDecimal(time) + CRLF;
    var afterSecond := "P" + hs + tail;
    assert NatToDecimal(2) == "2";
    assert "#2P" + hs + "T" + IntToDecimal(time) + CRLF == "#" + IntToDecimal(2) + afterSecond;
    FieldRoundTrip('#', 2, afterSecond);
    FieldRoundTrip('P', h, tail);
    ParseTimeRoundTrip(time);
  }

  lemma DualRoundTrip(v: int, h: int, time: int)
    ensures Parse(Render(Dual(v, h, time))) == Some(Dual(v, h, time))
  {
    var vs, hs := IntToDecimal(v), IntToDecimal(h);
    var second := "#2P" + hs + "T" + IntToDecimal(time) + CRLF;
    var afterFirst := "P" + vs + second;
    var s := "#1P" + vs + second;
    assert Render(Dual(v, h, time)) == s;
    assert NatToDecimal(1) == "1";
    assert s == "#" + IntToDecimal(1) + afterFirst;
    assert s != StopText by { assert s[1] == '1'; }
    FieldRoundTrip('#', 1, afterFirst);
    FieldRoundTrip('P', v, second);
    assert second[0] != 'T';
    SecondChannelRoundTrip(v, h, time);
  }

  /** The board reads back exactly the command each rendered frame encodes. */
  lemma ParseRender(f: Frame)
    ensures Parse(Render(f)) == Some(f)
  {
    match f
    case Stop =>
    case Single(servo, pulse, time) => SingleRoundTrip(servo, pulse, time);
    case Dual(v, h, time) => DualRoundTrip(v, h, time);
  }

  /** Different commands are never written as the same text. */
  lemma RenderInjective(f: Frame, g: Frame)
    requires Render(f) == Render(g)
    ensures f == g
  {
    ParseRender(f);
    ParseRender(g);
  }
}
