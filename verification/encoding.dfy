/** The wire format of a drive command: one ASCII line "T<throttle>:S<steering>\n",
    each number written the way a JavaScript template literal writes an
    integer (decimal, no leading zeros, '-' before a negative value).
    Decode is the receiver's side: a reference parser that inverts Encode. */
module CommandEncoding {
  import opened BluetoothTypes

  predicate IsDigit(c: char) { '0' <= c <= '9' }

  predicate AllDigits(s: string) { forall i :: 0 <= i < |s| ==> IsDigit(s[i]) }

  function DigitChar(d: nat): (c: char)
    requires d < 10
    ensures IsDigit(c) && DigitValue(c) == d
  {
    (48 + d) as char
  }

  function DigitValue(c: char): nat
    requires IsDigit(c)
  {
    c as nat - 48
  }

  /** Decimal digits of n, most significant first, without leading zeros. */
  function NatToString(n: nat): (s: string)
    ensures |s| >= 1 && AllDigits(s)
    ensures |s| > 1 ==> s[0] != '0'
    decreases n
  {
    if n < 10 then [DigitChar(n)] else NatToString(n / 10) + [DigitChar(n % 10)]
  }

  /** The value of a non-empty string of digits. */
  function DigitsValue(s: string): nat
    requires |s| >= 1 && AllDigits(s)
    decreases |s|
  {
    if |s| == 1 then DigitValue(s[0])
    else DigitsValue(s[..|s| - 1]) * 10 + DigitValue(s[|s| - 1])
  }

  /** How `${i}` renders an integer. */
  function IntToString(i: int): (s: string)
    ensures |s| >= 1 && ':' !in s && '\n' !in s
  {
    var s := if i < 0 then "-" + NatToString(-i) else NatToString(i);
    assert forall k :: 0 <= k < |s| ==> s[k] == '-' || IsDigit(s[k]);
    s
  }

  function ParseInt(s: string): Option<int> {
    if |s| >= 2 && s[0] == '-' && AllDigits(s[1..]) then Some(-(DigitsValue(s[1..]) as int))
    else if |s| >= 1 && AllDigits(s) then Some(DigitsValue(s))
    else None
  }

  lemma {:induction false} NatToStringRoundTrip(n: nat)
    ensures DigitsValue(NatToString(n)) == n
    decreases n
  {
    if n >= 10 {
      var s := NatToString(n);
      NatToStringRoundTrip(n / 10);
      assert s[..|s| - 1] == NatToString(n / 10);
    }
  }

  lemma IntToStringRoundTrip(i: int)
    ensures ParseInt(IntToString(i)) == Some(i)
  {
    if i < 0 {
      NegativeRoundTrip(i);
    } else {
      var s := NatToString(i);
      assert s[0] != '-' by { assert IsDigit(s[0]); }
      NatToStringRoundTrip(i);
    }
  }

  lemma NegativeRoundTrip(i: int)
    requires i < 0
    ensures ParseInt(IntToString(i)) == Some(i)
  {
    var digits := NatToString(-i);
    var s := "-" + digits;
    assert s[1..] == digits;
    assert s == IntToString(i);
    NatToStringRoundTrip(-i);
  }

  /** sendCommand's wire string for a command. */
  function Encode(c: CarCommand): (s: string)
    ensures |s| >= 6 && s[0] == 'T' && s[|s| - 1] == '\n'
    ensures '\n' !in s[..|s| - 1]
  {
    "T" + IntToString(c.throttle) + ":S" + IntToString(c.steeringAngle) + "\n"
  }

  /** Index of the first occurrence of c in s, or |s| when there is none. */
  function IndexOf(s: string, c: char): (k: nat)
    ensures k <= |s|
    ensures k < |s| ==> s[k] == c
    ensures forall j :: 0 <= j < k ==> s[j] != c
  {
    if |s| == 0 then 0
    else if s[0] == c then 0
    else 1 + IndexOf(s[1..], c)
  }

  /** Parse one received line back into a command. */
  function Decode(line: string): Option<CarCommand> {
    if |line| < 2 || line[0] != 'T' || line[|line| - 1] != '\n' then None
    else
      var body := line[1..|line| - 1];
      var k := IndexOf(body, ':');
      if k + 1 >= |body| || body[k + 1] != 'S' then None
      else
        match (ParseInt(body[..k]), ParseInt(body[k + 2..]))
        case (Some(t), Some(a)) => Some(CarCommand(t, a))
        case _ => None
  }

  lemma IndexOfAfterPrefix(a: string, c: char, rest: string)
    requires c !in a
    ensures IndexOf(a + [c] + rest, c) == |a|
  {
    var s := a + [c] + rest;
    assert s[|a|] == c;
    assert s[..|a|] == a;
  }

  /** Every command survives the trip over the wire. */
  lemma {:induction false} EncodeDecodeRoundTrip(c: CarCommand)
    ensures Decode(Encode(c)) == Some(c)
  {
    var t, a := IntToString(c.throttle), IntToString(c.steeringAngle);
    var line := Encode(c);
    var body := line[1..|line| - 1];
    assert body == t + [':'] + ("S" + a);
    IndexOfAfterPrefix(t, ':', "S" + a);
    assert body[..|t|] == t;
    assert body[|t| + 2..] == a;
    IntToStringRoundTrip(c.throttle);
    IntToStringRoundTrip(c.steeringAngle);
  }

  /** Distinct commands have distinct wire strings. */
  lemma EncodeInjective(c: CarCommand, d: CarCommand)
    ensures Encode(c) == Encode(d) <==> c == d
  {
    if Encode(c) == Encode(d) {
      EncodeDecodeRoundTrip(c);
      EncodeDecodeRoundTrip(d);
    }
  }

  /** Throttle 75 and centred steering give "T75:S90\n". */
  lemma EncodeExample()
    ensures Encode(CarCommand(75, 90)) == "T75:S90\n"
    ensures Encode(NEUTRAL) == "T0:S90\n"
    ensures Encode(CarCommand(-100, 180)) == "T-100:S180\n"
  {
    assert NatToString(75) == "75";
    assert NatToString(90) == "90";
    assert NatToString(100) == "100" by { assert NatToString(10) == "10"; }
    assert NatToString(180) == "180" by { assert NatToString(18) == "18"; }
  }
}
