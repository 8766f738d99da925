/** The text of the datagram sent for one spike, and a reader that recovers both ids from it. */
module SpikeMessage {
  import opened Decimal

  datatype Option<T> = None | Some(value: T)

  const Prefix: string := "spike_detector "
  const Middle: string := " got a spike by node "

  /** The message for a spike of node `nodeGid` seen by spike detector `sdGid`. */
  function FormatMessage(sdGid: nat, nodeGid: nat): (msg: string)
    ensures var a, b := NatToDecimal(sdGid), NatToDecimal(nodeGid);
      && |msg| == |Prefix| + |a| + |Middle| + |b|
      && msg[..|Prefix|] == Prefix
      && msg[|Prefix|..|Prefix| + |a|] == a
      && msg[|Prefix| + |a|..|Prefix| + |a| + |Middle|] == Middle
      && msg[|Prefix| + |a| + |Middle|..] == b
  {
    Prefix + NatToDecimal(sdGid) + Middle + NatToDecimal(nodeGid)
  }

  /** The length of the run of digits at the start of s. */
  function LeadingDigits(s: string): (k: nat)
    ensures k <= |s|
    ensures AllDigits(s[..k])
    ensures k < |s| ==> !IsDigit(s[k])
  {
    if s == [] || !IsDigit(s[0]) then 0 else 1 + LeadingDigits(s[1..])
  }

  /** A receiver's reading of a message: the two ids, or None when s is not one. */
  function ParseMessage(s: string): (ids: Option<(nat, nat)>) {
    if |s| < |Prefix| || s[..|Prefix|] != Prefix then None
    else
      var rest := s[|Prefix|..];
      var k := LeadingDigits(rest);
      if k == 0 || |rest| < k + |Middle| || rest[k..k + |Middle|] != Middle then None
      else
        var tail := rest[k + |Middle|..];
        if tail == [] || !AllDigits(tail) then None
        else Some((DecimalValue(rest[..k]), DecimalValue(tail)))
  }

  /** The message for detector 7 and node 42, written out. */
  lemma FormatMessageExample()
    ensures FormatMessage(7, 42) == "spike_detector 7 got a spike by node 42"
  {
    var a, b := NatToDecimal(7), NatToDecimal(42);
    assert a == [DigitChar(7)] == "7";
    assert NatToDecimal(4) == [DigitChar(4)];
    assert b == NatToDecimal(4) + [DigitChar(2)] == "42";
    var msg := Prefix + a + Middle + b;
    assert msg == "spike_detector 7 got a spike by node 42";
    assert FormatMessage(7, 42) == msg;
  }

  /** A run of digits followed by a non-digit is read up to that non-digit. */
  lemma {:induction false} LeadingDigitsOfConcat(x: string, y: string)
    requires AllDigits(x)
    requires y != [] && !IsDigit(y[0])
    ensures LeadingDigits(x + y) == |x|
  {
    if x == [] {
      assert x + y == y;
    } else {
      assert (x + y)[1..] == x[1..] + y;
      LeadingDigitsOfConcat(x[1..], y);
    }
  }

  /** Every message is read back as exactly the two ids it was formatted from. */
  lemma ParseFormatMessage(sdGid: nat, nodeGid: nat)
    ensures ParseMessage(FormatMessage(sdGid, nodeGid)) == Some((sdGid, nodeGid))
  {
    var a, b := NatToDecimal(sdGid), NatToDecimal(nodeGid);
    var s := FormatMessage(sdGid, nodeGid);
    var rest := a + Middle + b;
    assert s == Prefix + rest;
    assert s[..|Prefix|] == Prefix;
    assert s[|Prefix|..] == rest;
    assert rest == a + (Middle + b);
    LeadingDigitsOfConcat(a, Middle + b);
    var k := |a|;
    assert rest[..k] == a;
    assert rest[k..k + |Middle|] == Middle;
    assert rest[k + |Middle|..] == b;
  }

  /** Distinct id pairs give distinct messages. */
  lemma FormatMessageInjective(sd1: nat, node1: nat, sd2: nat, node2: nat)
    ensures FormatMessage(sd1, node1) == FormatMessage(sd2, node2) ==> sd1 == sd2 && node1 == node2
  {
    ParseFormatMessage(sd1, node1);
    ParseFormatMessage(sd2, node2);
  }
}
