/** The printed port list (controller.go, getPortsString) and the parser that inverts it. */
module Ports {
  import opened Options

  const DIGITS := "0123456789"

  function Decimal(n: nat): (s: string)
    ensures |s| > 0
  {
    if n < 10 then [DIGITS[n]] else Decimal(n / 10) + [DIGITS[n % 10]]
  }

  /** fmt.Sprintf("%d", n). */
  function FormatInt(n: int): string {
    if n < 0 then "-" + Decimal(-n) else Decimal(n)
  }

  /** The loop of getPortsString: every number followed by a comma. */
  function CommaTerminated(ports: seq<int>): string {
    if ports == [] then ""
    else CommaTerminated(ports[..|ports| - 1]) + FormatInt(ports[|ports| - 1]) + ","
  }

  /** strings.TrimRight(s, ","). */
  function TrimRightCommas(s: string): string {
    if s != "" && s[|s| - 1] == ',' then TrimRightCommas(s[..|s| - 1]) else s
  }

  function PortsString(ports: seq<int>): string {
    TrimRightCommas(CommaTerminated(ports))
  }

  method GetPortsString(ports: seq<int>) returns (s: string)
    ensures s == PortsString(ports)
  {
    s := "";
    for i := 0 to |ports|
      invariant s == CommaTerminated(ports[..i])
    {
      assert ports[..i + 1][..i] == ports[..i];
      s := s + FormatInt(ports[i]) + ",";
    }
    assert ports[..|ports|] == ports;
    s := TrimRightCommas(s);
  }

  // ---- The inverse -------------------------------------------------------

  predicate IsDigit(c: char) { '0' <= c <= '9' }

  predicate AllDigits(s: string) { forall i :: 0 <= i < |s| ==> IsDigit(s[i]) }

  function Unsigned(s: string): string { if s != "" && s[0] == '-' then s[1..] else s }

  /** The value of a string of digits, leftmost digit most significant. */
  function ParseNat(s: string): nat
    requires AllDigits(s)
  {
    if s == "" then 0
    else
      assert IsDigit(s[|s| - 1]);
      10 * ParseNat(s[..|s| - 1]) + (s[|s| - 1] as int - '0' as int)
  }

  predicate IsInt(s: string) { Unsigned(s) != "" && AllDigits(Unsigned(s)) }

  function ParseInt(s: string): int
    requires IsInt(s)
  {
    if s[0] == '-' then -(ParseNat(Unsigned(s)) as int) else ParseNat(Unsigned(s))
  }

  function SplitFrom(s: string, field: string): seq<string>
    decreases |s|
  {
    if s == "" then [field]
    else if s[0] == ',' then [field] + SplitFrom(s[1..], "")
    else SplitFrom(s[1..], field + [s[0]])
  }

  /** strings.Split(s, ","). */
  function Split(s: string): seq<string> {
    SplitFrom(s, "")
  }

  function ParseFields(fields: seq<string>): Option<seq<int>> {
    if fields == [] then Some([])
    else
      var rest := ParseFields(fields[1..]);
      if IsInt(fields[0]) && rest.Some? then Some([ParseInt(fields[0])] + rest.value) else None
  }

  /** Reads a printed port list back; None when a field is not a number. */
  function ParsePorts(s: string): Option<seq<int>> {
    if s == "" then Some([]) else ParseFields(Split(s))
  }

  lemma {:induction false} DecimalRoundTrip(n: nat)
    ensures AllDigits(Decimal(n))
    ensures ParseNat(Decimal(n)) == n
  {
    if n < 10 {
      assert Decimal(n)[..0] == "";
    } else {
      DecimalRoundTrip(n / 10);
      var s := Decimal(n);
      assert s[..|s| - 1] == Decimal(n / 10);
    }
  }

  lemma FormatIntRoundTrip(n: int)
    ensures IsInt(FormatInt(n)) && ParseInt(FormatInt(n)) == n
    ensures forall i :: 0 <= i < |FormatInt(n)| ==> FormatInt(n)[i] != ','
  {
    DecimalRoundTrip(if n < 0 then -n else n);
    if n < 0 {
      assert FormatInt(n)[1..] == Decimal(-n);
    } else {
      assert IsDigit(Decimal(n)[0]);
    }
  }

  /** The same list with commas only between the numbers. */
  function Joined(ports: seq<int>): string {
    if ports == [] then ""
    else if |ports| == 1 then FormatInt(ports[0])
    else FormatInt(ports[0]) + "," + Joined(ports[1..])
  }

  lemma ConcatAssociative(a: string, b: string, c: string, d: string)
    ensures (a + b) + c + d == a + (b + c + d)
  {}

  lemma {:induction false} CommaTerminatedFront(ports: seq<int>)
    requires ports != []
    ensures CommaTerminated(ports) == FormatInt(ports[0]) + "," + CommaTerminated(ports[1..])
  {
    var last := |ports| - 1;
    if last > 0 {
      var tail := ports[1..];
      CommaTerminatedFront(ports[..last]);
      assert ports[..last][1..] == tail[..last - 1];
      ConcatAssociative(FormatInt(ports[0]) + ",", CommaTerminated(tail[..last - 1]), FormatInt(ports[last]), ",");
    } else {
      assert CommaTerminated(ports[..0]) == "" && CommaTerminated(ports[1..]) == "";
    }
  }

  lemma {:induction false} JoinedEnds(ports: seq<int>)
    requires ports != []
    ensures Joined(ports) != "" && Joined(ports)[|Joined(ports)| - 1] != ','
  {
    FormatIntRoundTrip(ports[0]);
    hide FormatInt, IsInt, ParseInt;
    if |ports| > 1 {
      JoinedEnds(ports[1..]);
      var head, tail := FormatInt(ports[0]) + ",", Joined(ports[1..]);
      assert (head + tail)[|head + tail| - 1] == tail[|tail| - 1];
    }
  }

  lemma {:induction false} CommaTerminatedJoined(ports: seq<int>)
    requires ports != []
    ensures CommaTerminated(ports) == Joined(ports) + ","
  {
    CommaTerminatedFront(ports);
    hide FormatInt;
    var head := FormatInt(ports[0]);
    if |ports| > 1 {
      CommaTerminatedJoined(ports[1..]);
      hide CommaTerminated;
      assert head + "," + (Joined(ports[1..]) + ",") == head + "," + Joined(ports[1..]) + ",";
    } else {
      assert CommaTerminated(ports[1..]) == "";
      assert head + "," + "" == head + ",";
    }
  }

  /** Only the final comma is trimmed. */
  lemma PortsStringIsJoined(ports: seq<int>)
    ensures PortsString(ports) == Joined(ports)
  {
    if ports != [] {
      CommaTerminatedJoined(ports);
      JoinedEnds(ports);
      var s := CommaTerminated(ports);
      assert s[..|s| - 1] == Joined(ports);
      assert TrimRightCommas(Joined(ports)) == Joined(ports);
    }
  }

  lemma {:induction false} SplitFromField(s: string, field: string, rest: string)
    requires forall i :: 0 <= i < |s| ==> s[i] != ','
    ensures SplitFrom(s + "," + rest, field) == [field + s] + SplitFrom(rest, "")
    ensures SplitFrom(s, field) == [field + s]
    decreases |s|
  {
    if s == "" {
      assert field + s == field;
      assert (s + "," + rest)[1..] == rest;
    } else {
      SplitFromField(s[1..], field + [s[0]], rest);
      assert (s + "," + rest)[1..] == s[1..] + "," + rest;
      assert field + [s[0]] + s[1..] == field + s;
    }
  }

  lemma {:induction false} JoinedRoundTrip(ports: seq<int>)
    requires ports != []
    ensures ParseFields(Split(Joined(ports))) == Some(ports)
  {
    FormatIntRoundTrip(ports[0]);
    var head := FormatInt(ports[0]);
    if |ports| == 1 {
      SplitFromField(head, "", "");
      assert "" + head == head;
      assert Split(Joined(ports)) == [head];
      var none: seq<int> := [];
      assert ParseFields([head][1..]) == Some(none);
      assert [ports[0]] + none == ports;
    } else {
      JoinedRoundTrip(ports[1..]);
      SplitFromField(head, "", Joined(ports[1..]));
      assert "" + head == head;
      var fields := Split(Joined(ports));
      assert fields == [head] + Split(Joined(ports[1..]));
      assert fields[1..] == Split(Joined(ports[1..]));
      assert [ports[0]] + ports[1..] == ports;
    }
  }

  /** Splitting and parsing the printed list gives the list back. */
  lemma PortsRoundTrip(ports: seq<int>)
    ensures ParsePorts(PortsString(ports)) == Some(ports)
  {
    PortsStringIsJoined(ports);
    if ports != [] {
      JoinedEnds(ports);
      JoinedRoundTrip(ports);
    }
  }

  /** Comparing printed lists is comparing lists. */
  lemma PortsStringInjective(a: seq<int>, b: seq<int>)
    ensures PortsString(a) == PortsString(b) <==> a == b
  {
    PortsRoundTrip(a);
    PortsRoundTrip(b);
  }

  lemma {:induction false} DecimalIsCanonical(n: nat)
    ensures Decimal(n)[0] == '0' ==> n == 0
    ensures Decimal(n)[0] != '-'
  {
    if n >= 10 { DecimalIsCanonical(n / 10); }
  }

  /** No leading zeros, and a minus sign exactly before a negative number. */
  lemma FormatIsCanonical(n: int)
    ensures FormatInt(n)[0] == '-' <==> n < 0
    ensures Unsigned(FormatInt(n))[0] == '0' ==> FormatInt(n) == "0"
  {
    DecimalIsCanonical(if n < 0 then -n else n);
  }
}
