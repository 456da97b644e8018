/** The identifiers given to approval requests. */
module RequestId {
  import opened Decimals
  import opened Wrappers

  /** What an identifier is made of; `call` is absent when it is missing or empty. */
  datatype Parts = Parts(process: nat, broker: nat, sequence: nat, call: Option<string>)

  const PREFIX := ['a', 'p', 'p', 'r', 'o', 'v', 'a', 'l', '-']

  function Format(process: nat, broker: nat, sequence: nat, call: Option<string>): string {
    PREFIX + (Decimal(process) + ['-'] + (Decimal(broker) + ['-'] + Scoped(sequence, call)))
  }

  function Scoped(sequence: nat, call: Option<string>): string {
    if call.Some? && call.value != [] then Decimal(sequence) + ['-'] + call.value else Decimal(sequence)
  }

  /** The text before the first dash, and the text after it when there is one. */
  function SplitAtDash(s: string): (parts: (string, Option<string>)) {
    if s == [] then ([], None)
    else if s[0] == '-' then ([], Some(s[1..]))
    else
      var rest := SplitAtDash(s[1..]);
      ([s[0]] + rest.0, rest.1)
  }

  function Parse(id: string): Option<Parts> {
    if |id| < |PREFIX| || id[..|PREFIX|] != PREFIX then None
    else
      var process := SplitAtDash(id[|PREFIX|..]);
      if process.1.None? || !IsDigits(process.0) then None
      else
        var broker := SplitAtDash(process.1.value);
        if broker.1.None? || !IsDigits(broker.0) then None
        else
          var sequence := SplitAtDash(broker.1.value);
          if !IsDigits(sequence.0) then None
          else
            Some(Parts(ReadDecimal(process.0), ReadDecimal(broker.0), ReadDecimal(sequence.0), sequence.1))
  }

  function Shown(call: Option<string>): Option<string> {
    if call == Some([]) then None else call
  }

  lemma {:induction false} SplitAfterDigits(digits: string, rest: string)
    requires IsDigits(digits)
    ensures SplitAtDash(digits + ['-'] + rest) == (digits, Some(rest))
    ensures SplitAtDash(digits) == (digits, None)
  {
    if digits == [] {
      assert digits + ['-'] + rest == ['-'] + rest;
    } else {
      SplitAfterDigits(digits[1..], rest);
      assert (digits + ['-'] + rest)[1..] == digits[1..] + ['-'] + rest;
      assert [digits[0]] + digits[1..] == digits;
    }
  }

  /** An identifier reads back to its parts, whatever digits and dashes the call id holds. */
  lemma ParseFormat(process: nat, broker: nat, sequence: nat, call: Option<string>)
    ensures Parse(Format(process, broker, sequence, call))
            == Some(Parts(process, broker, sequence, Shown(call)))
  {
    var second := Decimal(broker) + ['-'] + Scoped(sequence, call);
    var first := Decimal(process) + ['-'] + second;
    assert (PREFIX + first)[|PREFIX|..] == first;
    DecimalRoundTrip(process);
    DecimalRoundTrip(broker);
    DecimalRoundTrip(sequence);
    SplitAfterDigits(Decimal(process), second);
    SplitAfterDigits(Decimal(broker), Scoped(sequence, call));
    SplitAfterDigits(Decimal(sequence), if call.Some? then call.value else []);
  }

  /** Two registrations share an identifier only if process, broker, sequence and call agree. */
  lemma FormatInjective(p: Parts, q: Parts)
    ensures Format(p.process, p.broker, p.sequence, p.call) == Format(q.process, q.broker, q.sequence, q.call)
            <==> p.(call := Shown(p.call)) == q.(call := Shown(q.call))
  {
    ParseFormat(p.process, p.broker, p.sequence, p.call);
    ParseFormat(q.process, q.broker, q.sequence, q.call);
  }
}
