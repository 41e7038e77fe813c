/** Address generation: numeric IPv4 and IPv6 addresses in arithmetic progression. */
module IpUtil {

  datatype Option<+T> = None | Some(value: T)

  datatype IpError = NegativeCount | InvalidStart | InvalidStep | ZeroStep | StepOverflow | CountOverflow

  /** A step of a run that stops the run on error. */
  datatype Result<+T> = Ok(value: T) | Fatal(error: IpError)

  const TWO_32: nat := 0x1_0000_0000
  const TWO_128: nat := 0x1_0000_0000_0000_0000_0000_0000_0000_0000

  function Ipv4(a: nat, b: nat, c: nat, d: nat): nat {
    a * 0x100_0000 + b * 0x1_0000 + c * 0x100 + d
  }

  /**
   * The number a dotted text stands for.  A text with an octet above 255 is no address; it gets
   * a number beyond 32 bits, which no packet carries.
   */
  function DottedText(a: nat, b: nat, c: nat, d: nat): nat {
    Ipv4(a, b, c, d) + if a <= 255 && b <= 255 && c <= 255 && d <= 255 then 0 else TWO_32
  }

  function Progression(start: nat, count: nat, step: nat): (r: seq<nat>)
    ensures |r| == count
  {
    seq(count, i requires 0 <= i < count => start + i * step)
  }

  /** What GenerateIPsWithStep returns; a start or step that does not parse is None. */
  function Generated(start: Option<nat>, count: int, step: Option<nat>): Result<seq<nat>> {
    if count < 0 then Fatal(NegativeCount)
    else if count == 0 then Ok([])
    else if start.None? then Fatal(InvalidStart)
    else if step.None? then Fatal(InvalidStep)
    else if step.value == 0 then Fatal(ZeroStep)
    else if (start.value + step.value) % TWO_32 < start.value then Fatal(StepOverflow)
    else if start.value + step.value * (count - 1) >= TWO_32 then Fatal(CountOverflow)
    else Ok(Progression(start.value, count, step.value))
  }

  /**
   * When addresses are generated: the last one fits 32 bits and, even for a single address, so
   * does the one after the first.
   */
  lemma GeneratedOkIff(start: Option<nat>, count: int, step: Option<nat>)
    requires start.Some? ==> start.value < TWO_32
    requires step.Some? ==> step.value < TWO_32
    ensures Generated(start, count, step).Ok? <==>
            || count == 0
            || (&& count > 0 && start.Some? && step.Some? && step.value > 0
                && start.value + step.value < TWO_32 && start.value + step.value * (count - 1) < TWO_32)
    ensures var r := Generated(start, count, step);
            r.Ok? ==> |r.value| == count && forall i :: 0 <= i < count ==> r.value[i] == start.value + i * step.value
  {
    if start.Some? && step.Some? && start.value + step.value >= TWO_32 {
      assert (start.value + step.value) % TWO_32 == start.value + step.value - TWO_32;
    }
  }

  /** GenerateIPsWithStep, on 32-bit addresses. */
  method GenerateIPsWithStep(start: Option<nat>, count: int, step: Option<nat>) returns (r: Result<seq<nat>>)
    requires start.Some? ==> start.value < TWO_32
    requires step.Some? ==> step.value < TWO_32
    ensures r == Generated(start, count, step)
  {
    if count < 0 {
      return Fatal(NegativeCount);
    }
    if count == 0 {
      return Ok([]);
    }
    if start.None? {
      return Fatal(InvalidStart);
    }
    if step.None? {
      return Fatal(InvalidStep);
    }
    var s, stepVal := start.value, step.value;
    if stepVal == 0 {
      return Fatal(ZeroStep);
    }
    if (s + stepVal) % TWO_32 < s {
      return Fatal(StepOverflow);
    }
    if s + stepVal * (count - 1) >= TWO_32 {
      return Fatal(CountOverflow);
    }
    var out := [];
    for i := 0 to count
      invariant |out| == i
      invariant forall k :: 0 <= k < i ==> out[k] == s + k * stepVal
    {
      LastIsLargest(s, stepVal, i, count);
      var val := (s + i * stepVal) % TWO_32;
      out := out + [val];
    }
    assert out == Progression(s, count, stepVal);
    r := Ok(out);
  }

  /** Every address before the last stays below the last, so the 32-bit sum does not wrap. */
  lemma LastIsLargest(s: nat, step: nat, i: nat, count: nat)
    requires i < count && s + step * (count - 1) < TWO_32
    ensures s + i * step < TWO_32
  {
    assert step * (count - 1) == i * step + step * (count - 1 - i);
    assert step * (count - 1 - i) >= 0;
  }

  /** What GenerateIPv6sWithStep returns. */
  function Generated6(start: Option<nat>, count: int, step: Option<nat>): Result<seq<nat>> {
    if count < 0 then Fatal(NegativeCount)
    else if count == 0 then Ok([])
    else if start.None? then Fatal(InvalidStart)
    else if step.None? then Fatal(InvalidStep)
    else if step.value == 0 then Fatal(ZeroStep)
    else if start.value + step.value * (count - 1) >= TWO_128 then Fatal(CountOverflow)
    else Ok(Progression(start.value, count, step.value))
  }

  /** When addresses are generated: the last one fits 128 bits. */
  lemma Generated6OkIff(start: Option<nat>, count: int, step: Option<nat>)
    ensures Generated6(start, count, step).Ok? <==>
            || count == 0
            || (&& count > 0 && start.Some? && step.Some? && step.value > 0
                && start.value + step.value * (count - 1) < TWO_128)
    ensures var r := Generated6(start, count, step);
            r.Ok? ==> |r.value| == count && forall i :: 0 <= i < count ==> r.value[i] == start.value + i * step.value
  {
  }

  /** GenerateIPv6sWithStep, on 128-bit addresses. */
  method GenerateIPv6sWithStep(start: Option<nat>, count: int, step: Option<nat>) returns (r: Result<seq<nat>>)
    ensures r == Generated6(start, count, step)
  {
    if count < 0 {
      return Fatal(NegativeCount);
    }
    if count == 0 {
      return Ok([]);
    }
    if start.None? {
      return Fatal(InvalidStart);
    }
    if step.None? {
      return Fatal(InvalidStep);
    }
    var stepInt := step.value;
    if stepInt == 0 {
      return Fatal(ZeroStep);
    }
    var lastIPInt := start.value + stepInt * (count - 1);
    if lastIPInt >= TWO_128 {
      return Fatal(CountOverflow);
    }
    var ips := [];
    for i := 0 to count
      invariant |ips| == i
      invariant forall k :: 0 <= k < i ==> ips[k] == start.value + k * stepInt
    {
      ips := ips + [start.value + i * stepInt];
    }
    assert ips == Progression(start.value, count, stepInt);
    r := Ok(ips);
  }
}
