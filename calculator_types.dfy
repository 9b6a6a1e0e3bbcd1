/**
 * The result every bedside calculator returns: the number it shows, its
 * interpretation, a traffic-light colour and an optional next step.
 */
module CalculatorTypes {
  import opened Wrappers

  /** The traffic-light colours the modelled calculators use. */
  datatype Color = Green | Yellow | Red
  {
    /** Severity order: green below yellow below red. */
    function Severity(): nat
    {
      match this
      case Green => 0
      case Yellow => 1
      case Red => 2
    }
  }

  /**
   * `value` is the score the calculator displays (the display template
   * around it is not modelled); `interpretation` is `None` only where the
   * source reads past its table; `nextSteps` is `None` when the field is
   * absent.
   */
  datatype CalculatorResult = CalculatorResult(
    value: int,
    interpretation: Option<string>,
    color: Color,
    nextSteps: Option<string>)

  /** A result whose interpretation is always present. */
  function Shown(value: int, interpretation: string, color: Color, nextSteps: Option<string>): CalculatorResult
  {
    CalculatorResult(value, Some(interpretation), color, nextSteps)
  }

  /** The decimal text of an integer, as a template literal prints it. */
  function IntToString(n: int): (s: string)
    ensures |s| >= 1
    ensures n >= 0 ==> forall i :: 0 <= i < |s| ==> '0' <= s[i] <= '9'
    ensures n >= 0 ==> DigitsValue(s) == n
    ensures n < 0 ==> s[0] == '-' && DigitsValue(s[1..]) == -n
  {
    if n < 0 then "-" + NatToString(-n) else NatToString(n)
  }

  /** The decimal digits of `n`, most significant first, with no leading zero. */
  function NatToString(n: nat): (s: string)
    ensures |s| >= 1
    ensures forall i :: 0 <= i < |s| ==> '0' <= s[i] <= '9'
    ensures DigitsValue(s) == n
    ensures |s| > 1 ==> s[0] != '0'
  {
    var digit := [(('0' as int) + n % 10) as char];
    if n < 10 then digit
    else
      var prefix := NatToString(n / 10);
      assert (prefix + digit)[..|prefix|] == prefix;
      prefix + digit
  }

  /** The number a string of decimal digits denotes, read most significant digit first. */
  function DigitsValue(s: string): nat
  {
    if |s| == 0 then 0
    else
      var d := s[|s| - 1] as int - '0' as int;
      DigitsValue(s[..|s| - 1]) * 10 + (if 0 <= d <= 9 then d else 0)
  }
}
