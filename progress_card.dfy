/** The progress card: a figure shown against its target, with a clamped
    percentage bar, a rounded percentage label and a value format. The
    number-to-text conversions (`toLocaleString`, `String`) are parameters. */
module ProgressCard {
  import opened Common

  datatype Format = Currency | Percentage | Number

  /** The format used when the caller gives none. */
  const DefaultFormat: Format := Currency

  /** `Math.round(percentage)`: the label next to the bar. */
  function PercentLabel(current: real, target: real): (n: int)
    requires target > 0.0
    ensures n <= 100
    ensures current >= 0.0 ==> n >= 0
    ensures current >= target ==> n == 100
  {
    Round(ClampedPercentage(current, target))
  }

  /** `formatValue`: `localized` stands for `value.toLocaleString()` and
      `plain` for the template-string conversion `${value}`. */
  function FormatValue(format: Format, localized: string, plain: string): (text: string)
    ensures format == Currency ==> |text| > 0 && text[0] == '$' && text[1..] == localized
    ensures format == Percentage ==> |text| > 0 && text[|text| - 1] == '%' && text[..|text| - 1] == plain
    ensures format == Number ==> text == localized
  {
    match format
    case Currency => "$" + localized
    case Percentage => plain + "%"
    case Number => localized
  }
}
