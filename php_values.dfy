/**
 The values a console command handler sees: a positional argument or a
 value-taking option is a string or null, a flag option is a boolean.
 PHP tests such values with `if ($x)`, whose truthiness rules for strings
 and null are modelled here.
 */
module PhpValues {

  /** A string-or-null value: `None` is PHP's `null`. */
  datatype Option<+T> = None | Some(value: T)

  /** PHP truthiness of a string: only "" and "0" are false. */
  predicate TruthyString(s: string) {
    s != "" && s != "0"
  }

  /** PHP truthiness of a string-or-null value, as `if ($x)` evaluates it. */
  predicate Truthy(v: Option<string>) {
    v.Some? && TruthyString(v.value)
  }

  /** PHP's `is_null($x)`: unlike truthiness, "" and "0" are not null. */
  predicate IsNull(v: Option<string>) {
    v.None?
  }

  /** The value an option reads as when it has a declared default. */
  function OrDefault(v: Option<string>, default: string): string {
    match v
    case Some(x) => x
    case None => default
  }

  /** PHP's string conversion of a string-or-null: null becomes "". */
  function StringOf(v: Option<string>): string {
    OrDefault(v, "")
  }
}
