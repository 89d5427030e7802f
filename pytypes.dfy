/**
 * The slice of Python's runtime the deck relies on: optional values,
 * exceptions as result values, the dynamically typed values that plugins
 * publish as variables, their `str()` display form, and `int()` on the
 * decimal strings that arrive from the web client.
 */
module PyTypes {

  datatype Option<+T> = None | Some(value: T)

  /** A computation that either returns a value or raises an exception. */
  datatype Result<+T> = Ok(value: T) | Err(error: Exception)

  /** The exceptions the core can raise. */
  datatype Exception =
    | KeyError(key: string)
    | IndexError
    | ValueError(message: string)
    | AttributeError(attribute: string)
      /** a format field this model does not interpret (format spec, conversion, attribute or index) */
    | UnsupportedField(field: string)
      /** an exception raised inside plugin code (load or update) */
    | PluginRaised(plugin: string)
      /** an exception raised while a plugin module is imported */
    | ImportFailed(moduleName: string)

  /** A plugin variable: the JSON-like scalars the bundled plugins publish. */
  datatype Value = Str(s: string) | Int(i: int) | Bool(b: bool) | NoneValue

  predicate IsDigit(c: char) { '0' <= c <= '9' }

  predicate AllDigits(s: string) { forall i :: 0 <= i < |s| ==> IsDigit(s[i]) }

  function DigitChar(d: nat): (c: char)
    requires d < 10
    ensures IsDigit(c) && c as int - '0' as int == d
  {
    ['0', '1', '2', '3', '4', '5', '6', '7', '8', '9'][d]
  }

  /** `str(n)` for a non-negative integer: its decimal digits, no leading zero. */
  function NatToDecimal(n: nat): (s: string)
    ensures |s| > 0 && AllDigits(s)
    ensures |s| > 1 ==> s[0] != '0'
    decreases n
  {
    if n < 10 then [DigitChar(n)] else NatToDecimal(n / 10) + [DigitChar(n % 10)]
  }

  /** `str(v)`: the display form `str.format` substitutes for a field. */
  function Display(v: Value): string
  {
    match v
    case Str(s) => s
    case Int(i) => if i < 0 then "-" + NatToDecimal(-i) else NatToDecimal(i)
    case Bool(b) => if b then "True" else "False"
    case NoneValue => "None"
  }

  /** The value of a string of decimal digits, most significant first. */
  function DecimalValue(s: string): (n: nat)
    requires AllDigits(s)
    decreases |s|
  {
    if s == [] then 0 else 10 * DecimalValue(s[..|s| - 1]) + (s[|s| - 1] as int - '0' as int)
  }

  /**
   * The ASCII whitespace `int()` skips around its digits: space, tab, line
   * feed, vertical tab, form feed and carriage return. The separators
   * U+001C to U+001F, which `str.isspace()` accepts, are not among them.
   */
  predicate IsAsciiSpace(c: char)
  {
    c == ' ' || c == '\t' || c == '\n' || c == '\r' || c as int == 11 || c as int == 12
  }

  /** The whitespace `int()` removes from both ends of its argument. */
  function Strip(s: string): (r: string)
    ensures |r| <= |s|
    ensures r != [] ==> !IsAsciiSpace(r[0]) && !IsAsciiSpace(r[|r| - 1])
    decreases |s|
  {
    if s == [] then []
    else if IsAsciiSpace(s[0]) then Strip(s[1..])
    else if IsAsciiSpace(s[|s| - 1]) then Strip(s[..|s| - 1])
    else s
  }

  /**
   * `int(s)`: surrounding whitespace, an optional sign, then one or more
   * decimal digits; anything else raises ValueError.
   */
  function ParseInt(s: string): (r: Result<int>)
    ensures r.Err? ==> r.error.ValueError?
  {
    var t := Strip(s);
    if t == [] then Err(ValueError("invalid literal for int()"))
    else if t[0] == '-' && |t| > 1 && AllDigits(t[1..]) then Ok(-(DecimalValue(t[1..]) as int))
    else if t[0] == '+' && |t| > 1 && AllDigits(t[1..]) then Ok(DecimalValue(t[1..]))
    else if AllDigits(t) then Ok(DecimalValue(t))
    else Err(ValueError("invalid literal for int()"))
  }

  /** A leading space, tab, line feed, vertical tab, form feed or carriage return does not change what `int()` reads. */
  lemma ParseIntLeadingSpace(c: char, s: string)
    requires IsAsciiSpace(c)
    ensures ParseInt([c] + s) == ParseInt(s)
  {
    assert ([c] + s)[1..] == s;
  }

  /** `int("\x1c1")` raises ValueError: U+001C is not whitespace to `int()`. */
  lemma ParseIntAfterSeparator()
    ensures ParseInt([28 as char] + "1").Err?
  {
    var s := [28 as char] + "1";
    assert !IsAsciiSpace(s[0]) && !IsAsciiSpace(s[1]);
    assert Strip(s) == s;
    assert !AllDigits(s);
  }

  lemma {:induction false} DecimalValueOfNat(n: nat)
    ensures DecimalValue(NatToDecimal(n)) == n
    decreases n
  {
    if n >= 10 {
      DecimalValueOfNat(n / 10);
      var s := NatToDecimal(n);
      assert s[..|s| - 1] == NatToDecimal(n / 10);
    }
  }

  /** `int(str(n)) == n`: the decimal display of an integer parses back to it. */
  lemma ParseIntDisplay(n: int)
    ensures ParseInt(Display(Int(n))) == Ok(n)
  {
    var m: nat := if n < 0 then -n else n;
    var d := NatToDecimal(m);
    DecimalValueOfNat(m);
    ParseIntDigits(d);
    if n < 0 {
      assert Display(Int(n)) == "-" + d;
    } else {
      assert Display(Int(n)) == d;
    }
  }

  /** A run of decimal digits, with or without a minus sign, parses to its value. */
  lemma ParseIntDigits(d: string)
    requires d != [] && AllDigits(d)
    ensures ParseInt(d) == Ok(DecimalValue(d))
    ensures ParseInt("-" + d) == Ok(-(DecimalValue(d) as int))
  {
    assert IsDigit(d[0]) && IsDigit(d[|d| - 1]);
    assert Strip(d) == d;
    var s := "-" + d;
    assert s[|s| - 1] == d[|d| - 1];
    assert Strip(s) == s;
    assert s[0] == '-' && s[1..] == d;
  }
}
