/** The contract every crypto plugin shares: parameter and result maps, the
    errors a plugin can raise, and the required-parameter check. */
module Base {
  import opened Wrappers
  import Text

  /** A value held in a parameter or result dictionary. */
  datatype Value = Str(s: string) | Int(n: int)

  /** A parameter or result dictionary. */
  type Params = map<string, Value>

  /** What an f-string interpolation of a value produces: a string as it is, an
      integer in decimal without leading zeros, with a minus sign exactly when it is
      negative. */
  function Show(v: Value): (r: string)
    ensures v.Str? ==> r == v.s
    ensures v.Int? ==> |r| > 0 && (r[0] == '-' <==> v.n < 0)
    ensures v.Int? && v.n >= 0 ==> && Text.AllDigits(r) && Text.DigitsValue(r) == v.n
                                   && (|r| > 1 ==> r[0] != '0')
    ensures v.Int? && v.n < 0 ==> && |r| > 1 && Text.AllDigits(r[1..]) && Text.DigitsValue(r[1..]) == -v.n
                                  && (|r| > 2 ==> r[1] != '0')
  {
    match v
    case Str(s) => s
    case Int(n) => Text.IntToString(n)
  }

  /** Two integers interpolate to the same text only when they are equal. */
  lemma ShowIntInjective(a: int, b: int)
    requires Show(Int(a)) == Show(Int(b))
    ensures a == b
  {
    Text.IntToStringInjective(a, b);
  }

  /** The exceptions the pipeline can raise, by cause. */
  datatype Exception =
    | MissingParameters(keys: seq<string>)   // ValueError from a plugin's parameter check
    | NoPluginFound(operation: string)       // ValueError from the plugin manager
    | ToolFailed(message: string)            // the external tool exited with an error
    | KeyMissing(key: string)                // KeyError from a dictionary lookup

  /** The outcome of running the external cryptographic tool for one operation. */
  datatype ToolRun = ToolOk | ToolError(message: string)

  /** The required keys absent from `params`, in the order of `required`. */
  function MissingKeys(params: Params, required: seq<string>): (missing: seq<string>)
    ensures |missing| <= |required|
    ensures forall k :: k in missing <==> k in required && k !in params
  {
    if |required| == 0 then []
    else if required[0] in params then MissingKeys(params, required[1..])
    else [required[0]] + MissingKeys(params, required[1..])
  }

  /** The missing list of a concatenation is the concatenation of the missing lists:
      the check keeps the order of `required`. */
  lemma {:induction false} MissingKeysAppend(params: Params, a: seq<string>, b: seq<string>)
    ensures MissingKeys(params, a + b) == MissingKeys(params, a) + MissingKeys(params, b)
    decreases |a|
  {
    if |a| == 0 {
      assert a + b == b;
    } else {
      assert (a + b)[0] == a[0];
      assert (a + b)[1..] == a[1..] + b;
      MissingKeysAppend(params, a[1..], b);
    }
  }

  /** A single required key is reported exactly when it is absent. */
  lemma MissingKeysSingle(params: Params, k: string)
    ensures MissingKeys(params, [k]) == (if k in params then [] else [k])
  {
  }

  /** `validate_params`: raises, naming the missing keys, exactly when some required key is absent. */
  function ValidateParams(params: Params, required: seq<string>): (r: Outcome<Exception>)
    ensures r.Pass? <==> forall k :: k in required ==> k in params
    ensures r.Fail? ==> (&& r.error.MissingParameters?
                         && (forall k :: k in r.error.keys <==> k in required && k !in params)
                         && |r.error.keys| > 0)
    ensures r.Fail? ==> r.error == MissingParameters(MissingKeys(params, required))
  {
    var missing := MissingKeys(params, required);
    if |missing| > 0 then
      assert missing[0] in missing;
      Fail(MissingParameters(missing))
    else
      Pass
  }

  /** An empty list of required keys never fails. */
  lemma ValidateParamsEmpty(params: Params)
    ensures ValidateParams(params, []) == Pass
  {
  }
}
