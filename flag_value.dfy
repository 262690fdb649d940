/** The `Set` behaviour of a pflag.Value, including the two decorators of
    pflagx: validatedValue (pflagx/validator.go) and transformingValue
    (pflagx/transformer.go). A decorated value is a layer around the value
    it wraps, so the whole stack is one datatype. */
module FlagValue {
  import opened Wrappers

  /** pflagx.ValidatorFunc: None is Go's nil error. */
  type Validator = string -> Option<string>

  /** pflagx.TransformerFunc. */
  type Transformer = string -> string

  datatype Setter =
      /** A typed pflag value: from its current text and the input it either
          yields its new text or a parse error. */
    | Typed(parse: (string, string) -> Result<string, string>)
      /** validatedValue: runs `check` before the wrapped value's Set. */
    | Validated(inner: Setter, check: Validator)
      /** transformingValue: hands `fn(s)` to the wrapped value's Set. */
    | Transforming(inner: Setter, fn: Transformer)

  /** What one `Set(input)` call does to a value whose current text is `current`. */
  function SetOutcome(s: Setter, current: string, input: string): Result<string, string>
  {
    match s
    case Typed(parse) => parse(current, input)
    case Validated(inner, check) =>
      if check(input).Some? then Failure(check(input).value) else SetOutcome(inner, current, input)
    case Transforming(inner, fn) => SetOutcome(inner, current, fn(input))
  }

  /** A plain string flag: Set stores its input as is. */
  function StringValue(): Setter
  {
    Typed((current: string, input: string) => Success(input))
  }

  /** A validator that rejects a value leaves the wrapped value unset and
      reports the validator's own error; one that accepts is transparent:
      the wrapped value sees the same input and gives the same outcome. */
  lemma ValidatedSet(inner: Setter, check: Validator, current: string, input: string)
    ensures check(input).Some? ==> SetOutcome(Validated(inner, check), current, input) == Failure(check(input).value)
    ensures check(input).None? ==> SetOutcome(Validated(inner, check), current, input) == SetOutcome(inner, current, input)
  {
  }

  /** The wrapped value receives fn(s), never s, and its outcome (a parse
      error included) is returned unchanged. */
  lemma TransformingSet(inner: Setter, fn: Transformer, current: string, input: string)
    ensures SetOutcome(Transforming(inner, fn), current, input) == SetOutcome(inner, current, fn(input))
  {
  }

  /** The value at the bottom of a stack of decorators. */
  function Innermost(s: Setter): Setter
  {
    match s
    case Typed(_) => s
    case Validated(inner, _) => Innermost(inner)
    case Transforming(inner, _) => Innermost(inner)
  }

  predicate OnlyValidators(s: Setter)
  {
    match s
    case Typed(_) => true
    case Validated(inner, _) => OnlyValidators(inner)
    case Transforming(_, _) => false
  }

  ghost predicate AllAccept(s: Setter, input: string)
  {
    match s
    case Typed(_) => true
    case Validated(inner, check) => check(input).None? && AllAccept(inner, input)
    case Transforming(inner, fn) => AllAccept(inner, fn(input))
  }

  /** A Set through a stack of validators (no transformer) succeeds only if
      every validator accepted the input, and when they all accept, the
      innermost value receives exactly that input. */
  lemma {:induction false} ValidatorStack(s: Setter, current: string, input: string)
    requires OnlyValidators(s)
    ensures SetOutcome(s, current, input).Success? ==> AllAccept(s, input)
    ensures AllAccept(s, input) ==> SetOutcome(s, current, input) == SetOutcome(Innermost(s), current, input)
  {
    match s
    case Typed(_) =>
    case Validated(inner, check) => ValidatorStack(inner, current, input);
  }
}
