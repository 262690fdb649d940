/** pflagx/validator.go: registering a validator on a flag and the AnyOf validator. */
module Validator {
  import opened Wrappers
  import opened TextUtil
  import opened FlagValue
  import opened Pflag

  /** The rejection message of AnyOf: the values, each in double quotes,
      separated by ", " in the order given. */
  function PossibleValues(values: seq<string>): string
  {
    "possible values: \"" + Join(values, "\", \"") + "\""
  }

  /** AnyOf(values...): the validator that accepts exactly the listed values. */
  function AnyOf(values: seq<string>): Validator
  {
    (val: string) => if val in values then None else Some(PossibleValues(values))
  }

  /** The validator returned by AnyOf, as the loop with early return it runs. */
  method AnyOfCheck(values: seq<string>, val: string) returns (err: Option<string>)
    ensures err.None? <==> val in values
    ensures err.Some? ==> err.value == PossibleValues(values)
    ensures err == AnyOf(values)(val)
  {
    for i := 0 to |values|
      invariant val !in values[..i]
    {
      if values[i] == val {
        return None;
      }
    }
    assert values[..|values|] == values;
    return Some(PossibleValues(values));
  }

  /** With no values, AnyOf rejects everything. */
  lemma AnyOfNothing(val: string)
    ensures AnyOf([])(val).Some?
  {
  }

  /** A string flag guarded by AnyOf ends up holding one of the values after
      every successful Set, and Set fails with the rejection message for
      every other input. */
  lemma AnyOfGuardsStringFlag(values: seq<string>, current: string, input: string)
    ensures SetOutcome(Validated(StringValue(), AnyOf(values)), current, input) ==
      if input in values then Success(input) else Failure(PossibleValues(values))
  {
  }

  /** The validator's rejection, as FlagSet.Set reports it while parsing a
      flag without shorthand, e.g. `invalid argument "invalid-value" for
      "--the-flag" flag: possible values: "valid-value", "other-value"`. */
  lemma AnyOfRejectionMessage(name: string, values: seq<string>, current: string, input: string)
    requires input !in values
    requires '"' !in input && '\\' !in input && '"' !in name && '\\' !in name
    ensures SetFlag(FlagState(name, "", false, current, Validated(StringValue(), AnyOf(values))), input).1
      == Some("invalid argument " + ("\"" + input + "\"") + " for " + ("\"" + ("--" + name) + "\"") + " flag: "
              + ("possible values: \"" + Join(values, "\", \"") + "\""))
  {
    EscapePlain(input);
    EscapePlain("--" + name);
    var f := FlagState(name, "", false, current, Validated(StringValue(), AnyOf(values)));
    AnyOfGuardsStringFlag(values, current, input);
    assert DisplayName(f) == "--" + name;
    assert SetFlag(f, input).1 == Some(InvalidArgument(f, input, PossibleValues(values)));
  }

  /** The flag states after the flag at position i got its value wrapped. */
  function Wrapped(states: seq<FlagState>, i: nat, wrap: Setter -> Setter): (r: seq<FlagState>)
    requires i < |states|
    ensures |r| == |states|
    ensures r[i].setter == wrap(states[i].setter)
    ensures r[i] == states[i].(setter := r[i].setter)
    ensures forall j :: 0 <= j < |states| && j != i ==> r[j] == states[j]
  {
    states[i := states[i].(setter := wrap(states[i].setter))]
  }

  /** RegisterValidatorFunc(fs, name, fn). Go panics on misuse; here the panic
      message is returned as an error and nothing changes. The checks run in
      order: nil func, already parsed set, unknown flag. */
  method RegisterValidatorFunc(fs: FlagSet, name: string, fn: Option<Validator>) returns (err: Option<string>)
    requires fs.Valid()
    modifies fs.flags
    ensures fn.None? ==> err == Some("pflagx.RegisterValidatorFunc: nil validator func")
    ensures fn.Some? && fs.parsed ==> err == Some("pflagx.RegisterValidatorFunc: must be invoked before fs.Parse()")
    ensures fn.Some? && !fs.parsed && fs.Lookup(name).None? ==>
      err == Some("pflagx.RegisterValidatorFunc: flag " + Quote(name) + " not defined")
    ensures err.None? <==> fn.Some? && !fs.parsed && fs.Lookup(name).Some?
    ensures err.Some? ==> fs.States() == old(fs.States())
    ensures err.None? ==>
      fs.States() == Wrapped(old(fs.States()), fs.Lookup(name).value, (inner: Setter) => Validated(inner, fn.value))
  {
    if fn.None? {
      return Some("pflagx.RegisterValidatorFunc: nil validator func");
    }
    if fs.parsed {
      return Some("pflagx.RegisterValidatorFunc: must be invoked before fs.Parse()");
    }
    var found := fs.Lookup(name);
    if found.None? {
      return Some("pflagx.RegisterValidatorFunc: flag " + Quote(name) + " not defined");
    }
    var flag := fs.flags[found.value];
    flag.setter := Validated(flag.setter, fn.value);
    err := None;
  }
}
