/** pflagx/transformer.go: registering a transformer on a flag. */
module Transformer {
  import opened Wrappers
  import opened TextUtil
  import opened FlagValue
  import opened Pflag
  import Validator

  /** With strings.ToUpper registered, setting "valid-value" stores "VALID-VALUE". */
  lemma UpperTransformer(current: string)
    ensures SetOutcome(Transforming(StringValue(), Upper), current, "valid-value") == Success("VALID-VALUE")
  {
    UpperValidValue();
  }

  lemma UpperValidValue()
    ensures Upper("valid-value") == "VALID-VALUE"
  {
    var r := Upper("valid-value");
    assert r == "VALID-VALUE" by {
      forall i | 0 <= i < |r|
        ensures r[i] == "VALID-VALUE"[i]
      {
      }
    }
  }

  /** RegisterTransformerFunc(fs, name, fn). Go panics on misuse; here the
      panic message is returned as an error and nothing changes. The checks run
      in order: nil func, already parsed set, unknown flag. */
  method RegisterTransformerFunc(fs: FlagSet, name: string, fn: Option<Transformer>) returns (err: Option<string>)
    requires fs.Valid()
    modifies fs.flags
    ensures fn.None? ==> err == Some("pflagx.RegisterTransformerFunc: nil transformer func")
    ensures fn.Some? && fs.parsed ==> err == Some("pflagx.RegisterTransformerFunc: must be invoked before fs.Parse()")
    ensures fn.Some? && !fs.parsed && fs.Lookup(name).None? ==>
      err == Some("pflagx.RegisterTransformerFunc: flag " + Quote(name) + " not defined")
    ensures err.None? <==> fn.Some? && !fs.parsed && fs.Lookup(name).Some?
    ensures err.Some? ==> fs.States() == old(fs.States())
    ensures err.None? ==>
      fs.States() == Validator.Wrapped(old(fs.States()), fs.Lookup(name).value, (inner: Setter) => Transforming(inner, fn.value))
  {
    if fn.None? {
      return Some("pflagx.RegisterTransformerFunc: nil transformer func");
    }
    if fs.parsed {
      return Some("pflagx.RegisterTransformerFunc: must be invoked before fs.Parse()");
    }
    var found := fs.Lookup(name);
    if found.None? {
      return Some("pflagx.RegisterTransformerFunc: flag " + Quote(name) + " not defined");
    }
    var flag := fs.flags[found.value];
    flag.setter := Transforming(flag.setter, fn.value);
    err := None;
  }
}
