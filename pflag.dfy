/** The part of github.com/spf13/pflag that the core relies on: a flag with
    its name, shorthand, "changed" mark and current value, and a flag set with
    lookup by name, a parsed mark and `Set(name, value)`. The library itself is
    not part of this model; these classes state its documented behaviour. */
module Pflag {
  import opened Wrappers
  import opened TextUtil
  import opened FlagValue

  /** The observable state of one flag; `value` is the text of its current
      value (what the value's String() returns). */
  datatype FlagState = FlagState(name: string, shorthand: string, changed: bool, value: string, setter: Setter)

  /** "-s, --name" when the flag has a shorthand, "--name" otherwise. */
  function DisplayName(f: FlagState): string
  {
    if f.shorthand != "" then "-" + f.shorthand + ", --" + f.name else "--" + f.name
  }

  /** The error FlagSet.Set reports when the value rejects its input. */
  function InvalidArgument(f: FlagState, input: string, cause: string): string
  {
    "invalid argument " + Quote(input) + " for " + Quote(DisplayName(f)) + " flag: " + cause
  }

  /** FlagSet.Set on one flag: on success the new value is stored and the flag
      is marked changed; on failure nothing changes. */
  function SetFlag(f: FlagState, input: string): (r: (FlagState, Option<string>))
    ensures r.1.None? <==> SetOutcome(f.setter, f.value, input).Success?
    ensures r.1.None? ==> r.0 == f.(value := SetOutcome(f.setter, f.value, input).value, changed := true)
    ensures r.1.Some? ==> r.0 == f
    ensures r.1.Some? ==> r.1.value == InvalidArgument(f, input, SetOutcome(f.setter, f.value, input).error)
  {
    match SetOutcome(f.setter, f.value, input)
    case Success(t) => (f.(value := t, changed := true), None)
    case Failure(e) => (f, Some(InvalidArgument(f, input, e)))
  }

  class Flag {
    const name: string
    const shorthand: string
    var changed: bool
    var value: string
    var setter: Setter

    constructor (name: string, shorthand: string, default: string, setter: Setter)
      ensures State() == FlagState(name, shorthand, false, default, setter)
    {
      this.name := name;
      this.shorthand := shorthand;
      this.changed := false;
      this.value := default;
      this.setter := setter;
    }

    function State(): FlagState
      reads this
    {
      FlagState(name, shorthand, changed, value, setter)
    }

    /** Value.Set(input) through every layer of the flag's value. */
    method ValueSet(input: string) returns (err: Option<string>)
      modifies this`value
      ensures match SetOutcome(setter, old(value), input)
        case Success(t) => value == t && err.None?
        case Failure(e) => value == old(value) && err == Some(e)
    {
      err := SetThrough(setter, input);
    }

    /** The Set of one layer: a typed value parses its input; a validated
        value runs its validator and, only if that accepts, delegates the
        same string; a transforming value delegates fn(input). */
    method SetThrough(layer: Setter, input: string) returns (err: Option<string>)
      modifies this`value
      decreases layer
      ensures match SetOutcome(layer, old(value), input)
        case Success(t) => value == t && err.None?
        case Failure(e) => value == old(value) && err == Some(e)
    {
      match layer
      case Typed(parse) =>
        var r := parse(value, input);
        if r.Success? {
          value := r.value;
          err := None;
        } else {
          err := Some(r.error);
        }
      case Validated(inner, check) =>
        var rejected := check(input);
        if rejected.Some? {
          return rejected;
        }
        err := SetThrough(inner, input);
      case Transforming(inner, fn) =>
        err := SetThrough(inner, fn(input));
    }
  }

  function StatesOf(flags: seq<Flag>): (r: seq<FlagState>)
    reads flags
    ensures |r| == |flags|
    ensures forall i :: 0 <= i < |flags| ==> r[i] == flags[i].State()
  {
    seq(|flags|, i requires 0 <= i < |flags| reads flags => flags[i].State())
  }

  function IndexOf(flags: seq<Flag>, name: string): (r: Option<nat>)
    reads flags
    ensures r.Some? ==> r.value < |flags| && flags[r.value].name == name
    ensures r.None? ==> forall i :: 0 <= i < |flags| ==> flags[i].name != name
  {
    if |flags| == 0 then None
    else if flags[0].name == name then Some(0)
    else match IndexOf(flags[1..], name)
      case None => None
      case Some(i) => Some(i + 1)
  }

  class FlagSet {
    /** The flags in the order VisitAll walks them. */
    var flags: seq<Flag>
    var parsed: bool

    /** Flag names are unique within a set (pflag refuses to redefine one). */
    ghost predicate Valid()
      reads this, flags
    {
      forall i, j :: 0 <= i < j < |flags| ==> flags[i].name != flags[j].name
    }

    function States(): seq<FlagState>
      reads this, flags
    {
      StatesOf(flags)
    }

    /** FlagSet.Lookup: the position of the flag called `name`, if any. */
    function Lookup(name: string): (r: Option<nat>)
      reads this, flags
      ensures r.Some? ==> r.value < |flags| && flags[r.value].name == name
      ensures r.None? ==> forall i :: 0 <= i < |flags| ==> flags[i].name != name
    {
      IndexOf(flags, name)
    }

    /** FlagSet.Set(name, value). */
    method Set(name: string, input: string) returns (err: Option<string>)
      requires Valid()
      modifies flags
      ensures Lookup(name).None? ==> err == Some("no such flag -" + name) && States() == old(States())
      ensures Lookup(name).Some? ==>
        var i := Lookup(name).value;
        States() == old(States())[i := SetFlag(old(States())[i], input).0] &&
        err == SetFlag(old(States())[i], input).1
    {
      var found := Lookup(name);
      if found.None? {
        return Some("no such flag -" + name);
      }
      var f := flags[found.value];
      var before := f.State();
      var failure := f.ValueSet(input);
      if failure.Some? {
        return Some(InvalidArgument(before, input, failure.value));
      }
      f.changed := true;
      err := None;
    }
  }
}
