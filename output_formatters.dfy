/** output/formatters.go: formatters, the registry that maps names to them,
    and the built-in ones. */
module OutputFormatters {
  import opened Wrappers
  import opened TextUtil
  import opened OutputConfig
  import opened OutputTemplate

  /** A Formatter: the three built-in FormatFuncs, or any other FormatFunc. */
  datatype Formatter =
    | JsonFormatter
    | YamlFormatter
    | TemplateFormatter
    | Func(fn: (Data, Settings) -> Result<seq<byte>, string>)

  /** Formatter.Format(v, config). A FormatFunc is applied to its arguments;
      "json" indents with two spaces and no prefix, "yaml" marshals, and
      "gotemplate" returns what formatTemplate wrote, or only the error. */
  function FormatWith(f: Formatter, lib: Library, v: Data, s: Settings): (r: Result<seq<byte>, string>)
    ensures f.Func? ==> r == f.fn(v, s)
    ensures f == TemplateFormatter && s.template == "" ==> r == Failure(EmptyTemplate)
    ensures f == TemplateFormatter && r.Success? ==> r.value == TemplateOutput(lib, v, s).0
  {
    match f
    case JsonFormatter => lib.marshalJson(v)
    case YamlFormatter => lib.marshalYaml(v)
    case TemplateFormatter =>
      var out := TemplateOutput(lib, v, s);
      if out.1.Some? then Failure(out.1.value) else Success(out.0)
    case Func(fn) => fn(v, s)
  }

  /** The "gotemplate" formatter: formatTemplate into a fresh buffer. */
  method FormatGoTemplate(lib: Library, v: Data, s: Settings) returns (r: Result<seq<byte>, string>)
    ensures r == FormatWith(TemplateFormatter, lib, v, s)
    ensures s.template == "" ==> r == Failure(EmptyTemplate)
    ensures r.Success? ==> TemplateOutput(lib, v, s).1.None? && r.value == TemplateOutput(lib, v, s).0
  {
    var buf := new Buffer();
    var err := FormatTemplate(buf, lib, v, s);
    assert buf.bytes == TemplateOutput(lib, v, s).0 by {
      assert [] + TemplateOutput(lib, v, s).0 == TemplateOutput(lib, v, s).0;
    }
    if err.Some? {
      return Failure(err.value);
    }
    return Success(buf.bytes);
  }

  /** The built-in Formatters map. */
  function Builtins(): (m: map<string, Formatter>)
    ensures m.Keys == {"json", "yaml", "gotemplate"}
  {
    map["json" := JsonFormatter, "yaml" := YamlFormatter, "gotemplate" := TemplateFormatter]
  }

  function AlreadyRegistered(name: string): string
  {
    "formatter with name " + Quote(name) + " already registered"
  }

  /** The panic of an assignment to a nil Go map. */
  const NilMapAssignment := "assignment to entry in nil map"

  /** A FormatterMap. A nil map (the zero value, for instance an unset
      Config.Formatters) reads as empty but cannot be assigned to. */
  class FormatterMap {
    var entries: map<string, Formatter>
    const isNil: bool

    constructor (entries: map<string, Formatter>)
      ensures this.entries == entries && !isNil
    {
      this.entries := entries;
      this.isNil := false;
    }

    /** The nil FormatterMap. */
    constructor Nil()
      ensures entries == map[] && isNil
    {
      this.entries := map[];
      this.isNil := true;
    }

    /** Register(name, f): a name already present is refused, and so is any
        name on a nil map (each panic is returned as an error); either way the
        map is left as it was. */
    method Register(name: string, f: Formatter) returns (err: Option<string>)
      modifies this
      ensures name in old(entries) ==> err == Some(AlreadyRegistered(name)) && entries == old(entries)
      ensures name !in old(entries) && isNil ==> err == Some(NilMapAssignment) && entries == old(entries)
      ensures name !in old(entries) && !isNil ==> err.None? && entries == old(entries)[name := f]
    {
      if name in entries {
        return Some(AlreadyRegistered(name));
      }
      if isNil {
        return Some(NilMapAssignment);
      }
      entries := entries[name := f];
      err := None;
    }

    /** Names(): the names collected in the map's iteration order, then sorted. */
    method Names() returns (names: seq<string>)
      ensures |names| == |entries|
      ensures forall k :: k in names <==> k in entries
      ensures StrictlySorted(names)
      ensures names == SortedSet(entries.Keys)
    {
      var collected: seq<string> := [];
      var remaining := entries.Keys;
      while remaining != {}
        invariant forall k :: k in entries <==> k in collected || k in remaining
        invariant forall k :: k in collected ==> k !in remaining
        invariant Distinct(collected)
        decreases |remaining|
      {
        var name :| name in remaining;
        collected := collected + [name];
        remaining := remaining - {name};
      }
      names := Sort(collected);
      SortOfDistinct(collected);
      assert forall k :: k in names <==> k in collected by {
        forall k ensures k in names <==> k in collected {
          assert k in names <==> k in multiset(names);
          assert k in collected <==> k in multiset(collected);
        }
      }
      StrictlySortedUnique(names, SortedSet(entries.Keys));
    }
  }

  /** The built-in formatters are listed as gotemplate, json, yaml. */
  lemma BuiltinNames()
    ensures SortedSet(Builtins().Keys) == ["gotemplate", "json", "yaml"]
  {
    var names := ["gotemplate", "json", "yaml"];
    assert LessEq("gotemplate", "json") && LessEq("json", "yaml") && LessEq("gotemplate", "yaml");
    assert StrictlySorted(names);
    StrictlySortedUnique(SortedSet(Builtins().Keys), names);
  }
}
