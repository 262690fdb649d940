/** output/format.go: choosing the formatter, the JSON pointer step, the
    trailing-newline rule, and the string and writer forms of the result. */
module OutputFormat {
  import opened Wrappers
  import opened TextUtil
  import opened OutputConfig
  import opened OutputFormatters

  /** Config: the user's formatter map (empty means the built-in one) and the
      settings. */
  datatype Config = Config(formatters: map<string, Formatter>, settings: Settings)

  function NoFormatter(format: string): string
  {
    "no formatter for format " + Quote(format)
  }

  /** The map FormatBytes consults: the user's own unless it is empty, and
      otherwise the package-level Formatters map in its current state
      (`global`), which starts out as Builtins() and grows by Register. */
  function Selected(config: Config, global: map<string, Formatter>): (m: map<string, Formatter>)
    ensures |config.formatters| == 0 ==> m == global
    ensures |config.formatters| > 0 ==> m == config.formatters
  {
    if |config.formatters| == 0 then global else config.formatters
  }

  /** The trailing-newline rule: one "\n" is appended to non-empty output
      that does not already end in one. */
  function WithTrailingNewline(buf: seq<byte>): seq<byte>
  {
    if |buf| > 0 && buf[|buf| - 1] != Newline then buf + [Newline] else buf
  }

  /** The rule keeps the output as a prefix, adds at most one byte, leaves
      empty output empty, makes non-empty output end in "\n", and applying it
      twice is applying it once. */
  lemma TrailingNewlineRule(buf: seq<byte>)
    ensures var r := WithTrailingNewline(buf);
      buf <= r && |r| <= |buf| + 1 &&
      (|buf| == 0 <==> |r| == 0) &&
      (|r| > 0 ==> r[|r| - 1] == Newline) &&
      (|buf| > 0 && buf[|buf| - 1] == Newline ==> r == buf) &&
      WithTrailingNewline(r) == r
  {
  }

  /** The value the formatter sees: the JSON pointer's result when a pointer
      is set, the value itself otherwise. */
  function PointerTarget(lib: Library, v: Data, s: Settings): Result<Data, string>
  {
    if s.jsonPointer != "" then lib.pointerGet(v, s.jsonPointer) else Success(v)
  }

  /** FormatBytes(v, config), with `global` the current contents of the
      package-level Formatters map. */
  function FormatBytes(lib: Library, v: Data, config: Config, global: map<string, Formatter>): (r: Result<seq<byte>, string>)
    ensures r.Success? ==> config.settings.format in Selected(config, global)
    ensures r.Success? && config.settings.trailingNewline && |r.value| > 0 ==> r.value[|r.value| - 1] == Newline
  {
    var formatters := Selected(config, global);
    var s := config.settings;
    if s.format !in formatters then Failure(NoFormatter(s.format))
    else
      var target := PointerTarget(lib, v, s);
      if target.Failure? then Failure(target.error)
      else match FormatWith(formatters[s.format], lib, target.value, s)
        case Failure(e) => Failure(e)
        case Success(buf) => Success(if s.trailingNewline then WithTrailingNewline(buf) else buf)
  }

  /** Which map answers: an empty user map is the same as handing over the
      package-level map itself, and a non-empty user map alone decides,
      whatever the package-level map holds. */
  lemma SelectionRule(lib: Library, v: Data, s: Settings, user: map<string, Formatter>,
                      global: map<string, Formatter>, global': map<string, Formatter>)
    ensures FormatBytes(lib, v, Config(map[], s), global) == FormatBytes(lib, v, Config(global, s), global)
    ensures |user| > 0 ==> FormatBytes(lib, v, Config(user, s), global) == FormatBytes(lib, v, Config(user, s), global')
  {
  }

  /** Which formatter runs: an unknown name fails with the "no formatter"
      error; a non-empty user map hides the package-level formatters
      entirely; the pointer result, when a pointer is set, is what the
      formatter sees, and a pointer error aborts; without TrailingNewline the
      formatter's result is returned as it is. */
  lemma FormatterDispatch(lib: Library, v: Data, config: Config, global: map<string, Formatter>)
    ensures config.settings.format !in Selected(config, global) ==>
      FormatBytes(lib, v, config, global) == Failure(NoFormatter(config.settings.format))
    ensures |config.formatters| > 0 && config.settings.format !in config.formatters ==>
      FormatBytes(lib, v, config, global).Failure?
    ensures (config.settings.format in Selected(config, global) && config.settings.jsonPointer != "" &&
             lib.pointerGet(v, config.settings.jsonPointer).Failure?) ==>
      FormatBytes(lib, v, config, global) == Failure(lib.pointerGet(v, config.settings.jsonPointer).error)
    ensures (config.settings.format in Selected(config, global) && !config.settings.trailingNewline &&
             PointerTarget(lib, v, config.settings).Success?) ==>
      FormatBytes(lib, v, config, global) ==
        FormatWith(Selected(config, global)[config.settings.format], lib, PointerTarget(lib, v, config.settings).value, config.settings)
  {
  }

  /** With TrailingNewline, a successful result is the formatter's own
      successful output on the pointer target with the rule applied: so it
      has that output as a prefix, is at most one byte longer, and ends in
      "\n" unless it is empty. */
  lemma FormatEndsInNewline(lib: Library, v: Data, config: Config, global: map<string, Formatter>)
    requires config.settings.trailingNewline
    requires FormatBytes(lib, v, config, global).Success?
    ensures var s := config.settings;
      var target := PointerTarget(lib, v, s);
      target.Success? && FormatWith(Selected(config, global)[s.format], lib, target.value, s).Success? &&
      FormatBytes(lib, v, config, global).value ==
        WithTrailingNewline(FormatWith(Selected(config, global)[s.format], lib, target.value, s).value)
    ensures var out := FormatBytes(lib, v, config, global).value;
      |out| > 0 ==> out[|out| - 1] == Newline
    ensures WithTrailingNewline(FormatBytes(lib, v, config, global).value) == FormatBytes(lib, v, config, global).value
  {
    var s := config.settings;
    var target := PointerTarget(lib, v, s);
    TrailingNewlineRule(FormatWith(Selected(config, global)[s.format], lib, target.value, s).value);
  }

  /** With an empty user map and the package-level map in its initial state,
      the built-in formatters answer: any name but json, yaml and gotemplate
      is unknown; json and yaml are the marshallers' output and gotemplate is
      formatTemplate's. */
  lemma BuiltinFallback(lib: Library, v: Data, s: Settings)
    requires s.jsonPointer == "" && !s.trailingNewline
    ensures s.format !in {"json", "yaml", "gotemplate"} ==> FormatBytes(lib, v, Config(map[], s), Builtins()) == Failure(NoFormatter(s.format))
    ensures s.format == "json" ==> FormatBytes(lib, v, Config(map[], s), Builtins()) == lib.marshalJson(v)
    ensures s.format == "yaml" ==> FormatBytes(lib, v, Config(map[], s), Builtins()) == lib.marshalYaml(v)
    ensures s.format == "gotemplate" ==> FormatBytes(lib, v, Config(map[], s), Builtins()) == FormatWith(TemplateFormatter, lib, v, s)
  {
  }

  /** A formatter registered on the package-level map is available to every
      caller that passes no map of its own, exactly as if that caller had
      passed a map holding only it. */
  lemma GlobalRegistration(lib: Library, v: Data, s: Settings, global: map<string, Formatter>, f: Formatter)
    ensures FormatBytes(lib, v, Config(map[], s), global[s.format := f]) ==
      FormatBytes(lib, v, Config(map[s.format := f], s), global)
    ensures s.jsonPointer == "" && !s.trailingNewline ==>
      FormatBytes(lib, v, Config(map[], s), global[s.format := f]) == FormatWith(f, lib, v, s)
  {
    assert |map[s.format := f]| == 1;
  }

  /** Registering a formatter on the package-level map, then formatting with
      no map of one's own, runs the new formatter. */
  method RegisterThenFormat(globals: FormatterMap, name: string, f: Formatter, lib: Library, v: Data, s: Settings)
    returns (r: Result<seq<byte>, string>)
    requires s.format == name && s.jsonPointer == "" && !s.trailingNewline
    requires !globals.isNil
    modifies globals
    ensures name !in old(globals.entries) ==> r == FormatWith(f, lib, v, s)
  {
    var err := globals.Register(name, f);
    r := FormatBytes(lib, v, Config(map[], s), globals.entries);
    GlobalRegistration(lib, v, s, old(globals.entries), f);
  }

  /** Go's string(buf): one character per byte. */
  function BytesToString(b: seq<byte>): (r: string)
    ensures |r| == |b|
    ensures forall i :: 0 <= i < |b| ==> r[i] as int == b[i]
  {
    seq(|b|, i requires 0 <= i < |b| => b[i] as char)
  }

  /** FormatString(v, config): the empty string with the error on failure,
      otherwise the formatted bytes, one character per byte. */
  function FormatString(lib: Library, v: Data, config: Config, global: map<string, Formatter>): (r: (string, Option<string>))
    ensures FormatBytes(lib, v, config, global).Failure? ==> r == ("", Some(FormatBytes(lib, v, config, global).error))
    ensures FormatBytes(lib, v, config, global).Success? ==>
      var out := FormatBytes(lib, v, config, global).value;
      r.1.None? && |r.0| == |out| && forall i :: 0 <= i < |out| ==> r.0[i] as int == out[i]
  {
    match FormatBytes(lib, v, config, global)
    case Failure(e) => ("", Some(e))
    case Success(buf) => (BytesToString(buf), None)
  }

  /** An io.Writer. Its Write either takes all the bytes or, when the writer
      is faulty, none of them and returns its error. */
  class Writer {
    var written: seq<byte>
    const fault: Option<string>

    constructor (fault: Option<string>)
      ensures written == [] && this.fault == fault
    {
      written := [];
      this.fault := fault;
    }

    method Write(b: seq<byte>) returns (err: Option<string>)
      modifies this
      ensures fault.None? ==> written == old(written) + b && err.None?
      ensures fault.Some? ==> written == old(written) && err == fault
    {
      if fault.Some? {
        return fault;
      }
      written := written + b;
      err := None;
    }
  }

  /** Format(w, v, config): on a formatting error nothing is written;
      `globals` is the package-level Formatters map. */
  method Format(w: Writer, globals: FormatterMap, lib: Library, v: Data, config: Config) returns (err: Option<string>)
    modifies w
    ensures FormatBytes(lib, v, config, globals.entries).Failure? ==>
      err == Some(FormatBytes(lib, v, config, globals.entries).error) && w.written == old(w.written)
    ensures FormatBytes(lib, v, config, globals.entries).Success? ==>
      err == w.fault &&
      w.written == old(w.written) + (if w.fault.None? then FormatBytes(lib, v, config, globals.entries).value else [])
  {
    var r := FormatBytes(lib, v, config, globals.entries);
    if r.Failure? {
      return Some(r.error);
    }
    err := w.Write(r.value);
  }
}
