# Flags from configuration, hooks and output formatting

This project models the core of `github.com/martinohmann/exp`:

- `pflagx.BindViper` fills every flag the user did not set on the command line. The value comes from a viper instance: first an explicitly set value, then the environment, then the configuration file. The key is tried as written and then with `-` replaced by `.`. A found value reaches the flag's `Set` as a string: a slice becomes `a,b,c` and a map becomes `k=v,...`.
- The validating and transforming flag values (`pflagx/validator.go`, `pflagx/transformer.go`) wrap a flag's value. One runs a check before `Set`; the other rewrites the input before `Set`.
- `cobrax.HookViper` makes binding the first step of a command's persistent pre-run hook, followed by a chain of further funcs. `cobrax.Execute` installs it without losing an existing `PersistentPreRun` or `PersistentPreRunE`.
- The `output` package selects a formatter by name: from the caller's own map, or, when that is empty, from the package-level `Formatters` map, which starts with the built-in `json`, `yaml` and `gotemplate` and to which programs can register more. It applies an optional JSON pointer and the trailing-newline rule. The template formatter can run once per element of a slice.

Modules, one per source file plus shared pieces:

| module | models |
|---|---|
| `Wrappers` | `Option` and `Result` |
| `TextUtil` | `strings.Join` and `strings.Split`, replacing one character, ASCII upper-casing, `%q` quoting, and the byte-wise order of strings with the sort built on it |
| `FlagValue` | a flag value's `Set` as a stack of layers: a typed parser, validators and transformers |
| `Pflag` | the parts of `spf13/pflag` the core relies on: `Flag`, `FlagSet.Lookup`, `FlagSet.Set` |
| `Validator`, `Transformer` | `pflagx/validator.go`, `pflagx/transformer.go` |
| `ViperBinding` | `pflagx/viper.go` |
| `CobraHook` | `cobrax/viper.go` |
| `OutputConfig`, `OutputTemplate`, `OutputFormatters`, `OutputFormat` | the `Config` struct and the library calls, `output/template.go`, `output/formatters.go`, `output/format.go` |

Go's map iteration order is not fixed; `stringifyMap` depends on it. It is the `MapIteration` parameter: any function that lists every key of a map exactly once. Properties of `stringifyMap` hold for every such order. Panics are modelled as error results carrying the panic message.

## Model

| member | source | states |
|---|---|---|
| FlagValue.ValidatedSet | pflagx/validator.go:27-33 | a rejecting validator's error is the outcome and the inner value is not set; an accepting one hands the same input to the inner value |
| FlagValue.TransformingSet | pflagx/transformer.go:26-28 | the inner value receives fn(input), and its outcome, error included, is returned unchanged |
| FlagValue.ValidatorStack | pflagx/validator.go:27-33 | through any stack of validators a successful Set means every validator accepted, and then the outcome is the innermost value's own |
| Pflag.SetFlag | pflagx/viper.go:88 | FlagSet.Set on one flag: success stores the value's outcome and marks the flag changed; failure leaves it as it was and reports `invalid argument "<in>" for "<flag>" flag: <cause>` with the value's own error as the cause |
| Pflag.Flag.SetThrough | pflagx/validator.go:27-33 | the imperative Set through every layer ends in the state the layer stack's outcome describes, value untouched on error |
| Pflag.FlagSet.Set | pflagx/viper.go:88 | an unknown name is an error with nothing changed; otherwise only the named flag changes, exactly as SetFlag says |
| Validator.AnyOfCheck | pflagx/validator.go:57-66 | the loop accepts exactly the values in the list and otherwise returns the possible-values message; it agrees with AnyOf |
| Validator.AnyOfNothing | pflagx/validator.go:57-66 | AnyOf with no values rejects every input |
| Validator.AnyOfGuardsStringFlag | pflagx/validator.go:27-33 | a string flag guarded by AnyOf takes a listed input as is and refuses any other with the possible-values message |
| Validator.AnyOfRejectionMessage | pflagx/validator.go:65 | a refused input on a guarded flag gives `invalid argument "<in>" for "--<name>" flag: possible values: "v1", "v2"` |
| Validator.Wrapped | pflagx/validator.go:52 | only the flag at the named position gets a new value layer; every other flag and every other field is kept |
| Validator.RegisterValidatorFunc | pflagx/validator.go:38-53 | refuses, in this order, a nil func, a parsed set and an undefined flag, with the source's messages and nothing changed; otherwise wraps only the named flag's value with the validator |
| Transformer.UpperTransformer | pflagx/transformer.go:26-28 | a string flag with the upper-casing transformer stores "VALID-VALUE" for "valid-value" |
| Transformer.RegisterTransformerFunc | pflagx/transformer.go:33-48 | the same three refusals in the same order with the transformer messages; otherwise wraps only the named flag's value |
| ViperBinding.StringifySlice | pflagx/viper.go:120-131 | the slice of element texts filled in index order, joined by "," |
| ViperBinding.StringifyMap | pflagx/viper.go:135-146 | one "k=v" piece per entry in iteration order, joined by ","; there are as many pieces as entries |
| ViperBinding.Stringify | pflagx/viper.go:107-116 | maps and slices go to their stringifiers; a scalar gives its own text |
| ViperBinding.SliceRoundTrip | pflagx/viper.go:120-131 | splitting the string form at "," gives back the element texts when none holds a comma |
| ViperBinding.SliceExample | pflagx/viper.go:120-131 | [foo, bar, 1] becomes "foo,bar,1" |
| ViperBinding.SliceCommaSplits | pflagx/viper.go:130 | an element holding a comma comes back as two pieces |
| ViperBinding.MapRoundTrip | pflagx/viper.go:135-146 | splitting the string form at "," gives back exactly the pieces, one per entry, when no piece holds a comma |
| ViperBinding.MapStringAnyOrder | pflagx/viper.go:139-143 | any two iteration orders give the same multiset of pieces, one per entry |
| ViperBinding.EnvKeyOfDotted | pflagx/viper.go:48 | a key and its dotted form read the same environment variable |
| ViperBinding.EnvKeyExample | pflagx/viper.go:47-48 | with prefix "snakes", key "int-opt" reads SNAKES_INT_OPT |
| ViperBinding.LookupPrecedence | pflagx/viper.go:95-104 | a set value beats the environment, which beats the configuration under the key and then under the dotted key; with none of them nothing is found |
| ViperBinding.ConfigReadOutcome | pflagx/viper.go:34-42 | a configuration that is not found is no error; any other read error is returned with every flag untouched |
| ViperBinding.FailFastStates | pflagx/viper.go:55-67 | for any per-flag step, the pass steps every flag up to and including the first failing one and leaves every later flag untouched |
| ViperBinding.FailFastError | pflagx/viper.go:55-67 | for any per-flag step, the pass reports no error exactly when no step fails, and otherwise the first failure with the prefix |
| ViperBinding.BindAllPointwise | pflagx/viper.go:55-67 | each flag up to and including the first failing one is bound as if alone, every later flag is untouched, and the error is the first failure with the "failed to set flag from env or config: " prefix |
| ViperBinding.BindKeepsChanged | pflagx/viper.go:70-75 | a flag changed on the command line keeps its state whatever the environment or configuration hold |
| ViperBinding.BindAbsentKeepsDefault | pflagx/viper.go:80-84 | a flag found under neither its name nor the dotted name keeps its default, and no error results |
| ViperBinding.BindStopsAtFailure | pflagx/viper.go:56-63 | once a flag's Set fails no later flag is touched and binding fails |
| ViperBinding.BindAllSucceeds | pflagx/viper.go:55-67 | when every Set succeeds there is no error and each flag ends as binding it alone leaves it |
| ViperBinding.BindFlag | pflagx/viper.go:69-89 | only the visited flag changes: a changed flag is skipped, a missing value leaves it, otherwise FlagSet.Set gets the value's string form |
| ViperBinding.VisitFlag | pflagx/viper.go:56-64 | the visiting func does nothing once an error is recorded; otherwise it binds the flag and prefixes its error |
| ViperBinding.BindFlags | pflagx/viper.go:55-67 | the VisitAll loop leaves the flags and the error exactly as the binding specification says |
| ViperBinding.BindViper | pflagx/viper.go:29-51 | an unreadable configuration fails before any flag is visited; otherwise the flags are bound as specified |
| CobraHook.Call | cobrax/viper.go:15-33 | calling the hook binds first and then runs the chain; flags, call record and error follow the hook's specification |
| CobraHook.CallChain | cobrax/viper.go:21-31 | the chain loop skips nil entries and returns the first error at once |
| CobraHook.ChainRunsInOrder | cobrax/viper.go:21-31 | with no failing func, every present func is called once in chain order, nil entries are skipped, and the hook returns nil |
| CobraHook.ChainStopsAtFirstError | cobrax/viper.go:26-28 | the first failing func is the last one called and its error is the hook's error |
| CobraHook.HookBindsFirst | cobrax/viper.go:17-19 | when binding fails its error is returned and no chained func is called |
| CobraHook.Execute | cobrax/viper.go:39-56 | converts a lone PersistentPreRun, installs the hook with the previous PersistentPreRunE as its only chained func, and runs it |
| CobraHook.ExecuteKeepsPreRun | cobrax/viper.go:40-49 | a PersistentPreRun with no PersistentPreRunE still runs after binding, and the hook returns nil |
| CobraHook.ExecuteKeepsPreRunE | cobrax/viper.go:53 | an existing PersistentPreRunE runs after binding on the bound flags and decides the outcome |
| CobraHook.ExecuteOnlyBinds | cobrax/viper.go:53 | with neither pre-run func, the installed hook only binds |
| OutputTemplate.FormatTemplate | output/template.go:10-44 | writes and returns exactly what the template specification says: an empty-template error before parsing, per-item runs joined by newlines up to the first failure, or one run on the whole value |
| OutputTemplate.ExecuteItems | output/template.go:25-40 | the per-item loop appends the item outputs, one newline between consecutive items, stopping after the first failing item and returning its error |
| OutputTemplate.JoinStep | output/template.go:35-37 | writing the separator before item i and then its output extends the newline-joined output of the first i items to the first i+1 |
| OutputTemplate.ItemsSeparated | output/template.go:25-40 | with items and no failure, the output is the item outputs in index order with one newline between them and none after the last |
| OutputTemplate.ItemsExample | output/template.go:35-37 | "foo", "bar", "baz", "42" are joined to "foo\nbar\nbaz\n42" |
| OutputTemplate.FirstErrorStops | output/template.go:31-33 | the first failing item's error is returned, after the output up to and including that item |
| OutputTemplate.WholeValueOrItems | output/template.go:43 | without items or for a non-slice the template runs once on the whole value; an empty slice with items writes nothing and succeeds |
| OutputFormatters.FormatWith | output/formatters.go:23-25 | a FormatFunc is applied to (v, config); the template formatter refuses an empty template and otherwise returns what it wrote |
| OutputFormatters.FormatGoTemplate | output/formatters.go:62-70 | the gotemplate formatter returns formatTemplate's output into a fresh buffer, or its error alone |
| OutputFormatters.Builtins | output/formatters.go:55-71 | the built-in map holds exactly json, yaml and gotemplate |
| OutputFormatters.BuiltinNames | output/formatters.go:55-71 | the built-in names list as gotemplate, json, yaml |
| OutputFormatters.FormatterMap.Register | output/formatters.go:32-38 | an absent name is added with its formatter; a duplicate is refused with the already-registered message, and a nil map refuses any new name with Go's nil-map assignment panic; on refusal the map is kept |
| OutputFormatters.FormatterMap.Names | output/formatters.go:42-50 | every key exactly once, sorted ascending, whatever the iteration order |
| OutputFormat.SelectionRule | output/format.go:63-66 | an empty user map formats exactly as if the package-level map had been passed as the user map; a non-empty user map alone decides, whatever the package-level map holds |
| OutputFormat.FormatBytes | output/format.go:62-94 | a result exists only for a name the selected map knows, and with TrailingNewline a non-empty result ends in "\n" |
| OutputFormat.TrailingNewlineRule | output/format.go:89-91 | the formatter output stays a prefix; at most one "\n" is added; empty output stays empty; non-empty output ends in "\n"; applying the rule twice equals applying it once |
| OutputFormat.FormatterDispatch | output/format.go:62-94 | an unknown name gives the no-formatter error, and a non-empty user map hides the built-ins; a pointer error aborts; without TrailingNewline the result is the formatter's own on the pointer target |
| OutputFormat.FormatEndsInNewline | output/format.go:82-91 | with TrailingNewline a successful result is the formatter's successful output on the pointer target with the newline rule applied: that output as a prefix, at most one byte more, ending in "\n" unless empty, and unchanged by the rule |
| OutputFormat.BuiltinFallback | output/format.go:63-71 | with an empty user map and the package-level map in its initial state, json and yaml give the marshallers' output and gotemplate the template formatter's; any other name is unknown |
| OutputFormat.GlobalRegistration | output/format.go:63-66 | a formatter added to the package-level map serves every caller without a map of its own, exactly as a user map holding only it would; without pointer and newline it is applied to the value directly |
| OutputFormat.RegisterThenFormat | output/formatters.go:52-55 | registering a new name on the package-level map and then formatting with no user map under that name runs the new formatter |
| OutputFormat.FormatString | output/format.go:98-105 | the empty string with the error on failure, otherwise the formatted bytes as a string with one character per byte, each carrying that byte's code |
| OutputFormat.Format | output/format.go:50-58 | on a formatting error nothing is written and that error is returned; otherwise the bytes go to the writer and its error is returned |

## Left out

- Viper itself is not part of this model: reading and decoding the configuration file, key case-insensitivity, defaults, viper's own flag binding, and the registration done by `AutomaticEnv`, `SetEnvKeyReplacer` and `BindEnv`. `ViperBinding.Get` always reads the environment under the replaced, upper-cased name, as it does once `BindViper` has configured the instance. Only non-empty environment values count, as with viper's default. The configuration is an abstract lookup together with a found / not-found / unreadable outcome.
- ViperBinding.BindViper: the fallback to the global viper instance when `v` is nil is not modelled; a viper value is always passed.
- ViperBinding.Text: the `%v` text of a scalar (numbers, booleans, floats) is not computed; a scalar carries it. Slices and maps use fmt's `[a b]` and `map[k:v]` forms, with map keys sorted.
- ViperBinding.StringifyMap: the order of the pieces is Go's map iteration order, which the model takes as a parameter rather than fixing.
- ViperBinding.BindFlag: takes the flag's position in the set instead of a `*pflag.Flag`.
- Pflag: the pflag library is not part of this model. Its `Flag` and `FlagSet` state only the documented behaviour the core uses. Each flag type's parsing is an arbitrary function in the innermost value layer. Flag sets are assumed to have unique names, which pflag enforces when flags are defined.
- Pflag.DisplayName: shows the shorthand whenever there is one; pflag hides it when the shorthand is deprecated, which the model's flags do not record.
- TextUtil.Quote: `%q` is modelled as escaping only `"` and `\`; other escapes of non-printable characters are not.
- TextUtil.Upper: `strings.ToUpper` is modelled for ASCII letters only.
- CobraHook.Call: the program's own chained funcs observe the flags and arguments and are recorded by id. They do not change flags, and their other side effects are not modelled.
- CobraHook.Execute: cobra's command dispatch inside `cmd.Execute()` is reduced to calling the installed persistent pre-run hook once. The command's `Run`, sub-commands, argument parsing and flag parsing are left out.
- OutputConfig: `text/template` parsing and execution, JSON and YAML marshalling, and `pointerstructure.Get` are parameters of the model that can fail. The template's `Funcs` and `Options` are folded into them. A value is either a slice or an opaque atom.
- OutputFormatters.FormatWith: a formatter is handed the settings of the config but not its `Formatters` map. No formatter in the package reads that map.
- OutputFormat.FormatBytes: the package-level `Formatters` map is a parameter holding its current contents (the `entries` of a `FormatterMap`), not a global variable; its initial contents are `Builtins()`.
- OutputFormat.Format: a writer either takes all the bytes or none and returns its error; partial writes are not modelled.
- OutputFormat.BytesToString: a Go string is a byte sequence; the model turns each byte into the character with that code.
- try/try.go (panic and recover control flow), pflagx/func.go (a thin adapter onto `FlagSet.Var`), cli/, json/indent.go, http/echoip and the cmd/ programs are not part of this model: they are I/O, process plumbing or runtime mechanisms.
