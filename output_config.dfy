/** output/format.go, the Config struct: what the formatters are told, the
    values they format and the libraries they call. */
module OutputConfig {
  import opened Wrappers

  type byte = x: int | 0 <= x < 256

  const Newline: byte := 10

  /** A value to format. The package only ever asks whether a value is a
      slice (and then for its elements); everything else about it is left to
      the libraries, so every other value is an opaque atom. */
  datatype Data =
    | Slice(elements: seq<Data>)
    | Atom(repr: string)

  /** Config without the Formatters map: the settings every formatter is
      handed. The template's Funcs and Options are part of the template
      library below. */
  datatype Settings = Settings(
    format: string,
    template: string,
    templateItems: bool,
    trailingNewline: bool,
    jsonPointer: string)

  /** The library calls the package makes, each of which can fail:
      pointerstructure.Get, json.MarshalIndent(v, "", "  "), yaml.Marshal,
      and text/template's Parse and Execute. Execute reports what it wrote
      before an error along with the error. */
  datatype Library = Library(
    pointerGet: (Data, string) -> Result<Data, string>,
    marshalJson: Data -> Result<seq<byte>, string>,
    marshalYaml: Data -> Result<seq<byte>, string>,
    parseTemplate: string -> Option<string>,
    executeTemplate: (string, Data) -> (seq<byte>, Option<string>))
}
