/**
 * The dictionaries the SOP generator passes between its parts, as records whose entries
 * are `None` when the key is missing.
 */
module Records {
  import opened Wrappers

  /** A configured section: a dict with optional "title", "mode", "prompt" and "content". */
  datatype SectionSpec = SectionSpec(title: Option<string>, mode: Option<string>, prompt: Option<string>, content: Option<string>)

  /** A generated section: its title and its content. */
  datatype Section = Section(title: string, content: string)

  /** An entry of a chunk list: a dict with optional "content", "text" and "source" entries,
      or a value that is not a dict. */
  datatype ChunkEntry =
    | NotADict
    | ChunkDict(content: Option<string>, text: Option<string>, source: Option<string>)

  /** The metadata of a document: its optional "title", "number" and "equipment". */
  datatype Meta = Meta(title: Option<string>, number: Option<string>, equipment: Option<string>)

  /** Python truthiness of an optional string. */
  predicate Truthy(s: Option<string>) {
    s.Some? && s.value != ""
  }

  /** `x or fallback` for an optional string. */
  function OrElse(s: Option<string>, fallback: string): string {
    if s.Some? && s.value != "" then s.value else fallback
  }

  /** `s or fallback` for a string. */
  function Or(s: string, fallback: string): string {
    if s != "" then s else fallback
  }

  /** `d.get(key, fallback)`: the fallback only when the key is missing. */
  function GetOrElse(s: Option<string>, fallback: string): string {
    if s.Some? then s.value else fallback
  }
}
