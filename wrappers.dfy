/** Option and Result values, and the ways a font build can fail. */
module Wrappers {

  datatype Option<+T> = None | Some(value: T)

  datatype Result<+R, +E> = Ok(value: R) | Err(error: E)

  /** What a drawing step reports: done, or the failure that aborted it. */
  datatype Outcome<+E> = Pass | Fail(error: E)

  /** The failures of the font build, each an exception the Python build propagates. */
  datatype Failure =
    | GlyphNotFound(c: char)           // KeyError looking a label character up in the label font
    | UnnamedTableEntry(table: string) // an entry destined for a table carries no field name
    | BaselineTagNotFound(tag: string) // ValueError from `list.index` when "romn" is missing
}
