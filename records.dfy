// Records, the values they hold, and the errors the migration engine raises.
module Records {
  import opened Revisions

  datatype Option<T> = None | Some(value: T)

  datatype Result<T> = Ok(value: T) | Err(error: Error)

  /** Field values. The engine never inspects a value except the revision
      tag and what a user transform does with it. `Rev` is a revision id as
      stored under the reserved key (the hex digest string in the source). */
  datatype Value = Str(s: string) | Int(i: int) | Rev(id: RevId)

  /** The exceptions the source raises. `MissingField` is the KeyError of a
      delete, rename or modify on an absent field. */
  datatype Error =
    | MissingField(field: string)
    | InvalidRename(field: string)
    | DeadEnd(rev: Value)
    | DuplicateType(name: string)
    | UnknownType(name: string)

  /** The reserved field holding a record's revision. */
  const TagKey: string := "_winter"

  type Fields = map<string, Value>

  /** The record state after an operation that mutates in place and may
      raise: the fields as left behind, and the exception if any. */
  datatype Outcome = Outcome(fields: Fields, err: Option<Error>)

  /** A dict-like record, mutated in place and owned by the caller. */
  class Record {
    var fields: Fields

    constructor (init: Fields)
      ensures fields == init
    {
      fields := init;
    }
  }
}
