/** Restoring a list from a backup file, as the contract, brand and user
    screens do: pick a file, confirm the overwrite, `JSON.parse` its text,
    and take the result only if it is an array. */
module FileImport {

  /** What picking a file and parsing it produced. */
  datatype Payload<T> =
    | NoFile              // the file dialog was closed without a choice
    | Malformed           // `JSON.parse` threw
    | NotArray            // valid JSON, but not an array
    | ArrayOf(items: seq<T>)

  /** The message shown afterwards, if any. */
  datatype Notice = Silent | Imported | ImportFailed

  /** The list after the import. */
  function ApplyImport<T>(current: seq<T>, confirmed: bool, p: Payload<T>): seq<T> {
    if confirmed && p.ArrayOf? then p.items else current
  }

  /** The alert that follows: none when there was no file or the overwrite
      was declined, success for an array, failure for anything else. */
  function ImportNotice<T>(confirmed: bool, p: Payload<T>): Notice {
    if p.NoFile? || !confirmed then Silent
    else if p.ArrayOf? then Imported
    else ImportFailed
  }

  /** An import either replaces the whole list with the file's array, and says
      so, or leaves the list exactly as it was; it never merges. */
  lemma ImportAllOrNothing<T>(current: seq<T>, confirmed: bool, p: Payload<T>)
    ensures ImportNotice(confirmed, p) == Imported <==> confirmed && p.ArrayOf?
    ensures ImportNotice(confirmed, p) == Imported ==> ApplyImport(current, confirmed, p) == p.items
    ensures ImportNotice(confirmed, p) != Imported ==> ApplyImport(current, confirmed, p) == current
  {
  }

  /** Importing the same file twice is importing it once. */
  lemma ImportIdempotent<T>(current: seq<T>, confirmed: bool, p: Payload<T>)
    ensures ApplyImport(ApplyImport(current, confirmed, p), confirmed, p) == ApplyImport(current, confirmed, p)
  {
  }
}
