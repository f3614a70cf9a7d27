/** The shape filter of `_load_file_config` (app/__init__.py:79-90). The
    existence check, the read and the structured-data parse are not modelled;
    their outcome is the input. */
module FileLoader {
  import opened Values

  /** What probing, reading and parsing the configuration file gave. */
  datatype ParseOutcome =
    | Missing            // the path does not exist
    | ProbeRaised        // the existence check itself raised (a permission error, say)
    | Failed             // opening, reading or parsing raised
    | Parsed(doc: Value) // the parser returned this document (None for an empty file)

  /** The one error that escapes the loader: the existence check on line 80
      stands outside the `try`, so an error it raises propagates. */
  datatype LoadError = ProbeError

  /** The override mapping a file contributes: the parsed document when it is a
      mapping, the empty mapping in every other case that does not raise. A
      falsy document is first replaced by a fresh empty mapping (`or {}`), then
      anything that is not a mapping is discarded. */
  function LoadFileConfig(outcome: ParseOutcome): (r: Result<Tree, LoadError>)
    ensures r.Err? <==> outcome.ProbeRaised?
    ensures outcome.Parsed? && outcome.doc.VMap? ==> r == Ok(outcome.doc.entries)
    ensures r.Ok? && r.value != map[] ==> outcome.Parsed? && outcome.doc == VMap(r.value)
  {
    match outcome
    case Missing => Ok(map[])
    case ProbeRaised => Err(ProbeError)
    case Failed => Ok(map[])
    case Parsed(v) =>
      var data := if Truthy(v) then v else VMap(map[]);
      if !data.VMap? then Ok(map[]) else Ok(data.entries)
  }

  /** A missing file, a failed read or parse, and every document that is not
      a mapping degrade to the empty override. */
  lemma LoadDegradesToEmpty(outcome: ParseOutcome)
    requires !outcome.ProbeRaised? && !(outcome.Parsed? && outcome.doc.VMap?)
    ensures LoadFileConfig(outcome) == Ok(map[])
  {
  }
}
