/**
  The output schema filter (`DecoderOutputRemover`): from the declared output
  fields, the decoder mode and the optional ignore-list it fixes the set of
  retained fields once, and then trims both the schema (to size the buffers)
  and every step's output record (before it is written) with that one set.
 */
module OutputRemover {
  import opened Common

  /** A remover is fully described by the field names it keeps. */
  datatype Remover = Remover(retained: set<string>)

  /**
    Builds the remover. Ignored fields are dropped only during inference;
    in TRAIN/EVAL every declared field is kept.
   */
  function MakeRemover(mode: Mode, fields: set<string>, ignore: Option<set<string>>): (rm: Remover)
    ensures rm.retained <= fields
    ensures mode != Infer || ignore.None? ==> rm.retained == fields
    ensures mode == Infer && ignore.Some? ==> rm.retained !! ignore.value
    ensures forall f :: f in fields && (mode != Infer || ignore.None? || f !in ignore.value) ==> f in rm.retained
  {
    if mode == Infer && ignore.Some? then Remover(fields - ignore.value) else Remover(fields)
  }

  /** `apply` on the output schema: the field names that get a buffer. */
  function ApplySchema(rm: Remover, fields: set<string>): (kept: set<string>)
    ensures kept <= fields && kept <= rm.retained
    ensures forall f :: f in fields && f in rm.retained ==> f in kept
  {
    fields * rm.retained
  }

  /** `apply` on one output record: the record restricted to the retained fields. */
  function Apply<V>(rm: Remover, record: map<string, V>): (r: map<string, V>)
    ensures r.Keys == ApplySchema(rm, record.Keys)
    ensures forall f :: f in r ==> r[f] == record[f]
  {
    map f | f in record && f in rm.retained :: record[f]
  }

  /** Filtering an already filtered record changes nothing. */
  lemma ApplyIdempotent<V>(rm: Remover, record: map<string, V>)
    ensures Apply(rm, Apply(rm, record)) == Apply(rm, record)
  {
  }

  /**
    One filter for sizing and writing: a record carrying exactly the declared
    fields is trimmed to exactly the fields that received a buffer.
   */
  lemma ApplyMatchesBuffers<V>(rm: Remover, fields: set<string>, record: map<string, V>)
    requires record.Keys == fields
    ensures Apply(rm, record).Keys == ApplySchema(rm, fields)
  {
  }
}
