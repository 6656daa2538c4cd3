/** The notifications a Universe publishes (its Qt signals), shared by both
    revisions of the class. */
module UniverseEvents {

  /** One emission of `dmxValueUpdater`, of the association signal or of
      `assocRemUpdater`. */
  datatype Event =
    | ValueChanged(channel: int, value: int)
    | AssocChanged(channel: int, text: string)
    | RangeRemoved(first: int, count: int)

  /** The per-slot notifications of a confirmed removal: one for each of the
      `count` cleared slots, every one carrying the first channel number
      `n` and the revision's blank label. */
  function ClearNotices(n: int, count: int, blank: string): (es: seq<Event>)
    ensures |es| == if count < 0 then 0 else count
    ensures forall e :: e in es ==> e == AssocChanged(n, blank)
  {
    seq(if count < 0 then 0 else count, _ => AssocChanged(n, blank))
  }

  /** One more cleared slot adds one more notice at the end. */
  lemma ClearNoticesStep(n: int, i: nat, blank: string)
    ensures ClearNotices(n, i + 1, blank) == ClearNotices(n, i, blank) + [AssocChanged(n, blank)]
  {
    assert ClearNotices(n, i + 1, blank)[..i] == ClearNotices(n, i, blank);
  }
}
