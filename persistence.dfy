/**
 * The save file `{"stats": {...}}` as an abstract document, the snapshot written
 * by a save and the overlay applied by a load.
 */
module Persistence {
  import opened Wrappers
  import opened Rules

  /** The fields found under "stats"; a field the file lacks is `None`. */
  datatype StoredStats = StoredStats(
    hunger: Option<int>, fun: Option<int>, clean: Option<int>,
    lastTick: Option<int>, lifetime: Option<int>)

  /** The parsed file; `stats` is `None` when the document has no "stats" key. */
  datatype SaveDocument = SaveDocument(stats: Option<StoredStats>)

  /** What a load finds: no file, a file that cannot be read or parsed, or a document. */
  datatype StoreContent = Absent | Corrupt | Present(doc: SaveDocument)

  /** A stored field replaces the current value; a missing one keeps it. */
  predicate FieldOverlaid(stored: Option<int>, before: int, after: int) {
    if stored.Some? then after == stored.value else after == before
  }

  /** The needs a document would bring in all lie in [0,100]. */
  predicate StoredInRange(store: StoreContent) {
    store.Present? && store.doc.stats.Some? ==>
      var st := store.doc.stats.value;
      (st.hunger.Some? ==> 0 <= st.hunger.value <= MaxNeed) &&
      (st.fun.Some? ==> 0 <= st.fun.value <= MaxNeed) &&
      (st.clean.Some? ==> 0 <= st.clean.value <= MaxNeed)
  }

  /** `stats.update(data.get("stats", {}))`. */
  function Overlay(base: Stats, doc: SaveDocument): (r: Stats)
    ensures doc.stats.None? ==> r == base
    ensures doc.stats.Some? ==>
              var st := doc.stats.value;
              FieldOverlaid(st.hunger, base.hunger, r.hunger) &&
              FieldOverlaid(st.fun, base.fun, r.fun) &&
              FieldOverlaid(st.clean, base.clean, r.clean) &&
              FieldOverlaid(st.lastTick, base.lastTick, r.lastTick) &&
              FieldOverlaid(st.lifetime, base.lifetime, r.lifetime)
  {
    match doc.stats
    case None => base
    case Some(st) =>
      Stats(st.hunger.GetOr(base.hunger), st.fun.GetOr(base.fun), st.clean.GetOr(base.clean),
            st.lastTick.GetOr(base.lastTick), st.lifetime.GetOr(base.lifetime))
  }

  /** What `load` makes of the current stats: a missing or unreadable file changes nothing. */
  function Restored(base: Stats, store: StoreContent): (r: Stats)
    ensures !store.Present? ==> r == base
    ensures InRange(base) && StoredInRange(store) ==> InRange(r)
  {
    match store
    case Absent => base
    case Corrupt => base
    case Present(doc) => Overlay(base, doc)
  }

  /** `json.dump({"stats": self.stats})`: every one of the five fields is written. */
  function Snapshot(s: Stats): (d: SaveDocument)
    ensures d.stats.Some?
    ensures StoredInRange(Present(d)) <==> InRange(s)
    ensures forall base :: Restored(base, Present(d)) == s
  {
    SaveDocument(Some(StoredStats(Some(s.hunger), Some(s.fun), Some(s.clean),
                                  Some(s.lastTick), Some(s.lifetime))))
  }

  /** Loading the same document twice is loading it once. */
  lemma OverlayIdempotent(base: Stats, doc: SaveDocument)
    ensures Overlay(Overlay(base, doc), doc) == Overlay(base, doc)
  {
  }

  /** A save followed by a load reproduces the five saved values, whatever was in memory before. */
  lemma SaveLoadRoundTrip(saved: Stats, before: Stats)
    ensures Restored(before, Present(Snapshot(saved))) == saved
  {
  }
}
