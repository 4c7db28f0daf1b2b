/**
 * The sticker-id normaliser: a message may expose its stickers under
 * `sticker_items`, under `stickers`, under both or under neither, and a
 * record may lack an `id`. The normaliser collects every present id from
 * both sources into one set.
 */
module Stickers {
  import opened Wrappers

  /** One sticker record; `id` is `None` when the record has no `id` attribute or it is `None`. */
  datatype StickerRecord = StickerRecord(id: Option<int>)

  /** A source (a list attribute, possibly missing) carries a record with id `x`. */
  predicate Carries(source: Option<seq<StickerRecord>>, x: int) {
    source.Some? && exists r :: r in source.value && r.id == Some(x)
  }

  /** The ids of a list of records, accumulated left to right. */
  function RecordIds(rs: seq<StickerRecord>): (ids: set<int>)
    ensures forall x :: x in ids <==> exists r :: r in rs && r.id == Some(x)
    decreases |rs|
  {
    if rs == [] then {}
    else
      var init, last := rs[..|rs| - 1], rs[|rs| - 1];
      assert rs == init + [last];
      RecordIds(init) + (match last.id case Some(x) => {x} case None => {})
  }

  /** What one source contributes: nothing when it is missing or empty (`if sticker_items:`). */
  function SourceIds(source: Option<seq<StickerRecord>>): set<int> {
    if source.Some? && source.value != [] then RecordIds(source.value) else {}
  }

  /** The set `get_message_sticker_ids` returns. */
  function MessageStickerIds(items: Option<seq<StickerRecord>>, stickers: Option<seq<StickerRecord>>): set<int> {
    SourceIds(items) + SourceIds(stickers)
  }

  /** Adds to `ids` the present ids of one source, as each of the two loops of the source does. */
  method AddSourceIds(ids: set<int>, source: Option<seq<StickerRecord>>) returns (ids': set<int>)
    ensures ids' == ids + SourceIds(source)
  {
    ids' := ids;
    if source.Some? && source.value != [] {
      var rs := source.value;
      for i := 0 to |rs|
        invariant ids' == ids + RecordIds(rs[..i])
      {
        assert rs[..i + 1][..i] == rs[..i];
        if rs[i].id.Some? {
          ids' := ids' + {rs[i].id.value};
        }
      }
      assert rs[..|rs|] == rs;
    }
  }

  /** `get_message_sticker_ids`: `sticker_items` first, then `stickers`, into one set. */
  method GetMessageStickerIds(items: Option<seq<StickerRecord>>, stickers: Option<seq<StickerRecord>>)
    returns (ids: set<int>)
    ensures ids == MessageStickerIds(items, stickers)
    ensures forall x :: x in ids <==> Carries(items, x) || Carries(stickers, x)
  {
    ids := {};
    ids := AddSourceIds(ids, items);
    ids := AddSourceIds(ids, stickers);
    NormaliserIsUnion(items, stickers);
  }

  /** The result is the union of the present ids of both sources. */
  lemma NormaliserIsUnion(items: Option<seq<StickerRecord>>, stickers: Option<seq<StickerRecord>>)
    ensures forall x :: x in MessageStickerIds(items, stickers) <==> Carries(items, x) || Carries(stickers, x)
  {
  }

  /** A missing source and an empty one contribute nothing. */
  lemma AbsentSourceContributesNothing(source: Option<seq<StickerRecord>>)
    ensures MessageStickerIds(None, source) == MessageStickerIds(Some([]), source) == SourceIds(source)
    ensures MessageStickerIds(source, None) == MessageStickerIds(source, Some([])) == SourceIds(source)
  {
  }

  /** An id exposed under both names is counted once: both sources together give what one gives. */
  lemma SharedIdsOnce(rs: seq<StickerRecord>)
    ensures MessageStickerIds(Some(rs), Some(rs)) == MessageStickerIds(Some(rs), None)
  {
  }

  /** Records without an id never contribute. */
  lemma MissingIdsIgnored(rs: seq<StickerRecord>)
    requires forall r :: r in rs ==> r.id.None?
    ensures MessageStickerIds(Some(rs), None) == {}
  {
  }
}
