/** The thumbnail record, its generation status, and an in-memory stand-in
    for the document collection the handlers create, save and delete in. */
module Thumbnails {
  import opened JsValues

  type Id = nat
  type UserId = string

  /** One generation request as stored: the body fields as received, the
      owner from the session, and the two lifecycle fields. */
  datatype Thumbnail = Thumbnail(
    id: Id,
    userId: UserId,
    title: Field,
    promptUsed: Field,
    userPrompt: Field,
    style: Field,
    aspectRatio: Field,
    colorScheme: Field,
    textOverlay: Option<bool>,
    isGenerating: bool,
    imageUrl: Option<string>)

  /** Pending: still generating. Succeeded: not generating, URL set.
      Failed: not generating, no URL. */
  datatype Status = Pending | Succeeded(url: string) | Failed

  function StatusOf(t: Thumbnail): Status {
    if t.isGenerating then Pending
    else if t.imageUrl.Some? then Succeeded(t.imageUrl.value)
    else Failed
  }

  /** The in-place updates the handler makes to a pending record before it
      saves it: on success the URL is set and the flag cleared, on failure
      only the flag is cleared. Nothing else about the record changes. */
  function Settle(t: Thumbnail, s: Status): (r: Thumbnail)
    requires StatusOf(t) == Pending && t.imageUrl.None?
    ensures StatusOf(r) == s
    ensures s != Pending ==> !r.isGenerating
    ensures r.(isGenerating := t.isGenerating, imageUrl := t.imageUrl) == t
  {
    match s
    case Pending => t
    case Failed => t.(isGenerating := false)
    case Succeeded(url) => t.(imageUrl := Some(url), isGenerating := false)
  }

  /** `findOneAndDelete({ _id: id, userId })` on a collection: the record
      goes only when both its id and its owner match; everything else,
      including a record with that id and another owner, stays as it was. */
  function DeleteOwned(records: map<Id, Thumbnail>, id: Id, userId: UserId): (r: map<Id, Thumbnail>)
    ensures forall k :: k in r <==> k in records && !(k == id && records[k].userId == userId)
    ensures forall k :: k in r ==> r[k] == records[k]
  {
    if id in records && records[id].userId == userId then records - {id} else records
  }

  /** The collection of thumbnail documents. */
  class ThumbnailStore {
    var records: map<Id, Thumbnail>
    var nextId: Id

    /** Every stored document sits under its own id, and fresh ids are unused. */
    ghost predicate Valid()
      reads this
    {
      forall k :: k in records ==> k < nextId && records[k].id == k
    }

    constructor ()
      ensures Valid() && records == map[]
    {
      records := map[];
      nextId := 0;
    }

    /** `Thumbnail.create(...)`: stores the document under a fresh id and returns it. */
    method Create(t: Thumbnail) returns (doc: Thumbnail)
      requires Valid()
      modifies this
      ensures Valid()
      ensures doc == t.(id := old(nextId)) && doc.id !in old(records)
      ensures records == old(records)[doc.id := doc]
    {
      doc := t.(id := nextId);
      records := records[nextId := doc];
      nextId := nextId + 1;
    }

    /** `thumbnail.save()`: writes the document back under its id. */
    method Save(doc: Thumbnail)
      requires Valid() && doc.id in records
      modifies this
      ensures Valid() && nextId == old(nextId)
      ensures records == old(records)[doc.id := doc]
    {
      records := records[doc.id := doc];
    }

    /** `findOneAndDelete({ _id: id, userId })`: returns the removed document, if any. */
    method FindOneAndDelete(id: Id, userId: UserId) returns (deleted: Option<Thumbnail>)
      requires Valid()
      modifies this
      ensures Valid() && nextId == old(nextId)
      ensures records == DeleteOwned(old(records), id, userId)
      ensures deleted == if id in old(records) && old(records)[id].userId == userId
                         then Some(old(records)[id]) else None
    {
      if id in records && records[id].userId == userId {
        deleted := Some(records[id]);
        records := records - {id};
      } else {
        deleted := None;
      }
    }
  }
}
