/** The two read endpoints: `GET /api/videos` (list and search) and
    `GET /api/videos/{id}` (single get), with the store behind them as a
    parameter. */
module Api {
  import opened Values
  import opened Query
  import opened Normalizer

  /** An HTTP outcome: a body, an error status with its detail, or FastAPI's
      422 for a query parameter that failed validation. */
  datatype Response<T> = Ok(body: T) | Fail(status: int, detail: string) | Unprocessable(param: string)

  const InvalidIdDetail: string := "Invalid ID"
  const NotFoundDetail: string := "Not found"

  /** `GET /api/videos`. `store(filter, limit)` is what `get_documents`
      returns for the filter and limit. The first document `serialize`
      raises on turns the whole listing into a 500 with the exception text. */
  method ListVideos(q: Option<string>, platform: Option<string>, scripture: Option<string>,
                    limit: Option<int>, lib: Library, store: (Filter, int) -> seq<Doc>)
    returns (r: Response<seq<Doc>>)
    ensures LimitOf(limit).None? <==> r == Unprocessable("limit")
    ensures LimitOf(limit).Some? ==>
      var docs := store(FilterOf(q, platform, scripture), LimitOf(limit).value);
      && (r.Ok? <==> forall i :: 0 <= i < |docs| ==> Serialized(docs[i], lib).Normalized?)
      && (r.Ok? ==> |r.body| == |docs| &&
                    forall i :: 0 <= i < |docs| ==> Serialized(docs[i], lib) == Normalized(r.body[i]))
      && (!r.Ok? ==> r.Fail? && r.status == 500 &&
                     exists i :: 0 <= i < |docs| && Serialized(docs[i], lib) == Raised(r.detail)
                                && forall j :: 0 <= j < i ==> Serialized(docs[j], lib).Normalized?)
    ensures r.Ok? ==> forall i :: 0 <= i < |r.body| ==>
      PublicId in r.body[i] && r.body[i][PublicId].Str? && InternalId !in r.body[i]
  {
    var lim := LimitOf(limit);
    if lim.None? {
      return Unprocessable("limit");
    }
    var filt := BuildFilter(q, platform, scripture);
    var docs := store(filt, lim.value);
    var items: seq<Doc> := [];
    for i := 0 to |docs|
      invariant |items| == i
      invariant forall j :: 0 <= j < i ==> Serialized(docs[j], lib) == Normalized(items[j])
      invariant forall j :: 0 <= j < i ==> PublicId in items[j] && items[j][PublicId].Str? && InternalId !in items[j]
    {
      var out := Serialize(docs[i], lib);
      if out.Raised? {
        return Fail(500, out.detail);
      }
      items := items + [out.doc];
    }
    return Ok(items);
  }

  /** What the single get finds before it normalises anything. */
  datatype Lookup = InvalidId | Missing | Found(doc: Doc)

  /** The id check comes first and needs no lookup; a lookup that finds no
      document, or an empty one, is a miss. */
  function Decide(videoId: string, lib: Library, findOne: string -> Option<Doc>): (r: Lookup)
    ensures r == InvalidId <==> !lib.isValidId(videoId)
    ensures r == Missing <==> lib.isValidId(videoId) && (findOne(videoId).None? || findOne(videoId).value == map[])
    ensures r.Found? ==> findOne(videoId) == Some(r.doc) && r.doc != map[]
  {
    if !lib.isValidId(videoId) then InvalidId
    else
      var found := findOne(videoId);
      if found.None? || !Truthy(Object(found.value)) then Missing else Found(found.value)
  }

  /** For an id the check rejects the outcome does not depend on the store. */
  lemma InvalidIdSkipsLookup(videoId: string, lib: Library, f: string -> Option<Doc>, g: string -> Option<Doc>)
    requires !lib.isValidId(videoId)
    ensures Decide(videoId, lib, f) == Decide(videoId, lib, g) == InvalidId
  {
  }

  /** `GET /api/videos/{video_id}`: 400, 404, or the normalised document. */
  method GetVideo(videoId: string, lib: Library, findOne: string -> Option<Doc>) returns (r: Response<Doc>)
    ensures !lib.isValidId(videoId) <==> r == Fail(400, InvalidIdDetail)
    ensures Decide(videoId, lib, findOne) == Missing <==> r == Fail(404, NotFoundDetail)
    ensures Decide(videoId, lib, findOne).Found? ==>
      var found := Decide(videoId, lib, findOne).doc;
      r == (if InternalId in found then Ok(Normalize(found, lib).value) else Fail(500, MissingIdDetail))
  {
    var lookup := Decide(videoId, lib, findOne);
    if lookup == InvalidId {
      return Fail(400, InvalidIdDetail);
    }
    if lookup == Missing {
      return Fail(404, NotFoundDetail);
    }
    var out := NormalizeFetched(lookup.doc, lib);
    if out.None? {
      return Fail(500, MissingIdDetail);
    }
    return Ok(out.value);
  }
}
