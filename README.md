# Media catalog API: query translation and result normalisation in Dafny

This project models the decision-making core of a small REST API for a catalog
of videos and reels that cite scripture passages. The API is backed by a
document database. The model covers four parts.

- The **query translator** of `GET /api/videos` (`list_videos`). It turns the
  optional `q`, `platform` and `scripture` parameters into a document-store
  filter, one dictionary assignment per present parameter.
- The **result normaliser**. It replaces the internal `_id` by a textual `id`
  and turns the `published_at`, `created_at` and `updated_at` date-times into
  ISO text. `list_videos` does this in its nested `serialize`; `get_video`
  does it again inline, with a loop over the three keys.
- The **single get** `GET /api/videos/{id}`. A malformed id gives 400 before
  any lookup, and a miss gives 404.
- The **record schema**. These are the `Video` and `ScriptureRef` records,
  and the validation a request body goes through.

Modules, one per component:

- `Values` (values.dfy): the value datatype documents are made of, and Python
  truthiness. It also holds `Library`, the library behaviour the code calls:
  `ObjectId.is_valid`, `str()` of an identifier, `datetime.isoformat` and the
  `HttpUrl` check. These are function fields supplied by the caller; the model
  does not define them.
- `Schemas` (schemas.dfy): `ScriptureRef`, `Video`, `ValidVideo`, body
  validation `ParseVideo` and the dump `DumpVideo`.
- `Query` (query.dfy): the filter datatype and its builder. `Matches` says
  what a filter means for a video. `Selected` is an independent statement of
  which videos a listing asks for, and `FilterMeaning` proves the two agree.
- `Normalizer` (normalizer.dfy): the reference definition `Normalize`, and the
  two implementations, `Serialize` (straight-line) and `NormalizeFetched`
  (loop).
- `Api` (api.dfy): the two read handlers, with the store as a parameter.

Three points where the code does less than its own descriptions suggest. The
model follows the code:

- `platform` is described as "youtube | instagram | other" (schemas.py:27),
  but the field accepts any string.
- Only a timestamp that is truthy and has `isoformat` is converted to text.
  Any other value at a timestamp key is returned unchanged.
- The `q` parameter is described as a search by title, tag or scripture name
  (main.py:86), but the user's text is passed on as a regular expression (see
  "Left out").

## Model

| member | source | states |
|---|---|---|
| `Query.BuildFilter` | main.py:92-102 | The filter has exactly the keys `$or`, `platform` and `scriptures.scripture` of the present parameters. Each key holds its clause, and the filter selects exactly the videos `Selected` describes. |
| `Query.FilterMeaning` | main.py:92-102 | A video matches the built filter if and only if it meets every present condition: the search term (title, a tag or a scripture name, any case), the exact platform, and the scripture name (any case). |
| `Query.SearchMeaning` | main.py:93-98 | The `$or` clause holds if and only if the term occurs, ignoring case, in the title, in some tag, or in some scripture name. |
| `Query.ScripturePathMeaning` | main.py:101-102 | A case-insensitive match on `scriptures.scripture` holds if and only if some embedded reference's name contains the text, ignoring case. |
| `Query.SearchBranchesShape` | main.py:94-98 | The `$or` list holds exactly three clauses, all with options `i`, in the order title, tags `$elemMatch`, `scriptures.scripture`. |
| `Query.TagAloneSuffices` | main.py:94-98 | A video whose only hit is a tag (neither its title nor any scripture name contains the term) is still selected. |
| `Query.EmptyFilter` | main.py:92-102 | With no parameter present the filter is the empty map, and it matches every video. |
| `Query.SearchAndScriptureBothKept` | main.py:93-102 | With both `q` and `scripture` present, both keys are in the filter with their own clauses. Neither overwrites the other. |
| `Query.PlatformAddsOneKey` | main.py:99-100 | A present platform adds only the key `platform`, holding the literal value. |
| `Query.PlatformIsExact` | main.py:99-100 | Whatever the other parameters, a video whose platform differs from a given non-empty platform in any way, case included, is not selected. |
| `Query.EmptyIsAbsent` | main.py:93-102 | An empty string for any parameter builds the same filter as an absent one. |
| `Query.SearchIgnoresCase` | main.py:95-97 | Folding the case of the search term does not change which videos it selects. |
| `Query.LimitOf` | main.py:89 | `limit` is admitted exactly when it is absent or in 1..200. When absent it is 50, and an admitted value is unchanged. |
| `Normalizer.Serialize` | main.py:106-117 | A document without `_id` raises `KeyError` (`'_id'`). A `scriptures` value that is not a list, dict or string raises `TypeError` (`'<type>' object is not iterable`). Any other document comes back as exactly `Normalize` of it. |
| `Normalizer.NormalizeFetched` | main.py:132-136 | The loop over the three timestamp keys in `get_video` yields exactly `Normalize` of the document. |
| `Normalizer.NormalizeFrame` | main.py:107-116 | Normalisation fails exactly when `_id` is absent. Otherwise the key set is the old keys minus `_id` plus `id`, and `id` holds the text of the old `_id`. Each timestamp is converted exactly when it is present, truthy and date-like, and every other key keeps its value. |
| `Normalizer.NoDateLeft` | main.py:111-116 | After normalisation no timestamp key holds a date-time value. |
| `Normalizer.StageStep` | main.py:111-116 | One timestamp rewrite extends a partly normalised document by one converted key and changes nothing else. |
| `Api.ListVideos` | main.py:84-120 | An out-of-range `limit` gives 422. Otherwise the response is Ok exactly when `serialize` succeeds on every document the store returned for the built filter. It then lists their normalised forms, in order and one for one, each with a string `id` and no `_id`. If not, it is 500 with the exception text of the first document `serialize` raises on. |
| `Api.Decide` | main.py:127-131 | The id check decides first: an invalid id is `InvalidId`. A valid id whose lookup finds nothing, or an empty document, is `Missing`; anything else is the found document. |
| `Api.InvalidIdSkipsLookup` | main.py:127-128 | For an invalid id the outcome is the same whatever the store would return, so no lookup influences it. |
| `Api.GetVideo` | main.py:123-141 | The response is 400 `Invalid ID` exactly for an invalid id, and 404 `Not found` exactly for a miss. A found document comes back normalised, or gives 500 `'_id'` when it has no `_id`. |
| `Schemas.ParseVideo` | schemas.py:22-36 | A body is accepted exactly when it conforms to the schema, field by field (`VideoConforms`): string `title` and `platform`, a valid `url` string, each optional field omitted, null or of its declared type, `tags` a list of strings, `scriptures` a list of conforming references, `speaker` a string, and `duration_seconds` a non-negative int. An accepted body has string `title` and `platform` and a valid `url`, kept as given, and the result is a valid video. Each optional field (`youtube_id`, `thumbnail`, `published_at`, `language`, `duration_seconds`) is None when omitted or null, and otherwise holds the given value. `tags` and `scriptures` are empty when omitted; otherwise they hold, item by item, the given strings and the validated references. `speaker` is `Premanand Maharaj` when omitted, otherwise the given text. A negative `duration_seconds` is rejected. |
| `Schemas.ParseRef` | schemas.py:13-19 | A reference is accepted exactly when it is an object with a string `scripture` and each of `chapter`, `verses`, `quote` and `notes` omitted, null or a string (`RefConforms`). An accepted reference is an object with a string `scripture`, kept as given. Each of `chapter`, `verses`, `quote` and `notes` is None when omitted or null, and otherwise holds the given text. |
| `Schemas.RefItems` | schemas.py:33 | A list is accepted as `List[ScriptureRef]` exactly when every item conforms, and the result holds each item's validated reference in order. |
| `Schemas.OmitOptionalField` | schemas.py:28-36 | Dropping any field that has a default from an accepted body leaves it accepted. |
| `Schemas.OmitOptionalRefField` | schemas.py:16-19 | Dropping any of `chapter`, `verses`, `quote` or `notes` from an accepted reference leaves it accepted. |
| `Schemas.TextItems` | schemas.py:32 | A list is accepted as `List[str]` exactly when every item is a string, and the result holds those strings in order. |
| `Schemas.ParseDumpRoundTrip` | schemas.py:22-36 | A valid video, dumped to a document and validated again, comes back unchanged. |
| `Schemas.MinimalBody` | schemas.py:26-36 | A body with only `title`, `platform` and `url` gets every default: no optional field set, empty `tags` and `scriptures`, and the default speaker. |
| `Schemas.MinimalRef` | schemas.py:15-19 | A reference with only its name gets None for `chapter`, `verses`, `quote` and `notes`. |
| `Schemas.ExtraKeysIgnored` | schemas.py:22-36 | Keys outside the schema do not change the outcome of validation. |

## Left out

- The server setup, CORS middleware, `/`, `/test`, `/schema` and the `uvicorn` start-up. These are glue and environment I/O.
- `create_video`, and `create_document` and `get_documents` from `database.py`. database.py is not part of this model. The store is a parameter (`store`, `findOne`), so the truncation to `limit` inside `get_documents` is not proved.
- The round trip "create, then fetch by id" goes through `create_document`, which is not modelled. Only the validate/dump half is modelled (`ParseDumpRoundTrip`).
- Regular-expression semantics. The code passes user text to `$regex` as a pattern. The model reads every pattern as a literal substring, with ASCII case folding for the `i` option. Unicode case folding is not modelled.
- MongoDB path resolution is modelled only for the string fields of a `Video`. Paths through other fields match nothing, and `$elemMatch` applies only to `tags`.
- `ObjectId.is_valid`, `str(ObjectId)`, `datetime.isoformat` and `HttpUrl` validation are opaque functions in `Library`. Their formats and any URL normalisation by `HttpUrl` are not modelled.
- `ParseVideo`: pydantic's lax coercions are not modelled. Only values that already have the declared type are accepted; a numeric string for `duration_seconds`, for instance, is rejected.
- `ParseVideo`: returns only "rejected" (None), not pydantic's list of every failing field.
- Other exceptions (an unreachable store, driver errors) also become 500 in the source. The model raises only the two exceptions the handlers' own code can raise: the missing `_id`, and a non-iterable `scriptures` in `serialize`.
- In-place mutation: `serialize` and `get_video` mutate the dictionaries the driver returned. The model computes the new document as a value instead. Nothing else holds those dictionaries afterwards, so no aliasing is lost.
- `Playlist` (schemas.py:40-43) is used by no code.
- Floating-point values and the other BSON types beyond the ones in `Value`.
