/** The result normaliser: a stored document becomes a JSON-safe record with
    its identifier under `id` as text and its timestamps as ISO text. */
module Normalizer {
  import opened Values

  const InternalId: string := "_id"
  const PublicId: string := "id"
  const TimestampKeys: seq<string> := ["published_at", "created_at", "updated_at"]
  const ScripturesKey: string := "scriptures"

  /** `str(KeyError("_id"))`, the error text when a document has no `_id`. */
  const MissingIdDetail: string := "'_id'"

  /** Python's name for the type of a value. */
  function TypeName(v: Value): (r: string) {
    match v
    case Null => "NoneType"
    case Bool(_) => "bool"
    case Int(_) => "int"
    case Str(_) => "str"
    case ObjectId(_) => "ObjectId"
    case Temporal(_) => "datetime.datetime"
    case List(_) => "list"
    case Object(_) => "dict"
  }

  /** A value a `for` loop can run over: a list, a dict (its keys) or a string. */
  predicate Iterable(v: Value) {
    v.List? || v.Object? || v.Str?
  }

  /** The text of the TypeError raised by iterating over `v`. */
  function NotIterableDetail(v: Value): (r: string) {
    "'" + TypeName(v) + "' object is not iterable"
  }

  /** What `serialize` does to one document: the normalised document, or the
      text of the exception it raises. */
  datatype Outcome = Normalized(doc: Doc) | Raised(detail: string)

  /** A timestamp field the normaliser rewrites: present, truthy and with `isoformat`. */
  predicate Converts(doc: Doc, k: string) {
    k in TimestampKeys && k in doc && Truthy(doc[k]) && HasIsoformat(doc[k])
  }

  /** The normalised document, stated key by key; None when the document has
      no `_id`, where `pop` raises. */
  function Normalize(doc: Doc, lib: Library): (r: Option<Doc>) {
    if InternalId !in doc then None
    else Some(map k | k in (doc.Keys - {InternalId}) + {PublicId} ::
                if k == PublicId then Str(lib.idText(doc[InternalId]))
                else if Converts(doc, k) then Str(lib.isoText(doc[k].moment))
                else doc[k])
  }

  /** One timestamp conversion as both handlers write it: `doc[k]` becomes
      its ISO text when it is present, truthy and has `isoformat`. */
  function ConvertKey(d: Doc, k: string, lib: Library): (r: Doc) {
    if k in d && Truthy(d[k]) && HasIsoformat(d[k]) then d[k := Str(lib.isoText(d[k].moment))] else d
  }

  /** `d` is `doc` part-way through normalisation: `_id` replaced by `id`,
      and the timestamps in `done` converted. */
  ghost predicate Stage(d: Doc, doc: Doc, lib: Library, done: seq<string>)
    requires InternalId in doc
  {
    && d.Keys == (doc.Keys - {InternalId}) + {PublicId}
    && d[PublicId] == Str(lib.idText(doc[InternalId]))
    && forall k :: k in d && k != PublicId ==>
         d[k] == if k in done && Converts(doc, k) then Str(lib.isoText(doc[k].moment)) else doc[k]
  }

  lemma StageStart(doc: Doc, lib: Library)
    requires InternalId in doc
    ensures Stage((doc - {InternalId})[PublicId := Str(lib.idText(doc[InternalId]))], doc, lib, [])
  {
  }

  lemma StageStep(d: Doc, doc: Doc, lib: Library, done: seq<string>, k: string)
    requires InternalId in doc && Stage(d, doc, lib, done)
    requires k in TimestampKeys && k !in done
    ensures Stage(ConvertKey(d, k, lib), doc, lib, done + [k])
  {
  }

  lemma {:induction false} StageComplete(d: Doc, doc: Doc, lib: Library, done: seq<string>)
    requires InternalId in doc && Stage(d, doc, lib, done)
    requires forall k :: k in TimestampKeys ==> k in done
    ensures Normalize(doc, lib) == Some(d)
  {
    var expected := Normalize(doc, lib).value;
    assert d.Keys == expected.Keys;
    forall k | k in d
      ensures d[k] == expected[k]
    {
      if k != PublicId && Converts(doc, k) {
        assert k in done;
      }
    }
    assert d == expected;
  }

  /** The three rewrites of `serialize`, applied in order after the `id`
      step, give the normalised document. */
  lemma ThreeSteps(doc: Doc, lib: Library)
    requires InternalId in doc
    ensures var start := (doc - {InternalId})[PublicId := Str(lib.idText(doc[InternalId]))];
      Normalize(doc, lib) == Some(ConvertKey(ConvertKey(ConvertKey(start, "published_at", lib),
                                                        "created_at", lib), "updated_at", lib))
  {
    var d0 := (doc - {InternalId})[PublicId := Str(lib.idText(doc[InternalId]))];
    StageStart(doc, lib);
    var d1 := ConvertKey(d0, "published_at", lib);
    StageStep(d0, doc, lib, [], "published_at");
    var d2 := ConvertKey(d1, "created_at", lib);
    StageStep(d1, doc, lib, ["published_at"], "created_at");
    StageStep(d2, doc, lib, ["published_at", "created_at"], "updated_at");
    StageComplete(ConvertKey(d2, "updated_at", lib), doc, lib, ["published_at", "created_at", "updated_at"]);
  }

  /** What `serialize` does to a document: a missing `_id` raises `KeyError`,
      a `scriptures` value that cannot be iterated raises `TypeError`, and
      anything else is normalised. */
  function Serialized(doc: Doc, lib: Library): (r: Outcome) {
    if InternalId !in doc then Raised(MissingIdDetail)
    else if ScripturesKey in doc && !Iterable(doc[ScripturesKey]) then Raised(NotIterableDetail(doc[ScripturesKey]))
    else Normalized(Normalize(doc, lib).value)
  }

  /** `serialize` in `list_videos`: pop `_id` and store its text as `id`,
      run over `scriptures` (which raises unless it is iterable), then rewrite
      each of the three timestamps in turn. */
  method Serialize(doc: Doc, lib: Library) returns (out: Outcome)
    ensures InternalId !in doc ==> out == Raised(MissingIdDetail)
    ensures InternalId in doc && ScripturesKey in doc && !Iterable(doc[ScripturesKey]) ==>
      out == Raised(NotIterableDetail(doc[ScripturesKey]))
    ensures InternalId in doc && (ScripturesKey in doc ==> Iterable(doc[ScripturesKey])) ==>
      out == Normalized(Normalize(doc, lib).value)
    ensures out == Serialized(doc, lib)
  {
    if InternalId !in doc {
      return Raised(MissingIdDetail);
    }
    var d := doc;
    var id := d[InternalId];
    d := d - {InternalId};
    d := d[PublicId := Str(lib.idText(id))];
    var scriptures := if ScripturesKey in d then d[ScripturesKey] else List([]);
    if !Iterable(scriptures) {
      return Raised(NotIterableDetail(scriptures));
    }
    ghost var start := d;
    if "published_at" in d && Truthy(d["published_at"]) && HasIsoformat(d["published_at"]) {
      d := d["published_at" := Str(lib.isoText(d["published_at"].moment))];
    }
    ghost var first := d;
    assert first == ConvertKey(start, "published_at", lib);
    if "created_at" in d && Truthy(d["created_at"]) && HasIsoformat(d["created_at"]) {
      d := d["created_at" := Str(lib.isoText(d["created_at"].moment))];
    }
    ghost var second := d;
    assert second == ConvertKey(first, "created_at", lib);
    if "updated_at" in d && Truthy(d["updated_at"]) && HasIsoformat(d["updated_at"]) {
      d := d["updated_at" := Str(lib.isoText(d["updated_at"].moment))];
    }
    assert d == ConvertKey(second, "updated_at", lib);
    ThreeSteps(doc, lib);
    return Normalized(d);
  }

  /** The inline normalisation in `get_video`: the same steps, the three
      timestamps rewritten by a loop over their keys. */
  method NormalizeFetched(doc: Doc, lib: Library) returns (out: Option<Doc>)
    ensures out == Normalize(doc, lib)
  {
    if InternalId !in doc {
      return None;
    }
    var d := doc - {InternalId};
    d := d[PublicId := Str(lib.idText(doc[InternalId]))];
    StageStart(doc, lib);
    for i := 0 to |TimestampKeys|
      invariant Stage(d, doc, lib, TimestampKeys[..i])
    {
      var k := TimestampKeys[i];
      ghost var before := d;
      var v := if k in d then d[k] else Null;
      if Truthy(v) && HasIsoformat(v) {
        d := d[k := Str(lib.isoText(v.moment))];
      }
      assert k !in TimestampKeys[..i];
      StageStep(before, doc, lib, TimestampKeys[..i], k);
      assert TimestampKeys[..i] + [k] == TimestampKeys[..i + 1];
    }
    StageComplete(d, doc, lib, TimestampKeys[..|TimestampKeys|]);
    return Some(d);
  }

  /** Normalisation fails exactly when there is no `_id`; otherwise `_id` is
      replaced by the text of its value under `id`, each timestamp is
      converted exactly when it is present, truthy and date-like, and every
      other key keeps its value. */
  lemma NormalizeFrame(doc: Doc, lib: Library)
    ensures Normalize(doc, lib).None? <==> InternalId !in doc
    ensures InternalId in doc ==>
      var out := Normalize(doc, lib).value;
      && out.Keys == (doc.Keys - {InternalId}) + {PublicId}
      && out[PublicId] == Str(lib.idText(doc[InternalId]))
      && (forall k :: k in TimestampKeys && k in doc ==>
            out[k] == if Truthy(doc[k]) && HasIsoformat(doc[k]) then Str(lib.isoText(doc[k].moment)) else doc[k])
      && (forall k :: k in doc && k != InternalId && k != PublicId && k !in TimestampKeys ==> out[k] == doc[k])
  {
  }

  /** No timestamp is left as a date-time value after normalisation. */
  lemma NoDateLeft(doc: Doc, lib: Library)
    requires InternalId in doc
    ensures forall k :: k in TimestampKeys && k in Normalize(doc, lib).value ==>
      !HasIsoformat(Normalize(doc, lib).value[k])
  {
  }
}
