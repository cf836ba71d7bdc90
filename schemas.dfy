/** The record schema of the catalog: a video and the scripture references it
    embeds, the validation a request body goes through before it becomes a
    `Video`, and the dump back to a document. */
module Schemas {
  import opened Values

  /** The speaker a video gets when its body names none. */
  const DefaultSpeaker: string := "Premanand Maharaj"

  /** The field names a `Video` body may carry; any other key is ignored. */
  const VideoFields: set<string> := {"title", "platform", "youtube_id", "url", "thumbnail",
    "published_at", "tags", "scriptures", "speaker", "language", "duration_seconds"}

  datatype ScriptureRef = ScriptureRef(
    scripture: string,
    chapter: Option<string>,
    verses: Option<string>,
    quote: Option<string>,
    notes: Option<string>)

  datatype Video = Video(
    title: string,
    platform: string,
    youtubeId: Option<string>,
    url: string,
    thumbnail: Option<string>,
    publishedAt: Option<Moment>,
    tags: seq<string>,
    scriptures: seq<ScriptureRef>,
    speaker: string,
    language: Option<string>,
    durationSeconds: Option<int>)

  /** The constraints a `Video` satisfies beyond its field types. */
  predicate ValidVideo(v: Video, isHttpUrl: string -> bool) {
    && isHttpUrl(v.url)
    && (v.thumbnail.Some? ==> isHttpUrl(v.thumbnail.value))
    && (v.durationSeconds.Some? ==> v.durationSeconds.value >= 0)
  }

  // Field validators. Each returns None when the body is rejected; for an
  // optional field the inner Option is the field's value.

  /** A required `str` field. */
  function RequiredText(m: Doc, key: string): (r: Option<string>) {
    if key in m && m[key].Str? then Some(m[key].s) else None
  }

  /** An `Optional[str]` field defaulting to None. */
  function OptionalText(m: Doc, key: string): (r: Option<Option<string>>) {
    if key !in m || m[key].Null? then Some(None)
    else if m[key].Str? then Some(Some(m[key].s))
    else None
  }

  /** A `str` field with a default. */
  function TextOr(m: Doc, key: string, default: string): (r: Option<string>) {
    if key !in m then Some(default)
    else if m[key].Str? then Some(m[key].s)
    else None
  }

  /** A required `HttpUrl` field. */
  function RequiredUrl(m: Doc, key: string, isHttpUrl: string -> bool): (r: Option<string>) {
    if key in m && m[key].Str? && isHttpUrl(m[key].s) then Some(m[key].s) else None
  }

  /** An `Optional[HttpUrl]` field defaulting to None. */
  function OptionalUrl(m: Doc, key: string, isHttpUrl: string -> bool): (r: Option<Option<string>>) {
    if key !in m || m[key].Null? then Some(None)
    else if m[key].Str? && isHttpUrl(m[key].s) then Some(Some(m[key].s))
    else None
  }

  /** An `Optional[datetime]` field defaulting to None. */
  function OptionalMoment(m: Doc, key: string): (r: Option<Option<Moment>>) {
    if key !in m || m[key].Null? then Some(None)
    else if m[key].Temporal? then Some(Some(m[key].moment))
    else None
  }

  /** An `Optional[int]` field with `ge=0`, defaulting to None. */
  function OptionalCount(m: Doc, key: string): (r: Option<Option<int>>) {
    if key !in m || m[key].Null? then Some(None)
    else if m[key].Int? && m[key].i >= 0 then Some(Some(m[key].i))
    else None
  }

  /** The elements of a `List[str]`: every one must be a string. */
  function TextItems(xs: seq<Value>): (r: Option<seq<string>>)
    ensures r.Some? ==> |r.value| == |xs|
    ensures r.Some? <==> forall i :: 0 <= i < |xs| ==> xs[i].Str?
    ensures r.Some? ==> forall i :: 0 <= i < |xs| ==> xs[i] == Str(r.value[i])
  {
    if xs == [] then Some([])
    else if !xs[0].Str? then None
    else
      var rest :- TextItems(xs[1..]);
      Some([xs[0].s] + rest)
  }

  /** A `List[str]` field defaulting to the empty list. */
  function TextList(m: Doc, key: string): (r: Option<seq<string>>) {
    if key !in m then Some([])
    else if m[key].List? then TextItems(m[key].items)
    else None
  }

  // What an accepted optional field reads as: None when its key is absent
  // or null, otherwise exactly the given value.

  predicate ReadsText(m: Doc, key: string, o: Option<string>) {
    if key !in m || m[key] == Null then o == None else o.Some? && m[key] == Str(o.value)
  }

  predicate ReadsMoment(m: Doc, key: string, o: Option<Moment>) {
    if key !in m || m[key] == Null then o == None else o.Some? && m[key] == Temporal(o.value)
  }

  predicate ReadsCount(m: Doc, key: string, o: Option<int>) {
    if key !in m || m[key] == Null then o == None else o.Some? && m[key] == Int(o.value)
  }

  // What the schema admits, stated field by field independently of the
  // validators: an omitted optional field is always fine.

  /** An `Optional[str]` field: omitted, null or a string. */
  predicate TextOrNull(m: Doc, key: string) {
    key !in m || m[key].Null? || m[key].Str?
  }

  /** A value `ScriptureRef` admits. */
  predicate RefConforms(v: Value) {
    && v.Object? && "scripture" in v.fields && v.fields["scripture"].Str?
    && TextOrNull(v.fields, "chapter") && TextOrNull(v.fields, "verses")
    && TextOrNull(v.fields, "quote") && TextOrNull(v.fields, "notes")
  }

  /** A body `Video` admits. */
  predicate VideoConforms(m: Doc, isHttpUrl: string -> bool) {
    && "title" in m && m["title"].Str?
    && "platform" in m && m["platform"].Str?
    && "url" in m && m["url"].Str? && isHttpUrl(m["url"].s)
    && TextOrNull(m, "youtube_id") && TextOrNull(m, "language")
    && ("thumbnail" !in m || m["thumbnail"].Null? || (m["thumbnail"].Str? && isHttpUrl(m["thumbnail"].s)))
    && ("published_at" !in m || m["published_at"].Null? || m["published_at"].Temporal?)
    && ("tags" !in m || (m["tags"].List? && forall i :: 0 <= i < |m["tags"].items| ==> m["tags"].items[i].Str?))
    && ("scriptures" !in m ||
        (m["scriptures"].List? && forall i :: 0 <= i < |m["scriptures"].items| ==> RefConforms(m["scriptures"].items[i])))
    && ("speaker" !in m || m["speaker"].Str?)
    && ("duration_seconds" !in m || m["duration_seconds"].Null?
        || (m["duration_seconds"].Int? && m["duration_seconds"].i >= 0))
  }

  /** Validation of one embedded `ScriptureRef`: an object with a string
      `scripture` and four optional strings. */
  function ParseRef(v: Value): (r: Option<ScriptureRef>)
    ensures r.Some? <==> RefConforms(v)
    ensures r.Some? ==> v.Object? && "scripture" in v.fields && v.fields["scripture"] == Str(r.value.scripture)
    ensures r.Some? ==> && ReadsText(v.fields, "chapter", r.value.chapter)
                        && ReadsText(v.fields, "verses", r.value.verses)
                        && ReadsText(v.fields, "quote", r.value.quote)
                        && ReadsText(v.fields, "notes", r.value.notes)
  {
    if !v.Object? then None
    else
      var m := v.fields;
      var scripture :- RequiredText(m, "scripture");
      var chapter :- OptionalText(m, "chapter");
      var verses :- OptionalText(m, "verses");
      var quote :- OptionalText(m, "quote");
      var notes :- OptionalText(m, "notes");
      Some(ScriptureRef(scripture, chapter, verses, quote, notes))
  }

  /** The elements of a `List[ScriptureRef]`, validated one by one. */
  function RefItems(xs: seq<Value>): (r: Option<seq<ScriptureRef>>)
    ensures r.Some? ==> |r.value| == |xs|
    ensures r.Some? ==> forall i :: 0 <= i < |xs| ==> ParseRef(xs[i]) == Some(r.value[i])
    ensures r.Some? <==> forall i :: 0 <= i < |xs| ==> RefConforms(xs[i])
  {
    if xs == [] then Some([])
    else
      var first :- ParseRef(xs[0]);
      var rest :- RefItems(xs[1..]);
      Some([first] + rest)
  }

  /** A `List[ScriptureRef]` field defaulting to the empty list. */
  function RefList(m: Doc, key: string): (r: Option<seq<ScriptureRef>>) {
    if key !in m then Some([])
    else if m[key].List? then RefItems(m[key].items)
    else None
  }

  /** Validation of a request body into a `Video`; None is a rejected body. */
  function ParseVideo(m: Doc, isHttpUrl: string -> bool): (r: Option<Video>)
    ensures r.Some? <==> VideoConforms(m, isHttpUrl)
    ensures r.Some? ==> ValidVideo(r.value, isHttpUrl)
    ensures r.Some? ==> "title" in m && "platform" in m && "url" in m
    ensures r.Some? ==> (m["title"] == Str(r.value.title) && m["platform"] == Str(r.value.platform)
                         && m["url"] == Str(r.value.url))
    ensures r.Some? ==> && ReadsText(m, "youtube_id", r.value.youtubeId)
                        && ReadsText(m, "thumbnail", r.value.thumbnail)
                        && ReadsMoment(m, "published_at", r.value.publishedAt)
                        && ReadsText(m, "language", r.value.language)
                        && ReadsCount(m, "duration_seconds", r.value.durationSeconds)
    ensures r.Some? && "tags" !in m ==> r.value.tags == []
    ensures r.Some? && "tags" in m ==>
      && m["tags"].List? && |m["tags"].items| == |r.value.tags|
      && forall i :: 0 <= i < |r.value.tags| ==> m["tags"].items[i] == Str(r.value.tags[i])
    ensures r.Some? && "scriptures" !in m ==> r.value.scriptures == []
    ensures r.Some? && "scriptures" in m ==>
      && m["scriptures"].List? && |m["scriptures"].items| == |r.value.scriptures|
      && forall i :: 0 <= i < |r.value.scriptures| ==> ParseRef(m["scriptures"].items[i]) == Some(r.value.scriptures[i])
    ensures r.Some? && "speaker" !in m ==> r.value.speaker == DefaultSpeaker
    ensures r.Some? && "speaker" in m ==> m["speaker"] == Str(r.value.speaker)
    ensures "duration_seconds" in m && m["duration_seconds"].Int? && m["duration_seconds"].i < 0 ==> r.None?
  {
    var title :- RequiredText(m, "title");
    var platform :- RequiredText(m, "platform");
    var youtubeId :- OptionalText(m, "youtube_id");
    var url :- RequiredUrl(m, "url", isHttpUrl);
    var thumbnail :- OptionalUrl(m, "thumbnail", isHttpUrl);
    var publishedAt :- OptionalMoment(m, "published_at");
    var tags :- TextList(m, "tags");
    var scriptures :- RefList(m, "scriptures");
    var speaker :- TextOr(m, "speaker", DefaultSpeaker);
    var language :- OptionalText(m, "language");
    var durationSeconds :- OptionalCount(m, "duration_seconds");
    Some(Video(title, platform, youtubeId, url, thumbnail, publishedAt, tags, scriptures,
               speaker, language, durationSeconds))
  }

  // The dump of a validated record back to a document, every field present.

  function TextValue(o: Option<string>): (r: Value) {
    if o.Some? then Str(o.value) else Null
  }

  function TextValues(ts: seq<string>): (r: seq<Value>) {
    if ts == [] then [] else [Str(ts[0])] + TextValues(ts[1..])
  }

  function DumpRef(r: ScriptureRef): (dumped: Value) {
    Object(map[
      "scripture" := Str(r.scripture),
      "chapter" := TextValue(r.chapter),
      "verses" := TextValue(r.verses),
      "quote" := TextValue(r.quote),
      "notes" := TextValue(r.notes)])
  }

  function RefValues(rs: seq<ScriptureRef>): (r: seq<Value>) {
    if rs == [] then [] else [DumpRef(rs[0])] + RefValues(rs[1..])
  }

  function DumpVideo(v: Video): (r: Doc) {
    map[
      "title" := Str(v.title),
      "platform" := Str(v.platform),
      "youtube_id" := TextValue(v.youtubeId),
      "url" := Str(v.url),
      "thumbnail" := TextValue(v.thumbnail),
      "published_at" := if v.publishedAt.Some? then Temporal(v.publishedAt.value) else Null,
      "tags" := List(TextValues(v.tags)),
      "scriptures" := List(RefValues(v.scriptures)),
      "speaker" := Str(v.speaker),
      "language" := TextValue(v.language),
      "duration_seconds" := if v.durationSeconds.Some? then Int(v.durationSeconds.value) else Null]
  }

  lemma {:induction false} TextItemsRoundTrip(ts: seq<string>)
    ensures TextItems(TextValues(ts)) == Some(ts)
  {
    if ts == [] {
      assert TextItems([]) == Some([]);
    } else {
      var vs := TextValues(ts);
      assert vs[0] == Str(ts[0]) && vs[1..] == TextValues(ts[1..]);
      TextItemsRoundTrip(ts[1..]);
      assert [ts[0]] + ts[1..] == ts;
    }
  }

  lemma RefRoundTrip(r: ScriptureRef)
    ensures ParseRef(DumpRef(r)) == Some(r)
  {
  }

  lemma {:induction false} RefItemsRoundTrip(rs: seq<ScriptureRef>)
    ensures RefItems(RefValues(rs)) == Some(rs)
  {
    if rs == [] {
      assert RefItems([]) == Some([]);
    } else {
      var vs := RefValues(rs);
      assert vs[0] == DumpRef(rs[0]) && vs[1..] == RefValues(rs[1..]);
      RefRoundTrip(rs[0]);
      RefItemsRoundTrip(rs[1..]);
      assert [rs[0]] + rs[1..] == rs;
    }
  }

  /** A valid record survives being dumped and validated again. */
  lemma ParseDumpRoundTrip(v: Video, isHttpUrl: string -> bool)
    requires ValidVideo(v, isHttpUrl)
    ensures ParseVideo(DumpVideo(v), isHttpUrl) == Some(v)
  {
    var m := DumpVideo(v);
    assert RequiredText(m, "title") == Some(v.title);
    assert RequiredText(m, "platform") == Some(v.platform);
    assert OptionalText(m, "youtube_id") == Some(v.youtubeId);
    assert RequiredUrl(m, "url", isHttpUrl) == Some(v.url);
    assert OptionalUrl(m, "thumbnail", isHttpUrl) == Some(v.thumbnail);
    assert OptionalMoment(m, "published_at") == Some(v.publishedAt);
    TextItemsRoundTrip(v.tags);
    assert TextList(m, "tags") == Some(v.tags);
    RefItemsRoundTrip(v.scriptures);
    assert RefList(m, "scriptures") == Some(v.scriptures);
    assert TextOr(m, "speaker", DefaultSpeaker) == Some(v.speaker);
    assert OptionalText(m, "language") == Some(v.language);
    assert OptionalCount(m, "duration_seconds") == Some(v.durationSeconds);
  }

  /** A body with only the three required fields gets every default. */
  lemma MinimalBody(title: string, platform: string, url: string, isHttpUrl: string -> bool)
    requires isHttpUrl(url)
    ensures ParseVideo(map["title" := Str(title), "platform" := Str(platform), "url" := Str(url)], isHttpUrl)
      == Some(Video(title, platform, None, url, None, None, [], [], DefaultSpeaker, None, None))
  {
  }

  /** A reference with only its name gets None for every other field. */
  lemma MinimalRef(name: string)
    ensures ParseRef(Object(map["scripture" := Str(name)])) == Some(ScriptureRef(name, None, None, None, None))
  {
  }

  /** Keys outside the schema do not change the outcome of validation. */
  lemma ExtraKeysIgnored(m: Doc, isHttpUrl: string -> bool)
    ensures ParseVideo(m, isHttpUrl) == ParseVideo(map k | k in m && k in VideoFields :: m[k], isHttpUrl)
  {
    var n := map k | k in m && k in VideoFields :: m[k];
    forall k | k in VideoFields
      ensures (k in m <==> k in n) && (k in m ==> m[k] == n[k])
    {
    }
    assert RequiredText(m, "title") == RequiredText(n, "title");
    assert RequiredText(m, "platform") == RequiredText(n, "platform");
    assert OptionalText(m, "youtube_id") == OptionalText(n, "youtube_id");
    assert RequiredUrl(m, "url", isHttpUrl) == RequiredUrl(n, "url", isHttpUrl);
    assert OptionalUrl(m, "thumbnail", isHttpUrl) == OptionalUrl(n, "thumbnail", isHttpUrl);
    assert OptionalMoment(m, "published_at") == OptionalMoment(n, "published_at");
    assert TextList(m, "tags") == TextList(n, "tags");
    assert RefList(m, "scriptures") == RefList(n, "scriptures");
    assert TextOr(m, "speaker", DefaultSpeaker) == TextOr(n, "speaker", DefaultSpeaker);
    assert OptionalText(m, "language") == OptionalText(n, "language");
    assert OptionalCount(m, "duration_seconds") == OptionalCount(n, "duration_seconds");
  }

  /** The keys of a `Video` body that have a default. */
  const OptionalVideoFields: set<string> := VideoFields - {"title", "platform", "url"}

  /** Any optional field may be left out: dropping one from an accepted body
      keeps it accepted, and no other field changes its validated value. */
  lemma OmitOptionalField(m: Doc, k: string, isHttpUrl: string -> bool)
    requires k in OptionalVideoFields && ParseVideo(m, isHttpUrl).Some?
    ensures ParseVideo(m - {k}, isHttpUrl).Some?
  {
    var m' := m - {k};
    assert forall key :: key in m' ==> key in m && m'[key] == m[key];
    assert VideoConforms(m', isHttpUrl);
  }

  /** Any of the four optional fields of a reference may be left out. */
  lemma OmitOptionalRefField(v: Value, k: string)
    requires k in {"chapter", "verses", "quote", "notes"} && ParseRef(v).Some?
    ensures ParseRef(Object(v.fields - {k})).Some?
  {
  }
}
