/** The query translator of `GET /api/videos`: the document-store filter built
    from the optional `q`, `platform` and `scripture` parameters, what such a
    filter means for a video record, and the bounds on `limit`. */
module Query {
  import opened Values
  import opened Schemas

  /** The value stored under one key of a filter. */
  datatype Term =
    | Equals(literal: string)                      // `"field": literal`
    | Regex(pattern: string, options: string)      // `{"$regex": pattern, "$options": options}`
    | ElemMatch(pattern: string, options: string)  // `{"$elemMatch": {"$regex": pattern, "$options": options}}`
    | AnyOf(branches: seq<Branch>)                 // the list under `"$or"`

  /** One single-key condition inside an `$or` list. */
  datatype Branch = Branch(path: string, term: Term)

  /** A filter document: every key's condition must hold. */
  type Filter = map<string, Term>

  const OrKey: string := "$or"
  const TitlePath: string := "title"
  const TagsPath: string := "tags"
  const PlatformPath: string := "platform"
  const ScripturePath: string := "scriptures.scripture"
  const CaseInsensitive: string := "i"

  const DefaultLimit: int := 50
  const MaxLimit: int := 200

  // ---------------------------------------------------------------------
  // Building the filter

  /** The three alternatives a search term is tried against. */
  function SearchBranches(q: string): (r: seq<Branch>) {
    [Branch(TitlePath, Regex(q, CaseInsensitive)),
     Branch(TagsPath, ElemMatch(q, CaseInsensitive)),
     Branch(ScripturePath, Regex(q, CaseInsensitive))]
  }

  /** The filter for the given parameters, one map per present condition. */
  function FilterOf(q: Option<string>, platform: Option<string>, scripture: Option<string>): (r: Filter) {
    (if Given(q) then map[OrKey := AnyOf(SearchBranches(q.value))] else map[])
    + (if Given(platform) then map[PlatformPath := Equals(platform.value)] else map[])
    + (if Given(scripture) then map[ScripturePath := Regex(scripture.value, CaseInsensitive)] else map[])
  }

  /** The filter as `list_videos` builds it, one assignment per present parameter. */
  method BuildFilter(q: Option<string>, platform: Option<string>, scripture: Option<string>)
    returns (filt: Filter)
    ensures filt == FilterOf(q, platform, scripture)
    ensures filt.Keys == (if Given(q) then {OrKey} else {})
                         + (if Given(platform) then {PlatformPath} else {})
                         + (if Given(scripture) then {ScripturePath} else {})
    ensures Given(q) ==> filt[OrKey] == AnyOf(SearchBranches(q.value))
    ensures Given(platform) ==> filt[PlatformPath] == Equals(platform.value)
    ensures Given(scripture) ==> filt[ScripturePath] == Regex(scripture.value, CaseInsensitive)
    ensures forall v :: Matches(filt, v) <==> Selected(q, platform, scripture, v)
  {
    filt := map[];
    if Given(q) {
      filt := filt[OrKey := AnyOf(SearchBranches(q.value))];
    }
    if Given(platform) {
      filt := filt[PlatformPath := Equals(platform.value)];
    }
    if Given(scripture) {
      filt := filt[ScripturePath := Regex(scripture.value, CaseInsensitive)];
    }
    assert filt == FilterOf(q, platform, scripture);
    forall v ensures Matches(filt, v) <==> Selected(q, platform, scripture, v) {
      FilterMeaning(q, platform, scripture, v);
    }
  }

  /** The `limit` parameter as FastAPI admits it: 50 when absent, otherwise
      in 1..200; None is the 422 rejection that happens before the handler. */
  function LimitOf(limit: Option<int>): (r: Option<int>)
    ensures r.Some? <==> limit.None? || 1 <= limit.value <= MaxLimit
    ensures r.Some? ==> 1 <= r.value <= MaxLimit
    ensures limit.None? ==> r == Some(DefaultLimit)
    ensures limit.Some? && r.Some? ==> r.value == limit.value
  {
    match limit
    case None => Some(DefaultLimit)
    case Some(n) => if 1 <= n <= MaxLimit then Some(n) else None
  }

  // ---------------------------------------------------------------------
  // What a filter means

  /** ASCII case folding. */
  function Lower(c: char): (r: char) {
    if 'A' <= c <= 'Z' then (c as int + 32) as char else c
  }

  function Fold(s: string): (r: string)
    ensures |r| == |s|
  {
    seq(|s|, i requires 0 <= i < |s| => Lower(s[i]))
  }

  /** `p` occurs in `s` as a contiguous substring. */
  predicate Contains(s: string, p: string)
    decreases |s|
  {
    p <= s || (s != [] && Contains(s[1..], p))
  }

  /** The `$regex` condition, with every pattern read as a literal substring. */
  predicate RegexMatch(pattern: string, options: string, s: string) {
    if 'i' in options then Contains(Fold(s), Fold(pattern)) else Contains(s, pattern)
  }

  function Names(refs: seq<ScriptureRef>): (r: seq<string>)
    ensures |r| == |refs|
  {
    seq(|refs|, i requires 0 <= i < |refs| => refs[i].scripture)
  }

  function Optional(o: Option<string>): (r: seq<string>) {
    if o.Some? then [o.value] else []
  }

  /** The strings found at a dotted path of a stored video; a path through
      an array yields every element's value. The filters `list_videos` builds
      use only `title`, `platform`, `tags` and `scriptures.scripture`; the
      other string fields are here so that a condition on any of them has
      its meaning too. */
  function ValuesAt(v: Video, path: string): (r: seq<string>) {
    if path == "title" then [v.title]
    else if path == "platform" then [v.platform]
    else if path == "youtube_id" then Optional(v.youtubeId)
    else if path == "url" then [v.url]
    else if path == "thumbnail" then Optional(v.thumbnail)
    else if path == "tags" then v.tags
    else if path == "scriptures.scripture" then Names(v.scriptures)
    else if path == "speaker" then [v.speaker]
    else if path == "language" then Optional(v.language)
    else []
  }

  /** The array of strings stored at a path, if that path holds one. */
  function ArrayAt(v: Video, path: string): (r: Option<seq<string>>) {
    if path == "tags" then Some(v.tags) else None
  }

  predicate Holds(path: string, t: Term, v: Video)
    decreases t
  {
    match t
    case Equals(literal) => literal in ValuesAt(v, path)
    case Regex(pattern, options) => exists s :: s in ValuesAt(v, path) && RegexMatch(pattern, options, s)
    case ElemMatch(pattern, options) =>
      ArrayAt(v, path).Some? && exists s :: s in ArrayAt(v, path).value && RegexMatch(pattern, options, s)
    case AnyOf(branches) => exists b :: b in branches && Holds(b.path, b.term, v)
  }

  /** A video satisfies a filter when every key's condition holds. */
  predicate Matches(f: Filter, v: Video) {
    forall k :: k in f ==> Holds(k, f[k], v)
  }

  // ---------------------------------------------------------------------
  // The selection the endpoint promises, stated on the record directly

  predicate FoldContains(text: string, part: string) {
    Contains(Fold(text), Fold(part))
  }

  predicate TitleHit(q: string, v: Video) {
    FoldContains(v.title, q)
  }

  predicate TagHit(q: string, v: Video) {
    exists t :: t in v.tags && FoldContains(t, q)
  }

  predicate ScriptureHit(q: string, v: Video) {
    exists r :: r in v.scriptures && FoldContains(r.scripture, q)
  }

  /** A search term selects a video whose title, some tag or some scripture
      name contains it, ignoring case. */
  predicate SearchHit(q: string, v: Video) {
    TitleHit(q, v) || TagHit(q, v) || ScriptureHit(q, v)
  }

  /** The videos a listing with these parameters asks for. */
  predicate Selected(q: Option<string>, platform: Option<string>, scripture: Option<string>, v: Video) {
    && (Given(q) ==> SearchHit(q.value, v))
    && (Given(platform) ==> v.platform == platform.value)
    && (Given(scripture) ==> ScriptureHit(scripture.value, v))
  }

  // ---------------------------------------------------------------------
  // Lemmas

  lemma ScripturePathMeaning(part: string, v: Video)
    ensures Holds(ScripturePath, Regex(part, CaseInsensitive), v) <==> ScriptureHit(part, v)
  {
    var names := Names(v.scriptures);
    if ScriptureHit(part, v) {
      var r :| r in v.scriptures && FoldContains(r.scripture, part);
      var i :| 0 <= i < |v.scriptures| && v.scriptures[i] == r;
      assert names[i] == r.scripture;
      assert RegexMatch(part, CaseInsensitive, names[i]);
    }
    if Holds(ScripturePath, Regex(part, CaseInsensitive), v) {
      var s :| s in names && RegexMatch(part, CaseInsensitive, s);
      var i :| 0 <= i < |names| && names[i] == s;
      assert v.scriptures[i] in v.scriptures && FoldContains(v.scriptures[i].scripture, part);
    }
  }

  /** The `$or` list holds exactly when the search term hits the title, a tag
      or a scripture name; a tag hit alone is enough. */
  lemma {:induction false} SearchMeaning(q: string, v: Video)
    ensures Holds(OrKey, AnyOf(SearchBranches(q)), v) <==> SearchHit(q, v)
  {
    var bs := SearchBranches(q);
    assert Holds(bs[0].path, bs[0].term, v) <==> TitleHit(q, v) by {
      assert ValuesAt(v, TitlePath) == [v.title];
      assert RegexMatch(q, CaseInsensitive, v.title) <==> TitleHit(q, v);
    }
    assert Holds(bs[1].path, bs[1].term, v) <==> TagHit(q, v);
    assert Holds(bs[2].path, bs[2].term, v) <==> ScriptureHit(q, v) by {
      ScripturePathMeaning(q, v);
    }
    assert forall b :: b in bs <==> b == bs[0] || b == bs[1] || b == bs[2];
  }

  /** The built filter selects exactly the videos the parameters ask for:
      the present conditions are AND'ed, the search alternatives OR'ed. */
  lemma {:induction false} FilterMeaning(q: Option<string>, platform: Option<string>, scripture: Option<string>, v: Video)
    ensures Matches(FilterOf(q, platform, scripture), v) <==> Selected(q, platform, scripture, v)
  {
    var f := FilterOf(q, platform, scripture);
    if Given(q) {
      assert f[OrKey] == AnyOf(SearchBranches(q.value));
      SearchMeaning(q.value, v);
    }
    if Given(platform) {
      assert f[PlatformPath] == Equals(platform.value);
      assert ValuesAt(v, PlatformPath) == [v.platform];
    }
    if Given(scripture) {
      assert f[ScripturePath] == Regex(scripture.value, CaseInsensitive);
      ScripturePathMeaning(scripture.value, v);
    }
  }

  /** The `$or` list has exactly three case-insensitive alternatives, in the
      order title, tags, scripture names. */
  lemma SearchBranchesShape(q: string)
    ensures var bs := SearchBranches(q);
      && |bs| == 3
      && bs[0] == Branch(TitlePath, Regex(q, CaseInsensitive))
      && bs[1] == Branch(TagsPath, ElemMatch(q, CaseInsensitive))
      && bs[2] == Branch(ScripturePath, Regex(q, CaseInsensitive))
  {
  }

  /** A video whose only hit is a tag is still selected by the search. */
  lemma TagAloneSuffices(q: string, v: Video)
    requires q != "" && TagHit(q, v) && !TitleHit(q, v) && !ScriptureHit(q, v)
    ensures Matches(FilterOf(Some(q), None, None), v)
  {
    FilterMeaning(Some(q), None, None, v);
  }

  /** With no condition present the filter is empty and selects everything. */
  lemma EmptyFilter(q: Option<string>, platform: Option<string>, scripture: Option<string>, v: Video)
    requires !Given(q) && !Given(platform) && !Given(scripture)
    ensures FilterOf(q, platform, scripture) == map[]
    ensures Matches(FilterOf(q, platform, scripture), v)
  {
  }

  /** `q` and `scripture` sit under different keys, so both are required and
      neither replaces the other. */
  lemma SearchAndScriptureBothKept(q: string, platform: Option<string>, scripture: string)
    requires q != "" && scripture != ""
    ensures var f := FilterOf(Some(q), platform, Some(scripture));
      && OrKey in f && ScripturePath in f
      && f[OrKey] == AnyOf(SearchBranches(q))
      && f[ScripturePath] == Regex(scripture, CaseInsensitive)
  {
  }

  /** A present platform adds its key with the literal value and changes
      nothing else. */
  lemma PlatformAddsOneKey(q: Option<string>, platform: string, scripture: Option<string>)
    requires platform != ""
    ensures FilterOf(q, Some(platform), scripture) == FilterOf(q, None, scripture)[PlatformPath := Equals(platform)]
  {
  }

  /** An empty string is the same as an absent parameter. */
  lemma EmptyIsAbsent(q: Option<string>, platform: Option<string>, scripture: Option<string>)
    ensures FilterOf(Some(""), platform, scripture) == FilterOf(None, platform, scripture)
    ensures FilterOf(q, Some(""), scripture) == FilterOf(q, None, scripture)
    ensures FilterOf(q, platform, Some("")) == FilterOf(q, platform, None)
  {
  }

  lemma FoldIdempotent(s: string)
    ensures Fold(Fold(s)) == Fold(s)
  {
  }

  /** Changing the case of the search term does not change the selection. */
  lemma {:induction false} SearchIgnoresCase(q: string, v: Video)
    ensures SearchHit(Fold(q), v) <==> SearchHit(q, v)
  {
    FoldIdempotent(q);
    assert forall text :: FoldContains(text, Fold(q)) <==> FoldContains(text, q);
  }

  /** The platform condition is an exact, case-sensitive equality: whatever
      the other parameters, a video whose platform differs from the given one
      in any way, case included (`YouTube` against `youtube`), is not selected. */
  lemma {:induction false} PlatformIsExact(q: Option<string>, p: string, s: Option<string>, v: Video)
    requires p != "" && v.platform != p
    ensures !Matches(FilterOf(q, Some(p), s), v)
  {
    FilterMeaning(q, Some(p), s, v);
  }
}
