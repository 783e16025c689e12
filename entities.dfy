/**
 * The entities decoder: the five span collections of a post (hashtags,
 * symbols, user mentions, links and media). Each item record is drained key by
 * key and must end up empty, and so must the entities record itself.
 */
module EntitiesDecoder {
  import opened Json
  import opened Records
  import opened Lists
  import opened IntRangeDecoder
  import opened MediaDecoder

  datatype Url = Url(displayUrl: string, expandedUrl: string, indices: IntRange, url: string)

  datatype UserMention = UserMention(name: string, screenName: string, indices: IntRange, id: int)

  datatype Hashtag = Hashtag(text: string, indices: IntRange)

  datatype Symbol = Symbol(indices: IntRange, text: string)

  datatype Entities = Entities(
    hashtags: seq<Hashtag>,
    userMentions: seq<UserMention>,
    urls: seq<Url>,
    media: seq<Medium>,
    symbols: seq<Symbol>)

  // ---------------------------------------------------------------- hashtags

  /** `_make_hashtag`: exactly a string `text` and `indices`. */
  function HashtagFields(m: map<string, Json>): (r: Result<Hashtag>)
    ensures r.Ok? <==> m.Keys == {"text", "indices"} && m["text"].JStr? && MakeIntRange(m["indices"]).Ok?
    ensures r.Ok? ==> r.value == Hashtag(m["text"].s, MakeIntRange(m["indices"]).value)
    ensures r.Ok? ==> r.value.indices.Ordered()
  {
    var text :- StrAt(m, "text");
    var m := m - {"text"};
    var indicesJson :- At(m, "indices");
    var m := m - {"indices"};
    var indices :- MakeIntRange(indicesJson);
    if Drained(m) then Ok(Hashtag(text, indices)) else Fail
  }

  function HashtagOf(j: Json): (r: Result<Hashtag>)
    ensures r.Ok? ==> j.JObj? && r.value.indices.Ordered()
  {
    match j
    case JObj(m) => HashtagFields(m)
    case _ => Fail
  }

  /** `_make_hashtags`. */
  function HashtagsOf(j: Json): (r: Result<seq<Hashtag>>)
    ensures r == ListOf(j, HashtagOf)
    ensures r.Ok? ==> forall i :: 0 <= i < |r.value| ==> r.value[i].indices.Ordered()
  {
    var r := ListOf(j, HashtagOf);
    if r.Ok? then ListOfKeeps(j, HashtagOf, (h: Hashtag) => h.indices.Ordered()); r else r
  }

  method MakeHashtag(d: Record) returns (r: Result<Hashtag>)
    modifies d
    ensures r == HashtagFields(old(d.fields))
    ensures r.Ok? ==> Drained(d.fields)
  {
    var text :- PopStr(d, "text");
    var indicesJson :- d.Pop("indices");
    var indices :- MakeIntRange(indicesJson);
    if !d.IsEmpty() {
      return Fail;
    }
    r := Ok(Hashtag(text, indices));
  }

  method DecodeHashtag(j: Json) returns (r: Result<Hashtag>)
    ensures r == HashtagOf(j)
  {
    if !j.JObj? {
      return Fail;
    }
    var d := new Record(j.fields);
    r := MakeHashtag(d);
  }

  method MakeHashtags(j: Json) returns (r: Result<seq<Hashtag>>)
    ensures r == HashtagsOf(j)
  {
    var xs :- Iterated(j);
    var done: seq<Hashtag> := [];
    var i := 0;
    while i < |xs|
      invariant 0 <= i <= |xs|
      invariant MapAll(xs[..i], HashtagOf) == Ok(done)
    {
      var hashtag := DecodeHashtag(xs[i]);
      if hashtag.Fail? {
        MapAllFails(xs, HashtagOf, i);
        return Fail;
      }
      MapAllSnoc(xs, i, HashtagOf, done, hashtag.value);
      done := done + [hashtag.value];
      i := i + 1;
    }
    assert xs[..i] == xs;
    r := Ok(done);
  }

  // ---------------------------------------------------------------- symbols

  /** `_make_symbol`: exactly a string `text` and `indices`. */
  function SymbolFields(m: map<string, Json>): (r: Result<Symbol>)
    ensures r.Ok? <==> m.Keys == {"text", "indices"} && m["text"].JStr? && MakeIntRange(m["indices"]).Ok?
    ensures r.Ok? ==> r.value == Symbol(MakeIntRange(m["indices"]).value, m["text"].s)
    ensures r.Ok? ==> r.value.indices.Ordered()
  {
    var text :- StrAt(m, "text");
    var m := m - {"text"};
    var indicesJson :- At(m, "indices");
    var m := m - {"indices"};
    var indices :- MakeIntRange(indicesJson);
    if Drained(m) then Ok(Symbol(indices, text)) else Fail
  }

  function SymbolOf(j: Json): (r: Result<Symbol>)
    ensures r.Ok? ==> j.JObj? && r.value.indices.Ordered()
  {
    match j
    case JObj(m) => SymbolFields(m)
    case _ => Fail
  }

  /** `_make_symbols`. */
  function SymbolsOf(j: Json): (r: Result<seq<Symbol>>)
    ensures r == ListOf(j, SymbolOf)
    ensures r.Ok? ==> forall i :: 0 <= i < |r.value| ==> r.value[i].indices.Ordered()
  {
    var r := ListOf(j, SymbolOf);
    if r.Ok? then ListOfKeeps(j, SymbolOf, (s: Symbol) => s.indices.Ordered()); r else r
  }

  method MakeSymbol(d: Record) returns (r: Result<Symbol>)
    modifies d
    ensures r == SymbolFields(old(d.fields))
    ensures r.Ok? ==> Drained(d.fields)
  {
    var text :- PopStr(d, "text");
    var indicesJson :- d.Pop("indices");
    var indices :- MakeIntRange(indicesJson);
    if !d.IsEmpty() {
      return Fail;
    }
    r := Ok(Symbol(indices, text));
  }

  method DecodeSymbol(j: Json) returns (r: Result<Symbol>)
    ensures r == SymbolOf(j)
  {
    if !j.JObj? {
      return Fail;
    }
    var d := new Record(j.fields);
    r := MakeSymbol(d);
  }

  method MakeSymbols(j: Json) returns (r: Result<seq<Symbol>>)
    ensures r == SymbolsOf(j)
  {
    var xs :- Iterated(j);
    var done: seq<Symbol> := [];
    var i := 0;
    while i < |xs|
      invariant 0 <= i <= |xs|
      invariant MapAll(xs[..i], SymbolOf) == Ok(done)
    {
      var symbol := DecodeSymbol(xs[i]);
      if symbol.Fail? {
        MapAllFails(xs, SymbolOf, i);
        return Fail;
      }
      MapAllSnoc(xs, i, SymbolOf, done, symbol.value);
      done := done + [symbol.value];
      i := i + 1;
    }
    assert xs[..i] == xs;
    r := Ok(done);
  }

  // ---------------------------------------------------------------- urls

  const UrlKeys: set<string> := {"display_url", "expanded_url", "indices", "url"}

  /** `_make_url`: exactly string `display_url`, `expanded_url` and `url`, and `indices`. */
  function UrlFields(m: map<string, Json>): (r: Result<Url>)
    ensures r.Ok? <==>
      && m.Keys == UrlKeys
      && m["display_url"].JStr? && m["expanded_url"].JStr? && m["url"].JStr?
      && MakeIntRange(m["indices"]).Ok?
    ensures r.Ok? ==>
      r.value == Url(m["display_url"].s, m["expanded_url"].s, MakeIntRange(m["indices"]).value, m["url"].s)
    ensures r.Ok? ==> r.value.indices.Ordered()
  {
    var displayUrl :- StrAt(m, "display_url");
    var m := m - {"display_url"};
    var expandedUrl :- StrAt(m, "expanded_url");
    var m := m - {"expanded_url"};
    var indicesJson :- At(m, "indices");
    var m := m - {"indices"};
    var indices :- MakeIntRange(indicesJson);
    var url :- StrAt(m, "url");
    var m := m - {"url"};
    if Drained(m) then Ok(Url(displayUrl, expandedUrl, indices, url)) else Fail
  }

  function UrlOf(j: Json): (r: Result<Url>)
    ensures r.Ok? ==> j.JObj? && r.value.indices.Ordered()
  {
    match j
    case JObj(m) => UrlFields(m)
    case _ => Fail
  }

  /** `_make_urls`. */
  function UrlsOf(j: Json): (r: Result<seq<Url>>)
    ensures r == ListOf(j, UrlOf)
    ensures r.Ok? ==> forall i :: 0 <= i < |r.value| ==> r.value[i].indices.Ordered()
  {
    var r := ListOf(j, UrlOf);
    if r.Ok? then ListOfKeeps(j, UrlOf, (u: Url) => u.indices.Ordered()); r else r
  }

  method MakeUrl(d: Record) returns (r: Result<Url>)
    modifies d
    ensures r == UrlFields(old(d.fields))
    ensures r.Ok? ==> Drained(d.fields)
  {
    var displayUrl :- PopStr(d, "display_url");
    var expandedUrl :- PopStr(d, "expanded_url");
    var indicesJson :- d.Pop("indices");
    var indices :- MakeIntRange(indicesJson);
    var url :- PopStr(d, "url");
    if !d.IsEmpty() {
      return Fail;
    }
    r := Ok(Url(displayUrl, expandedUrl, indices, url));
  }

  method DecodeUrl(j: Json) returns (r: Result<Url>)
    ensures r == UrlOf(j)
  {
    if !j.JObj? {
      return Fail;
    }
    var d := new Record(j.fields);
    r := MakeUrl(d);
  }

  method MakeUrls(j: Json) returns (r: Result<seq<Url>>)
    ensures r == UrlsOf(j)
  {
    var xs :- Iterated(j);
    var done: seq<Url> := [];
    var i := 0;
    while i < |xs|
      invariant 0 <= i <= |xs|
      invariant MapAll(xs[..i], UrlOf) == Ok(done)
    {
      var url := DecodeUrl(xs[i]);
      if url.Fail? {
        MapAllFails(xs, UrlOf, i);
        return Fail;
      }
      MapAllSnoc(xs, i, UrlOf, done, url.value);
      done := done + [url.value];
      i := i + 1;
    }
    assert xs[..i] == xs;
    r := Ok(done);
  }

  // ---------------------------------------------------------------- user mentions

  const UserMentionKeys: set<string> := {"name", "screen_name", "indices", "id", "id_str"}

  /** `_make_user_mention`: string `name` and `screen_name`, `indices`, and an `id` matching `id_str`. */
  function UserMentionFields(m: map<string, Json>): (r: Result<UserMention>)
    ensures r.Ok? <==>
      && m.Keys == UserMentionKeys
      && m["name"].JStr? && m["screen_name"].JStr?
      && MakeIntRange(m["indices"]).Ok?
      && IntOf(m["id"]).Ok? && m["id_str"] == JStr(Decimal(IntOf(m["id"]).value))
    ensures r.Ok? ==>
      r.value == UserMention(m["name"].s, m["screen_name"].s, MakeIntRange(m["indices"]).value, IntOf(m["id"]).value)
    ensures r.Ok? ==> r.value.indices.Ordered()
  {
    var name :- StrAt(m, "name");
    var m := m - {"name"};
    var screenName :- StrAt(m, "screen_name");
    var m := m - {"screen_name"};
    var indicesJson :- At(m, "indices");
    var m := m - {"indices"};
    var indices :- MakeIntRange(indicesJson);
    var id :- CheckedIdAt(m, "id", "id_str");
    var m := m - {"id"} - {"id_str"};
    if Drained(m) then Ok(UserMention(name, screenName, indices, id)) else Fail
  }

  function UserMentionOf(j: Json): (r: Result<UserMention>)
    ensures r.Ok? ==> j.JObj? && r.value.indices.Ordered()
  {
    match j
    case JObj(m) => UserMentionFields(m)
    case _ => Fail
  }

  /** `_make_user_mentions`. */
  function UserMentionsOf(j: Json): (r: Result<seq<UserMention>>)
    ensures r == ListOf(j, UserMentionOf)
    ensures r.Ok? ==> forall i :: 0 <= i < |r.value| ==> r.value[i].indices.Ordered()
  {
    var r := ListOf(j, UserMentionOf);
    if r.Ok? then ListOfKeeps(j, UserMentionOf, (u: UserMention) => u.indices.Ordered()); r else r
  }

  method MakeUserMention(d: Record) returns (r: Result<UserMention>)
    modifies d
    ensures r == UserMentionFields(old(d.fields))
    ensures r.Ok? ==> Drained(d.fields)
  {
    var name :- PopStr(d, "name");
    var screenName :- PopStr(d, "screen_name");
    var indicesJson :- d.Pop("indices");
    var indices :- MakeIntRange(indicesJson);
    var id :- PopCheckedId(d, "id", "id_str");
    if !d.IsEmpty() {
      return Fail;
    }
    r := Ok(UserMention(name, screenName, indices, id));
  }

  method DecodeUserMention(j: Json) returns (r: Result<UserMention>)
    ensures r == UserMentionOf(j)
  {
    if !j.JObj? {
      return Fail;
    }
    var d := new Record(j.fields);
    r := MakeUserMention(d);
  }

  method MakeUserMentions(j: Json) returns (r: Result<seq<UserMention>>)
    ensures r == UserMentionsOf(j)
  {
    var xs :- Iterated(j);
    var done: seq<UserMention> := [];
    var i := 0;
    while i < |xs|
      invariant 0 <= i <= |xs|
      invariant MapAll(xs[..i], UserMentionOf) == Ok(done)
    {
      var mention := DecodeUserMention(xs[i]);
      if mention.Fail? {
        MapAllFails(xs, UserMentionOf, i);
        return Fail;
      }
      MapAllSnoc(xs, i, UserMentionOf, done, mention.value);
      done := done + [mention.value];
      i := i + 1;
    }
    assert xs[..i] == xs;
    r := Ok(done);
  }

  // ---------------------------------------------------------------- the entities record

  const EntityKeys: set<string> := {"hashtags", "symbols", "user_mentions", "urls", "media"}

  /** Each collection is popped with the empty list as its default. */
  function ListAt(m: map<string, Json>, k: string): Json {
    Get(m, k, JArr([]))
  }

  /**
   * `make_entities`: each of the five collections, an empty list when
   * missing, and no other key.
   */
  function EntitiesFields(m: map<string, Json>): (r: Result<Entities>)
    ensures r.Ok? ==> SpansOrdered(r.value)
  {
    var hashtagsJson := ListAt(m, "hashtags");
    var m := m - {"hashtags"};
    var hashtags :- HashtagsOf(hashtagsJson);
    var symbolsJson := ListAt(m, "symbols");
    var m := m - {"symbols"};
    var symbols :- SymbolsOf(symbolsJson);
    var mentionsJson := ListAt(m, "user_mentions");
    var m := m - {"user_mentions"};
    var userMentions :- UserMentionsOf(mentionsJson);
    var urlsJson := ListAt(m, "urls");
    var m := m - {"urls"};
    var urls :- UrlsOf(urlsJson);
    var mediaJson := ListAt(m, "media");
    var m := m - {"media"};
    var media :- MediaOf(mediaJson);
    if Drained(m) then Ok(Entities(hashtags, userMentions, urls, media, symbols)) else Fail
  }

  function EntitiesOf(j: Json): (r: Result<Entities>)
    ensures r.Ok? ==> j.JObj? && SpansOrdered(r.value)
  {
    match j
    case JObj(m) => EntitiesFields(m)
    case _ => Fail
  }

  method MakeEntities(d: Record) returns (r: Result<Entities>)
    modifies d
    ensures r == EntitiesFields(old(d.fields))
    ensures r.Ok? ==> Drained(d.fields)
  {
    var hashtagsJson := d.PopOr("hashtags", JArr([]));
    var hashtags :- MakeHashtags(hashtagsJson);
    var symbolsJson := d.PopOr("symbols", JArr([]));
    var symbols :- MakeSymbols(symbolsJson);
    var mentionsJson := d.PopOr("user_mentions", JArr([]));
    var userMentions :- MakeUserMentions(mentionsJson);
    var urlsJson := d.PopOr("urls", JArr([]));
    var urls :- MakeUrls(urlsJson);
    var mediaJson := d.PopOr("media", JArr([]));
    var media :- MakeMedia(mediaJson);
    if !d.IsEmpty() {
      return Fail;
    }
    r := Ok(Entities(hashtags, userMentions, urls, media, symbols));
  }

  method DecodeEntities(j: Json) returns (r: Result<Entities>)
    ensures r == EntitiesOf(j)
  {
    if !j.JObj? {
      return Fail;
    }
    var d := new Record(j.fields);
    r := MakeEntities(d);
  }

  // ---------------------------------------------------------------- properties

  /** Every span of every collection runs forwards. */
  predicate SpansOrdered(e: Entities) {
    && (forall i :: 0 <= i < |e.hashtags| ==> e.hashtags[i].indices.Ordered())
    && (forall i :: 0 <= i < |e.symbols| ==> e.symbols[i].indices.Ordered())
    && (forall i :: 0 <= i < |e.userMentions| ==> e.userMentions[i].indices.Ordered())
    && (forall i :: 0 <= i < |e.urls| ==> e.urls[i].indices.Ordered())
    && (forall i :: 0 <= i < |e.media| ==> e.media[i].base.indices.Ordered())
  }

  /** The decoded collections are those of the five keys, and no other key is allowed. */
  lemma EntitiesFacts(m: map<string, Json>)
    ensures EntitiesFields(m).Ok? <==>
      && m.Keys <= EntityKeys
      && HashtagsOf(ListAt(m, "hashtags")).Ok?
      && SymbolsOf(ListAt(m, "symbols")).Ok?
      && UserMentionsOf(ListAt(m, "user_mentions")).Ok?
      && UrlsOf(ListAt(m, "urls")).Ok?
      && MediaOf(ListAt(m, "media")).Ok?
    ensures EntitiesFields(m).Ok? ==>
      var e := EntitiesFields(m).value;
      && HashtagsOf(ListAt(m, "hashtags")) == Ok(e.hashtags)
      && SymbolsOf(ListAt(m, "symbols")) == Ok(e.symbols)
      && UserMentionsOf(ListAt(m, "user_mentions")) == Ok(e.userMentions)
      && UrlsOf(ListAt(m, "urls")) == Ok(e.urls)
      && MediaOf(ListAt(m, "media")) == Ok(e.media)
  {
    var m1 := m - {"hashtags"};
    var m2 := m1 - {"symbols"};
    var m3 := m2 - {"user_mentions"};
    var m4 := m3 - {"urls"};
    var m5 := m4 - {"media"};
    assert ListAt(m1, "symbols") == ListAt(m, "symbols");
    assert ListAt(m2, "user_mentions") == ListAt(m, "user_mentions");
    assert ListAt(m3, "urls") == ListAt(m, "urls");
    assert ListAt(m4, "media") == ListAt(m, "media");
    assert m5 == m - EntityKeys;
    DrainedAfter(m, EntityKeys);
  }

  /** A missing collection is an empty one: the empty record decodes to five empty lists. */
  lemma EmptyEntities()
    ensures EntitiesFields(map[]) == Ok(Entities([], [], [], [], []))
  {
  }

  /** Any key besides the five collections makes the record fail. */
  lemma EntitiesExtraKeyFails(m: map<string, Json>, k: string)
    requires k in m && k !in EntityKeys
    ensures EntitiesFields(m).Fail?
  {
    EntitiesFacts(m);
  }
}
