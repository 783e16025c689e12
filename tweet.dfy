/**
 * The post decoder: a `{"tweet": {...}}` wrapper whose inner record is drained
 * key by key, in four groups (flags and text, counts and dates, entities,
 * replies), and must end up empty.
 */
module TweetDecoder {
  import opened Json
  import opened Records
  import opened IntRangeDecoder
  import opened MediaDecoder
  import opened EntitiesDecoder

  /** An aware date and time, as `created_at` is parsed to. */
  datatype Timestamp = Timestamp(
    year: int, month: int, day: int, hour: int, minute: int, second: int, utcOffsetMinutes: int)

  datatype Tweet = Tweet(
    retweeted: bool,
    source: string,
    lang: string,
    fullText: string,
    favorited: bool,
    possiblySensitive: Option<bool>,
    id: int,
    retweetCount: int,
    truncated: bool,
    favoriteCount: int,
    displayTextRange: IntRange,
    createdAt: Timestamp,
    inReplyToStatusId: LooseInt,
    inReplyToUserId: LooseInt,
    inReplyToScreenName: Option<string>,
    entities: Entities,
    extendedEntities: Option<Entities>)

  // ---------------------------------------------------------------- single values

  /** The language check: a two-character code, or `und` for undetermined. */
  predicate LanguageTag(s: string) {
    |s| == 2 || s == "und"
  }

  function LangOf(v: Json): (r: Result<string>)
    ensures r.Ok? <==> v.JStr? && LanguageTag(v.s)
    ensures r.Ok? ==> v == JStr(r.value)
  {
    if v.JStr? && LanguageTag(v.s) then Ok(v.s) else Fail
  }

  /** `x is None or isinstance(x, bool)`, a missing key reading as `None`. */
  function OptionalBool(v: Json): (r: Result<Option<bool>>)
    ensures r.Ok? <==> v == JNull || v.JBool?
    ensures r == Ok(None) <==> v == JNull
    ensures r.Ok? && r.value.Some? ==> v == JBool(r.value.value)
  {
    match v
    case JNull => Ok(None)
    case JBool(b) => Ok(Some(b))
    case _ => Fail
  }

  /** `x is None or isinstance(x, str)`, a missing key reading as `None`. */
  function OptionalStr(v: Json): (r: Result<Option<string>>)
    ensures r.Ok? <==> v == JNull || v.JStr?
    ensures r == Ok(None) <==> v == JNull
    ensures r.Ok? && r.value.Some? ==> v == JStr(r.value.value)
  {
    match v
    case JNull => Ok(None)
    case JStr(s) => Ok(Some(s))
    case _ => Fail
  }

  /**
   * `date_from_str`: only a string is parsed, by `parse`, which stands for
   * `strptime` with the format `%a %b %d %H:%M:%S %z %Y`.
   */
  function DateOf(v: Json, parse: string -> Option<Timestamp>): (r: Result<Timestamp>)
    ensures r.Ok? <==> v.JStr? && parse(v.s).Some?
    ensures r.Ok? ==> parse(v.s) == Some(r.value)
  {
    if v.JStr? then
      match parse(v.s)
      case None => Fail
      case Some(t) => Ok(t)
    else Fail
  }

  /**
   * A reply target and its `_str` partner: a truthy id is converted and must
   * match the partner; a falsy one is kept as it is, and then the partner must
   * be missing or null.
   */
  function ReplyId(v: Json, vStr: Json): (r: Result<LooseInt>)
    ensures r.Ok? <==>
      if Truthy(v) then IntOf(v).Ok? && vStr == JStr(Decimal(IntOf(v).value)) else vStr == JNull
    ensures r.Ok? && r.value.Converted? ==> Truthy(v) && IntOf(v) == Ok(r.value.n) && vStr == JStr(Decimal(r.value.n))
    ensures r.Ok? && r.value.KeptFalsy? ==> !Truthy(v) && r.value.raw == v && vStr == JNull
  {
    if Truthy(v) then
      var n :- IntOf(v);
      if vStr == JStr(Decimal(n)) then Ok(Converted(n)) else Fail
    else if vStr == JNull then Ok(KeptFalsy(v))
    else Fail
  }

  /** `extended_entities`: decoded when truthy, `None` otherwise. */
  function ExtendedOf(v: Json, entitiesOf: Json -> Result<Entities>): (r: Result<Option<Entities>>)
    ensures !Truthy(v) ==> r == Ok(None)
    ensures Truthy(v) ==> (r.Ok? <==> entitiesOf(v).Ok?)
    ensures Truthy(v) && r.Ok? ==> r.value == Some(entitiesOf(v).value)
  {
    if Truthy(v) then
      var e :- entitiesOf(v);
      Ok(Some(e))
    else Ok(None)
  }

  // ---------------------------------------------------------------- the four groups

  const TextKeys: set<string> := {"retweeted", "source", "lang", "full_text", "favorited", "possibly_sensitive"}
  const CountKeys: set<string> := {
    "id", "id_str", "retweet_count", "created_at", "truncated", "favorite_count", "display_text_range"}
  const NestedKeys: set<string> := {"entities", "extended_entities"}
  const ReplyKeys: set<string> := {
    "in_reply_to_status_id", "in_reply_to_status_id_str", "in_reply_to_user_id", "in_reply_to_user_id_str",
    "in_reply_to_screen_name"}

  /** Every key a post may carry. */
  const TweetKeys: set<string> := TextKeys + CountKeys + NestedKeys + ReplyKeys

  /** The keys a post must carry: all but the optional ones, which are read with a default. */
  const RequiredKeys: set<string> := TextKeys - {"possibly_sensitive"} + CountKeys + {"entities"}

  /** The flags and text, as the first group reads them. */
  datatype TextPart = TextPart(
    retweeted: bool, source: string, lang: string, fullText: string, favorited: bool,
    possiblySensitive: Option<bool>)

  /** The checked id, the counts, the date, the truncation flag and the text range. */
  datatype CountPart = CountPart(
    id: int, retweetCount: int, createdAt: Timestamp, truncated: bool, favoriteCount: int,
    displayTextRange: IntRange)

  /** The entities and the extended entities. */
  datatype NestedPart = NestedPart(entities: Entities, extendedEntities: Option<Entities>)

  /** The reply targets and the screen name replied to. */
  datatype ReplyPart = ReplyPart(
    inReplyToStatusId: LooseInt, inReplyToUserId: LooseInt, inReplyToScreenName: Option<string>)

  /** The post built from its four groups, as `Tweet(...)` is called with them. */
  function PostOf(t: TextPart, c: CountPart, n: NestedPart, p: ReplyPart): Tweet {
    Tweet(t.retweeted, t.source, t.lang, t.fullText, t.favorited, t.possiblySensitive,
          c.id, c.retweetCount, c.truncated, c.favoriteCount, c.displayTextRange, c.createdAt,
          p.inReplyToStatusId, p.inReplyToUserId, p.inReplyToScreenName, n.entities, n.extendedEntities)
  }

  /** What the flags and text must be for their group to decode. */
  predicate TextRules(m: map<string, Json>) {
    && "retweeted" in m && m["retweeted"].JBool?
    && "source" in m && m["source"].JStr?
    && "lang" in m && LangOf(m["lang"]).Ok?
    && "full_text" in m && m["full_text"].JStr?
    && "favorited" in m && m["favorited"].JBool?
    && OptionalBool(Get(m, "possibly_sensitive", JNull)).Ok?
  }

  /** What the id, counts, date, flag and range must be for their group to decode. */
  predicate CountRules(m: map<string, Json>, parse: string -> Option<Timestamp>) {
    && "id" in m && IntOf(m["id"]).Ok?
    && "id_str" in m && m["id_str"] == JStr(Decimal(IntOf(m["id"]).value))
    && "retweet_count" in m && IntOf(m["retweet_count"]).Ok?
    && "created_at" in m && DateOf(m["created_at"], parse).Ok?
    && "truncated" in m && m["truncated"].JBool?
    && "favorite_count" in m && IntOf(m["favorite_count"]).Ok?
    && "display_text_range" in m && MakeIntRange(m["display_text_range"]).Ok?
  }

  /** What the entity sets must be for their group to decode. */
  predicate NestedRules(m: map<string, Json>, entitiesOf: Json -> Result<Entities>) {
    && "entities" in m && entitiesOf(m["entities"]).Ok?
    && ExtendedOf(Get(m, "extended_entities", JNull), entitiesOf).Ok?
  }

  /** What the reply targets and screen name must be for their group to decode. */
  predicate ReplyRules(m: map<string, Json>) {
    && ReplyId(Get(m, "in_reply_to_status_id", JNull), Get(m, "in_reply_to_status_id_str", JNull)).Ok?
    && ReplyId(Get(m, "in_reply_to_user_id", JNull), Get(m, "in_reply_to_user_id_str", JNull)).Ok?
    && OptionalStr(Get(m, "in_reply_to_screen_name", JNull)).Ok?
  }

  /** The flags and text: `retweeted`, `source`, `lang`, `full_text`, `favorited`, `possibly_sensitive`. */
  function TextFields(m: map<string, Json>): (r: Result<(TextPart, map<string, Json>)>)
    ensures r.Ok? <==> TextRules(m)
    ensures r.Ok? ==> TextKeys - {"possibly_sensitive"} <= m.Keys && Rest(r.value.1, m, TextKeys)
    ensures r.Ok? ==> var t := r.value.0;
      && m["retweeted"] == JBool(t.retweeted)
      && m["source"] == JStr(t.source)
      && m["lang"] == JStr(t.lang) && LanguageTag(t.lang)
      && m["full_text"] == JStr(t.fullText)
      && m["favorited"] == JBool(t.favorited)
      && OptionalBool(Get(m, "possibly_sensitive", JNull)) == Ok(t.possiblySensitive)
  {
    var retweeted :- BoolAt(m, "retweeted");
    var m := m - {"retweeted"};
    var source :- StrAt(m, "source");
    var m := m - {"source"};
    var langJson :- At(m, "lang");
    var m := m - {"lang"};
    var lang :- LangOf(langJson);
    var fullText :- StrAt(m, "full_text");
    var m := m - {"full_text"};
    var favorited :- BoolAt(m, "favorited");
    var m := m - {"favorited"};
    var sensitiveJson := Get(m, "possibly_sensitive", JNull);
    var m := m - {"possibly_sensitive"};
    var possiblySensitive :- OptionalBool(sensitiveJson);
    Ok((TextPart(retweeted, source, lang, fullText, favorited, possiblySensitive), m))
  }

  /** The checked `id`, the counts, `created_at`, `truncated` and `display_text_range`. */
  function CountFields(m: map<string, Json>, parse: string -> Option<Timestamp>)
    : (r: Result<(CountPart, map<string, Json>)>)
    ensures r.Ok? ==> CountKeys <= m.Keys && Rest(r.value.1, m, CountKeys)
    ensures r.Ok? ==> var c := r.value.0;
      && IntOf(m["id"]) == Ok(c.id) && m["id_str"] == JStr(Decimal(c.id))
      && IntOf(m["retweet_count"]) == Ok(c.retweetCount)
      && DateOf(m["created_at"], parse) == Ok(c.createdAt)
      && m["truncated"] == JBool(c.truncated)
      && IntOf(m["favorite_count"]) == Ok(c.favoriteCount)
      && MakeIntRange(m["display_text_range"]) == Ok(c.displayTextRange)
  {
    var id :- CheckedIdAt(m, "id", "id_str");
    var m := m - {"id"} - {"id_str"};
    var retweetCount :- IntAt(m, "retweet_count");
    var m := m - {"retweet_count"};
    var createdAtJson :- At(m, "created_at");
    var m := m - {"created_at"};
    var createdAt :- DateOf(createdAtJson, parse);
    var truncated :- BoolAt(m, "truncated");
    var m := m - {"truncated"};
    var favoriteCount :- IntAt(m, "favorite_count");
    var m := m - {"favorite_count"};
    var rangeJson :- At(m, "display_text_range");
    var m := m - {"display_text_range"};
    var displayTextRange :- MakeIntRange(rangeJson);
    Ok((CountPart(id, retweetCount, createdAt, truncated, favoriteCount, displayTextRange), m))
  }

  /** The counts decode exactly when their rules hold. */
  lemma CountFieldsDecode(m: map<string, Json>, parse: string -> Option<Timestamp>)
    ensures CountFields(m, parse).Ok? <==> CountRules(m, parse)
  {
  }

  /** `entities`, required, and `extended_entities`, optional, each decoded by `entitiesOf`. */
  function NestedFields(m: map<string, Json>, entitiesOf: Json -> Result<Entities>)
    : (r: Result<(NestedPart, map<string, Json>)>)
    ensures r.Ok? <==> NestedRules(m, entitiesOf)
    ensures r.Ok? ==> "entities" in m && Rest(r.value.1, m, NestedKeys)
    ensures r.Ok? ==>
      && entitiesOf(m["entities"]) == Ok(r.value.0.entities)
      && ExtendedOf(Get(m, "extended_entities", JNull), entitiesOf) == Ok(r.value.0.extendedEntities)
  {
    var entitiesJson :- At(m, "entities");
    var m := m - {"entities"};
    var entities :- entitiesOf(entitiesJson);
    var extendedJson := Get(m, "extended_entities", JNull);
    var m := m - {"extended_entities"};
    var extendedEntities :- ExtendedOf(extendedJson, entitiesOf);
    Ok((NestedPart(entities, extendedEntities), m))
  }

  /** The two reply targets with their partners, then `in_reply_to_screen_name`. */
  function ReplyFields(m: map<string, Json>): (r: Result<(ReplyPart, map<string, Json>)>)
    ensures r.Ok? ==> Rest(r.value.1, m, ReplyKeys)
    ensures r.Ok? ==> var p := r.value.0;
      && ReplyId(Get(m, "in_reply_to_status_id", JNull), Get(m, "in_reply_to_status_id_str", JNull))
         == Ok(p.inReplyToStatusId)
      && ReplyId(Get(m, "in_reply_to_user_id", JNull), Get(m, "in_reply_to_user_id_str", JNull))
         == Ok(p.inReplyToUserId)
      && OptionalStr(Get(m, "in_reply_to_screen_name", JNull)) == Ok(p.inReplyToScreenName)
  {
    var statusId := Get(m, "in_reply_to_status_id", JNull);
    var m := m - {"in_reply_to_status_id"};
    var statusIdStr := Get(m, "in_reply_to_status_id_str", JNull);
    var m := m - {"in_reply_to_status_id_str"};
    var inReplyToStatusId :- ReplyId(statusId, statusIdStr);
    var userId := Get(m, "in_reply_to_user_id", JNull);
    var m := m - {"in_reply_to_user_id"};
    var userIdStr := Get(m, "in_reply_to_user_id_str", JNull);
    var m := m - {"in_reply_to_user_id_str"};
    var inReplyToUserId :- ReplyId(userId, userIdStr);
    var screenNameJson := Get(m, "in_reply_to_screen_name", JNull);
    var m := m - {"in_reply_to_screen_name"};
    var inReplyToScreenName :- OptionalStr(screenNameJson);
    Ok((ReplyPart(inReplyToStatusId, inReplyToUserId, inReplyToScreenName), m))
  }

  /** The reply group decodes exactly when its rules hold. */
  lemma ReplyFieldsDecode(m: map<string, Json>)
    ensures ReplyFields(m).Ok? <==> ReplyRules(m)
  {
  }

  /**
   * `make_tweet` on the inner record: the four groups in order, then nothing
   * may be left. The entity decoder is a parameter, so that what is proved
   * about the post's own fields holds whatever it is; the decoder proper passes
   * `EntitiesOf`.
   */
  function TweetFields(m: map<string, Json>, parse: string -> Option<Timestamp>, entitiesOf: Json -> Result<Entities>)
    : Result<Tweet>
  {
    var (text, m) :- TextFields(m);
    var (counts, m) :- CountFields(m, parse);
    var (nested, m) :- NestedFields(m, entitiesOf);
    var (replies, m) :- ReplyFields(m);
    if Drained(m) then Ok(PostOf(text, counts, nested, replies)) else Fail
  }

  /** `make_tweet`: a record whose only key is `tweet`, holding the post's own record. */
  function TweetOf(j: Json, parse: string -> Option<Timestamp>): Result<Tweet> {
    if j.JObj? && j.fields.Keys == {"tweet"} && j.fields["tweet"].JObj? then
      TweetFields(j.fields["tweet"].fields, parse, EntitiesOf)
    else Fail
  }

  // ---------------------------------------------------------------- the decoder

  method PopText(d: Record) returns (r: Result<TextPart>)
    modifies d
    ensures r.Ok? <==> TextFields(old(d.fields)).Ok?
    ensures r.Ok? ==> (r.value, d.fields) == TextFields(old(d.fields)).value
  {
    var retweeted :- PopBool(d, "retweeted");
    var source :- PopStr(d, "source");
    var langJson :- d.Pop("lang");
    var lang :- LangOf(langJson);
    var fullText :- PopStr(d, "full_text");
    var favorited :- PopBool(d, "favorited");
    var sensitiveJson := d.PopOr("possibly_sensitive", JNull);
    var possiblySensitive :- OptionalBool(sensitiveJson);
    r := Ok(TextPart(retweeted, source, lang, fullText, favorited, possiblySensitive));
  }

  method PopCounts(d: Record, parse: string -> Option<Timestamp>) returns (r: Result<CountPart>)
    modifies d
    ensures r.Ok? <==> CountFields(old(d.fields), parse).Ok?
    ensures r.Ok? ==> (r.value, d.fields) == CountFields(old(d.fields), parse).value
  {
    var id :- PopCheckedId(d, "id", "id_str");
    var retweetCount :- PopInt(d, "retweet_count");
    var createdAtJson :- d.Pop("created_at");
    var createdAt :- DateOf(createdAtJson, parse);
    var truncated :- PopBool(d, "truncated");
    var favoriteCount :- PopInt(d, "favorite_count");
    var rangeJson :- d.Pop("display_text_range");
    var displayTextRange :- MakeIntRange(rangeJson);
    r := Ok(CountPart(id, retweetCount, createdAt, truncated, favoriteCount, displayTextRange));
  }

  method PopNested(d: Record) returns (r: Result<NestedPart>)
    modifies d
    ensures r.Ok? <==> NestedFields(old(d.fields), EntitiesOf).Ok?
    ensures r.Ok? ==> (r.value, d.fields) == NestedFields(old(d.fields), EntitiesOf).value
  {
    var entitiesJson :- d.Pop("entities");
    var entities :- DecodeEntities(entitiesJson);
    var extendedJson := d.PopOr("extended_entities", JNull);
    var extendedEntities: Option<Entities> := None;
    if Truthy(extendedJson) {
      var e :- DecodeEntities(extendedJson);
      extendedEntities := Some(e);
    }
    r := Ok(NestedPart(entities, extendedEntities));
  }

  method PopReplies(d: Record) returns (r: Result<ReplyPart>)
    modifies d
    ensures r.Ok? <==> ReplyFields(old(d.fields)).Ok?
    ensures r.Ok? ==> (r.value, d.fields) == ReplyFields(old(d.fields)).value
  {
    var statusId := d.PopOr("in_reply_to_status_id", JNull);
    var statusIdStr := d.PopOr("in_reply_to_status_id_str", JNull);
    var inReplyToStatusId :- ReplyId(statusId, statusIdStr);
    var userId := d.PopOr("in_reply_to_user_id", JNull);
    var userIdStr := d.PopOr("in_reply_to_user_id_str", JNull);
    var inReplyToUserId :- ReplyId(userId, userIdStr);
    var screenNameJson := d.PopOr("in_reply_to_screen_name", JNull);
    var inReplyToScreenName :- OptionalStr(screenNameJson);
    r := Ok(ReplyPart(inReplyToStatusId, inReplyToUserId, inReplyToScreenName));
  }

  method MakeTweetRecord(d: Record, parse: string -> Option<Timestamp>) returns (r: Result<Tweet>)
    modifies d
    ensures r == TweetFields(old(d.fields), parse, EntitiesOf)
    ensures r.Ok? ==> Drained(d.fields)
  {
    var text :- PopText(d);
    var counts :- PopCounts(d, parse);
    var nested :- PopNested(d);
    var replies :- PopReplies(d);
    if !d.IsEmpty() {
      return Fail;
    }
    r := Ok(PostOf(text, counts, nested, replies));
  }

  method MakeTweet(j: Json, parse: string -> Option<Timestamp>) returns (r: Result<Tweet>)
    ensures r == TweetOf(j, parse)
  {
    if !(j.JObj? && j.fields.Keys == {"tweet"}) {
      return Fail;
    }
    var inner := j.fields["tweet"];
    if !inner.JObj? {
      return Fail;
    }
    var d := new Record(inner.fields);
    r := MakeTweetRecord(d, parse);
  }

  // ---------------------------------------------------------------- properties

  /** A post carries every required key and nothing outside the known ones. */
  lemma TweetKeySet(m: map<string, Json>, parse: string -> Option<Timestamp>, entitiesOf: Json -> Result<Entities>)
    ensures TweetFields(m, parse, entitiesOf).Ok? ==> RequiredKeys <= m.Keys <= TweetKeys
  {
    if TweetFields(m, parse, entitiesOf).Ok? {
      var m1 := TextFields(m).value.1;
      var m2 := CountFields(m1, parse).value.1;
      var m3 := NestedFields(m2, entitiesOf).value.1;
      var m4 := ReplyFields(m3).value.1;
      RestThen(m, m1, m2, TextKeys, CountKeys);
      RestThen(m, m2, m3, TextKeys + CountKeys, NestedKeys);
      RestThen(m, m3, m4, TextKeys + CountKeys + NestedKeys, ReplyKeys);
      RestDrained(m4, m, TweetKeys);
    }
  }

  /** A key the decoder does not read makes the post fail. */
  lemma TweetExtraKeyFails(
    m: map<string, Json>, parse: string -> Option<Timestamp>, entitiesOf: Json -> Result<Entities>, k: string)
    requires k in m && k !in TweetKeys
    ensures TweetFields(m, parse, entitiesOf).Fail?
  {
    TweetKeySet(m, parse, entitiesOf);
  }

  /** Everything the four groups demand of the record, and no key outside the known ones. */
  predicate TweetRules(m: map<string, Json>, parse: string -> Option<Timestamp>, entitiesOf: Json -> Result<Entities>) {
    && TextRules(m)
    && CountRules(m, parse)
    && NestedRules(m, entitiesOf)
    && ReplyRules(m)
    && m.Keys <= TweetKeys
  }

  /** A post decodes exactly when every group's rules hold and it has no key the decoder does not read. */
  lemma TweetDecodes(m: map<string, Json>, parse: string -> Option<Timestamp>, entitiesOf: Json -> Result<Entities>)
    ensures TweetFields(m, parse, entitiesOf).Ok? <==> TweetRules(m, parse, entitiesOf)
  {
    if TextFields(m).Ok? {
      var m1 := TextFields(m).value.1;
      CountRulesAfter(m1, m, parse);
      CountFieldsDecode(m1, parse);
      if CountFields(m1, parse).Ok? {
        var m2 := CountFields(m1, parse).value.1;
        RestThen(m, m1, m2, TextKeys, CountKeys);
        NestedRulesAfter(m2, m, entitiesOf);
        if NestedFields(m2, entitiesOf).Ok? {
          var m3 := NestedFields(m2, entitiesOf).value.1;
          RestThen(m, m2, m3, TextKeys + CountKeys, NestedKeys);
          ReplyRulesAfter(m3, m);
          ReplyFieldsDecode(m3);
          if ReplyFields(m3).Ok? {
            var m4 := ReplyFields(m3).value.1;
            RestThen(m, m3, m4, TextKeys + CountKeys + NestedKeys, ReplyKeys);
            RestDrained(m4, m, TweetKeys);
            GroupsOk(m, parse, entitiesOf);
          }
        }
      }
    }
  }

  /** With all four groups decoded, the post is decided by what they leave. */
  lemma GroupsOk(m: map<string, Json>, parse: string -> Option<Timestamp>, entitiesOf: Json -> Result<Entities>)
    requires TextFields(m).Ok?
    requires CountFields(TextFields(m).value.1, parse).Ok?
    requires NestedFields(CountFields(TextFields(m).value.1, parse).value.1, entitiesOf).Ok?
    requires ReplyFields(NestedFields(CountFields(TextFields(m).value.1, parse).value.1, entitiesOf).value.1).Ok?
    ensures TweetFields(m, parse, entitiesOf).Ok?
        <==> Drained(ReplyFields(NestedFields(CountFields(TextFields(m).value.1, parse).value.1, entitiesOf).value.1).value.1)
  {
  }

  /** No count key is among the flags and text. */
  lemma CountKeysUnread()
    ensures "id" !in TextKeys && "id_str" !in TextKeys && "retweet_count" !in TextKeys
    ensures "created_at" !in TextKeys && "truncated" !in TextKeys && "favorite_count" !in TextKeys
    ensures "display_text_range" !in TextKeys
  {
  }

  /** No entity key is among the keys read before them. */
  lemma NestedKeysUnread()
    ensures "entities" !in TextKeys + CountKeys && "extended_entities" !in TextKeys + CountKeys
  {
  }

  /** No reply key is among those read before them. */
  lemma ReplyKeysUnread()
    ensures ReplyKeys !! TextKeys + CountKeys + NestedKeys
  {
  }

  lemma CountRulesAfter(m1: map<string, Json>, m: map<string, Json>, parse: string -> Option<Timestamp>)
    requires Rest(m1, m, TextKeys)
    ensures CountRules(m1, parse) <==> CountRules(m, parse)
  {
    CountKeysUnread();
  }

  lemma NestedRulesAfter(m2: map<string, Json>, m: map<string, Json>, entitiesOf: Json -> Result<Entities>)
    requires Rest(m2, m, TextKeys + CountKeys)
    ensures NestedRules(m2, entitiesOf) <==> NestedRules(m, entitiesOf)
  {
    NestedKeysUnread();
    GetAfter(m2, m, TextKeys + CountKeys, "extended_entities", JNull);
  }

  lemma ReplyRulesAfter(m3: map<string, Json>, m: map<string, Json>)
    requires Rest(m3, m, TextKeys + CountKeys + NestedKeys)
    ensures ReplyRules(m3) <==> ReplyRules(m)
  {
    var ks := TextKeys + CountKeys + NestedKeys;
    ReplyKeysUnread();
    GetAfter(m3, m, ks, "in_reply_to_status_id", JNull);
    GetAfter(m3, m, ks, "in_reply_to_status_id_str", JNull);
    GetAfter(m3, m, ks, "in_reply_to_user_id", JNull);
    GetAfter(m3, m, ks, "in_reply_to_user_id_str", JNull);
    GetAfter(m3, m, ks, "in_reply_to_screen_name", JNull);
  }

  /** The flags and text are read from the record itself, and the language passes its check. */
  lemma TweetText(m: map<string, Json>, parse: string -> Option<Timestamp>, entitiesOf: Json -> Result<Entities>)
    requires TweetFields(m, parse, entitiesOf).Ok?
    ensures var t := TweetFields(m, parse, entitiesOf).value;
      && m["retweeted"] == JBool(t.retweeted)
      && m["source"] == JStr(t.source)
      && m["lang"] == JStr(t.lang) && LanguageTag(t.lang)
      && m["full_text"] == JStr(t.fullText)
      && m["favorited"] == JBool(t.favorited)
      && OptionalBool(Get(m, "possibly_sensitive", JNull)) == Ok(t.possiblySensitive)
  {
  }

  /** The id agrees with `id_str`, and the counts, date and range are read from the record itself. */
  lemma TweetCounts(m: map<string, Json>, parse: string -> Option<Timestamp>, entitiesOf: Json -> Result<Entities>)
    requires TweetFields(m, parse, entitiesOf).Ok?
    ensures var t := TweetFields(m, parse, entitiesOf).value;
      && CountKeys <= m.Keys
      && IntOf(m["id"]) == Ok(t.id) && m["id_str"] == JStr(Decimal(t.id))
      && IntOf(m["retweet_count"]) == Ok(t.retweetCount)
      && DateOf(m["created_at"], parse) == Ok(t.createdAt)
      && m["truncated"] == JBool(t.truncated)
      && IntOf(m["favorite_count"]) == Ok(t.favoriteCount)
      && MakeIntRange(m["display_text_range"]) == Ok(t.displayTextRange)
      && t.displayTextRange.Ordered()
  {
    var m1 := TextFields(m).value.1;
    CountsAfterText(m, m1, parse);
  }

  lemma CountsAfterText(m: map<string, Json>, m1: map<string, Json>, parse: string -> Option<Timestamp>)
    requires Rest(m1, m, TextKeys) && CountFields(m1, parse).Ok?
    ensures var c := CountFields(m1, parse).value.0;
      && CountKeys <= m.Keys
      && IntOf(m["id"]) == Ok(c.id) && m["id_str"] == JStr(Decimal(c.id))
      && IntOf(m["retweet_count"]) == Ok(c.retweetCount)
      && DateOf(m["created_at"], parse) == Ok(c.createdAt)
      && m["truncated"] == JBool(c.truncated)
      && IntOf(m["favorite_count"]) == Ok(c.favoriteCount)
      && MakeIntRange(m["display_text_range"]) == Ok(c.displayTextRange)
  {
    assert m1["id"] == m["id"] && m1["id_str"] == m["id_str"];
    assert m1["retweet_count"] == m["retweet_count"] && m1["created_at"] == m["created_at"];
    assert m1["truncated"] == m["truncated"] && m1["favorite_count"] == m["favorite_count"];
    assert m1["display_text_range"] == m["display_text_range"];
  }

  /**
   * `entities` is decoded from the record itself; `extended_entities` too when
   * it is there and truthy, and otherwise there are none.
   */
  lemma TweetNested(m: map<string, Json>, parse: string -> Option<Timestamp>, entitiesOf: Json -> Result<Entities>)
    requires TweetFields(m, parse, entitiesOf).Ok?
    ensures var t := TweetFields(m, parse, entitiesOf).value;
      && "entities" in m && entitiesOf(m["entities"]) == Ok(t.entities)
      && ExtendedOf(Get(m, "extended_entities", JNull), entitiesOf) == Ok(t.extendedEntities)
  {
    var m1 := TextFields(m).value.1;
    var m2 := CountFields(m1, parse).value.1;
    RestThen(m, m1, m2, TextKeys, CountKeys);
    NestedAfterCounts(m, m2, entitiesOf);
  }

  lemma NestedAfterCounts(m: map<string, Json>, m2: map<string, Json>, entitiesOf: Json -> Result<Entities>)
    requires Rest(m2, m, TextKeys + CountKeys) && NestedFields(m2, entitiesOf).Ok?
    ensures var n := NestedFields(m2, entitiesOf).value.0;
      && "entities" in m && entitiesOf(m["entities"]) == Ok(n.entities)
      && ExtendedOf(Get(m, "extended_entities", JNull), entitiesOf) == Ok(n.extendedEntities)
  {
    assert m2["entities"] == m["entities"];
    GetAfter(m2, m, TextKeys + CountKeys, "extended_entities", JNull);
  }

  /**
   * Each reply target agrees with its `_str` partner when truthy, and its
   * partner is missing or null otherwise.
   */
  lemma TweetReplies(m: map<string, Json>, parse: string -> Option<Timestamp>, entitiesOf: Json -> Result<Entities>)
    requires TweetFields(m, parse, entitiesOf).Ok?
    ensures var t := TweetFields(m, parse, entitiesOf).value;
      && ReplyId(Get(m, "in_reply_to_status_id", JNull), Get(m, "in_reply_to_status_id_str", JNull))
         == Ok(t.inReplyToStatusId)
      && ReplyId(Get(m, "in_reply_to_user_id", JNull), Get(m, "in_reply_to_user_id_str", JNull))
         == Ok(t.inReplyToUserId)
      && OptionalStr(Get(m, "in_reply_to_screen_name", JNull)) == Ok(t.inReplyToScreenName)
  {
    var m1 := TextFields(m).value.1;
    var m2 := CountFields(m1, parse).value.1;
    var m3 := NestedFields(m2, entitiesOf).value.1;
    RestThen(m, m1, m2, TextKeys, CountKeys);
    RestThen(m, m2, m3, TextKeys + CountKeys, NestedKeys);
    RepliesAfterNested(m, m3);
  }

  lemma RepliesAfterNested(m: map<string, Json>, m3: map<string, Json>)
    requires Rest(m3, m, TextKeys + CountKeys + NestedKeys) && ReplyFields(m3).Ok?
    ensures var p := ReplyFields(m3).value.0;
      && ReplyId(Get(m, "in_reply_to_status_id", JNull), Get(m, "in_reply_to_status_id_str", JNull))
         == Ok(p.inReplyToStatusId)
      && ReplyId(Get(m, "in_reply_to_user_id", JNull), Get(m, "in_reply_to_user_id_str", JNull))
         == Ok(p.inReplyToUserId)
      && OptionalStr(Get(m, "in_reply_to_screen_name", JNull)) == Ok(p.inReplyToScreenName)
  {
    var ks := TextKeys + CountKeys + NestedKeys;
    ReplyKeysUnread();
    var p := ReplyFields(m3).value.0;
    ReplyIdAfter(m3, m, ks, "in_reply_to_status_id", "in_reply_to_status_id_str", p.inReplyToStatusId);
    ReplyIdAfter(m3, m, ks, "in_reply_to_user_id", "in_reply_to_user_id_str", p.inReplyToUserId);
    GetAfter(m3, m, ks, "in_reply_to_screen_name", JNull);
  }

  lemma ReplyIdAfter(rest: map<string, Json>, m: map<string, Json>, ks: set<string>, k: string, kStr: string, id: LooseInt)
    requires Rest(rest, m, ks) && k !in ks && kStr !in ks
    requires ReplyId(Get(rest, k, JNull), Get(rest, kStr, JNull)) == Ok(id)
    ensures ReplyId(Get(m, k, JNull), Get(m, kStr, JNull)) == Ok(id)
  {
    GetAfter(rest, m, ks, k, JNull);
    GetAfter(rest, m, ks, kStr, JNull);
  }

  /**
   * Every span in a decoded post's entity sets runs forwards, when the entity
   * decoder keeps spans ordered, as `EntitiesOf` does.
   */
  lemma TweetSpansOrdered(m: map<string, Json>, parse: string -> Option<Timestamp>, entitiesOf: Json -> Result<Entities>)
    requires forall j :: entitiesOf(j).Ok? ==> SpansOrdered(entitiesOf(j).value)
    requires TweetFields(m, parse, entitiesOf).Ok?
    ensures var t := TweetFields(m, parse, entitiesOf).value;
      && SpansOrdered(t.entities)
      && (t.extendedEntities.Some? ==> SpansOrdered(t.extendedEntities.value))
  {
    var m1 := TextFields(m).value.1;
    var m2 := CountFields(m1, parse).value.1;
    NestedSpansOrdered(m2, entitiesOf);
  }

  lemma NestedSpansOrdered(m: map<string, Json>, entitiesOf: Json -> Result<Entities>)
    requires forall j :: entitiesOf(j).Ok? ==> SpansOrdered(entitiesOf(j).value)
    requires NestedFields(m, entitiesOf).Ok?
    ensures var n := NestedFields(m, entitiesOf).value.0;
      && SpansOrdered(n.entities)
      && (n.extendedEntities.Some? ==> SpansOrdered(n.extendedEntities.value))
  {
  }

  /** Every span in a post `TweetOf` decodes runs forwards, in its entities and its extended entities. */
  lemma TweetOfSpansOrdered(j: Json, parse: string -> Option<Timestamp>)
    requires TweetOf(j, parse).Ok?
    ensures var t := TweetOf(j, parse).value;
      && SpansOrdered(t.entities)
      && (t.extendedEntities.Some? ==> SpansOrdered(t.extendedEntities.value))
  {
    TweetSpansOrdered(j.fields["tweet"].fields, parse, EntitiesOf);
  }

  /** Two-letter codes and `und` pass the language check; a three-letter code does not. */
  lemma LanguageExamples()
    ensures LangOf(JStr("en")) == Ok("en")
    ensures LangOf(JStr("und")) == Ok("und")
    ensures LangOf(JStr("eng")).Fail?
    ensures LangOf(JNull).Fail?
  {
  }

  /** Only a record whose one key is `tweet`, holding a record, is decoded: a string or list never is. */
  lemma TweetWrapper(j: Json, parse: string -> Option<Timestamp>)
    requires TweetOf(j, parse).Ok?
    ensures j.JObj? && j.fields.Keys == {"tweet"} && j.fields["tweet"].JObj?
  {
  }
}
