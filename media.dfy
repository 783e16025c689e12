/**
 * The media decoder: one attachment record becomes a Photo, an AnimatedGif or
 * a Video. Each record (and each nested `video_info`, `additional_media_info`,
 * size and variant record) is drained key by key and must end up empty.
 */
module MediaDecoder {
  import opened Json
  import opened Records
  import opened Lists
  import opened IntRangeDecoder

  datatype Resize = FIT | THUMB | CROP

  datatype Size = Size(width: int, height: int, resize: Resize)

  /**
   * A field that is `int()`-converted only when it is truthy; a falsy value
   * (None for a missing key, 0, False, "", [], {}) is kept as it was found.
   */
  datatype LooseInt = Converted(n: int) | KeptFalsy(raw: Json)

  datatype Variant = Variant(url: string, bitrate: LooseInt, contentType: string)

  datatype AspectRatio = AspectRatio(width: int, height: int)

  /** The fields every medium has. `media_url` is checked against `media_url_https` and dropped. */
  datatype MediumBase = MediumBase(
    displayUrl: string,
    expandedUrl: string,
    id: int,
    indices: IntRange,
    mediaUrlHttps: string,
    sizes: map<string, Size>,
    sourceStatusId: LooseInt,
    sourceUserId: LooseInt,
    url: string)

  datatype Medium =
    | Photo(base: MediumBase)
    | AnimatedGif(base: MediumBase, variants: seq<Variant>, aspectRatio: AspectRatio)
    | Video(base: MediumBase, variants: seq<Variant>, aspectRatio: AspectRatio,
            durationMillis: int, monetizable: bool)

  /** The `type` discriminant each kind of medium is decoded from. */
  function TypeName(md: Medium): string {
    match md
    case Photo(_) => "photo"
    case AnimatedGif(_, _, _) => "animated_gif"
    case Video(_, _, _, _, _) => "video"
  }

  // ---------------------------------------------------------------- sizes

  /** `upper()` of one character: a lower-case ASCII letter becomes its capital, anything else stays. */
  function UpperChar(c: char): (u: char)
    ensures 'a' <= c <= 'z' ==> 'A' <= u <= 'Z' && u as int - 'A' as int == c as int - 'a' as int
    ensures !('a' <= c <= 'z') ==> u == c
  {
    if 'a' <= c <= 'z' then (c as int - 32) as char else c
  }

  /** `s.upper()`, on ASCII letters. */
  function Upper(s: string): (u: string)
    ensures |u| == |s|
    ensures forall i :: 0 <= i < |s| ==> u[i] == UpperChar(s[i])
  {
    if s == [] then [] else [UpperChar(s[0])] + Upper(s[1..])
  }

  /** `Resize[s.upper()]`: the enumeration member named by `s`, in any letter case. */
  function ResizeNamed(s: string): (r: Result<Resize>)
    ensures r.Ok? <==> Upper(s) in {"FIT", "THUMB", "CROP"}
    ensures r == Ok(FIT) <==> Upper(s) == "FIT"
    ensures r == Ok(THUMB) <==> Upper(s) == "THUMB"
    ensures r == Ok(CROP) <==> Upper(s) == "CROP"
  {
    var u := Upper(s);
    if u == "FIT" then Ok(FIT)
    else if u == "THUMB" then Ok(THUMB)
    else if u == "CROP" then Ok(CROP)
    else Fail
  }

  /** The size mode is read in any letter case; a name outside the enumeration fails. */
  lemma ResizeExamples()
    ensures ResizeNamed("fit") == Ok(FIT)
    ensures ResizeNamed("Thumb") == Ok(THUMB)
    ensures ResizeNamed("CROP") == Ok(CROP)
    ensures ResizeNamed("fill").Fail?
  {
    assert Upper("fit") == "FIT";
    assert Upper("Thumb") == "THUMB";
    assert Upper("CROP") == "CROP";
    assert Upper("fill") == "FILL";
  }

  const SizeKeys: set<string> := {"h", "w", "resize"}

  /** `_make_size`: `int()` of `h` and `w`, a `Resize` named by `resize`, and nothing else. */
  function SizeFields(m: map<string, Json>): (r: Result<Size>)
    ensures r.Ok? <==>
      && m.Keys == SizeKeys
      && IntOf(m["h"]).Ok? && IntOf(m["w"]).Ok?
      && m["resize"].JStr? && ResizeNamed(m["resize"].s).Ok?
    ensures r.Ok? ==>
      && IntOf(m["h"]) == Ok(r.value.height) && IntOf(m["w"]) == Ok(r.value.width)
      && ResizeNamed(m["resize"].s) == Ok(r.value.resize)
  {
    var height :- IntAt(m, "h");
    var m := m - {"h"};
    var width :- IntAt(m, "w");
    var m := m - {"w"};
    var name :- StrAt(m, "resize");
    var m := m - {"resize"};
    var resize :- ResizeNamed(name);
    if Drained(m) then Ok(Size(width, height, resize)) else Fail
  }

  function SizeOf(j: Json): (r: Result<Size>)
    ensures r.Ok? ==> j.JObj?
  {
    match j
    case JObj(m) => SizeFields(m)
    case _ => Fail
  }

  /** `_make_sizes`: a dict of sizes, decoded entry by entry under the same keys. */
  function SizesOf(j: Json): (r: Result<map<string, Size>>)
    ensures r.Ok? ==> j.JObj? && r.value.Keys == j.fields.Keys
    ensures r.Ok? ==> forall k :: k in r.value ==> SizeOf(j.fields[k]) == Ok(r.value[k])
    ensures j.JObj? && (exists k :: k in j.fields && SizeOf(j.fields[k]).Fail?) ==> r.Fail?
    ensures j.JObj? && (forall k :: k in j.fields ==> SizeOf(j.fields[k]).Ok?) ==> r.Ok?
  {
    match j
    case JObj(m) =>
      if forall k :: k in m ==> SizeOf(m[k]).Ok?
      then Ok(map k | k in m :: SizeOf(m[k]).value)
      else Fail
    case _ => Fail
  }

  method MakeSize(d: Record) returns (r: Result<Size>)
    modifies d
    ensures r == SizeFields(old(d.fields))
    ensures r.Ok? ==> Drained(d.fields)
  {
    var height :- PopInt(d, "h");
    var width :- PopInt(d, "w");
    var name :- PopStr(d, "resize");
    var resize :- ResizeNamed(name);
    if !d.IsEmpty() {
      return Fail;
    }
    r := Ok(Size(width, height, resize));
  }

  /** One entry of `sizes`: a dict, handed to `_make_size` as a fresh record. */
  method DecodeSize(j: Json) returns (r: Result<Size>)
    ensures r == SizeOf(j)
  {
    if !j.JObj? {
      return Fail;
    }
    var d := new Record(j.fields);
    r := MakeSize(d);
  }

  method MakeSizes(j: Json) returns (r: Result<map<string, Size>>)
    ensures r == SizesOf(j)
  {
    if !j.JObj? {
      return Fail;
    }
    var m := j.fields;
    var todo := m.Keys;
    var done: map<string, Size> := map[];
    while todo != {}
      invariant todo <= m.Keys
      invariant done.Keys == m.Keys - todo
      invariant forall k :: k in done ==> SizeOf(m[k]) == Ok(done[k])
      decreases todo
    {
      var k :| k in todo;
      var size :- DecodeSize(m[k]);
      done := done[k := size];
      todo := todo - {k};
    }
    assert done == map k | k in m :: SizeOf(m[k]).value;
    r := Ok(done);
  }

  // ---------------------------------------------------------------- variants

  /** `if x: x = int(x)`, for a value popped with default `None`. */
  function LooseIntOf(v: Json): (r: Result<LooseInt>)
    ensures r.Fail? <==> Truthy(v) && IntOf(v).Fail?
    ensures r.Ok? && r.value.KeptFalsy? ==> r.value.raw == v && !Truthy(v)
    ensures r.Ok? && r.value.Converted? ==> Truthy(v) && IntOf(v) == Ok(r.value.n)
  {
    if Truthy(v) then
      var n :- IntOf(v);
      Ok(Converted(n))
    else Ok(KeptFalsy(v))
  }


  const VariantKeys: set<string> := {"bitrate", "content_type", "url"}

  /** `_make_variant`: string `content_type` and `url`, an optional `bitrate`, nothing else. */
  function VariantFields(m: map<string, Json>): (r: Result<Variant>)
    ensures r.Ok? <==>
      && {"content_type", "url"} <= m.Keys && m.Keys <= VariantKeys
      && m["content_type"].JStr? && m["url"].JStr? && LooseIntOf(Get(m, "bitrate", JNull)).Ok?
    ensures r.Ok? ==> m["url"] == JStr(r.value.url) && m["content_type"] == JStr(r.value.contentType)
    ensures r.Ok? ==> LooseIntOf(Get(m, "bitrate", JNull)) == Ok(r.value.bitrate)
  {
    var bitrate :- LooseIntOf(Get(m, "bitrate", JNull));
    var m := m - {"bitrate"};
    var contentType :- StrAt(m, "content_type");
    var m := m - {"content_type"};
    var url :- StrAt(m, "url");
    var m := m - {"url"};
    if Drained(m) then Ok(Variant(url, bitrate, contentType)) else Fail
  }

  function VariantOf(j: Json): (r: Result<Variant>)
    ensures r.Ok? ==> j.JObj?
  {
    match j
    case JObj(m) => VariantFields(m)
    case _ => Fail
  }

  /** `_make_variants`. */
  function VariantsOf(j: Json): (r: Result<seq<Variant>>)
    ensures j.JArr? ==> (r.Ok? <==> forall i :: 0 <= i < |j.items| ==> VariantOf(j.items[i]).Ok?)
    ensures j.JStr? && j.s != "" ==> r.Fail?
  {
    ListOf(j, VariantOf)
  }

  method MakeVariant(d: Record) returns (r: Result<Variant>)
    modifies d
    ensures r == VariantFields(old(d.fields))
    ensures r.Ok? ==> Drained(d.fields)
  {
    var rawBitrate := d.PopOr("bitrate", JNull);
    var bitrate :- LooseIntOf(rawBitrate);
    var contentType :- PopStr(d, "content_type");
    var url :- PopStr(d, "url");
    if !d.IsEmpty() {
      return Fail;
    }
    r := Ok(Variant(url, bitrate, contentType));
  }

  method DecodeVariant(j: Json) returns (r: Result<Variant>)
    ensures r == VariantOf(j)
  {
    if !j.JObj? {
      return Fail;
    }
    var d := new Record(j.fields);
    r := MakeVariant(d);
  }

  method MakeVariants(j: Json) returns (r: Result<seq<Variant>>)
    ensures r == VariantsOf(j)
  {
    var xs :- Iterated(j);
    var done: seq<Variant> := [];
    var i := 0;
    while i < |xs|
      invariant 0 <= i <= |xs|
      invariant MapAll(xs[..i], VariantOf) == Ok(done)
    {
      var variant := DecodeVariant(xs[i]);
      if variant.Fail? {
        MapAllFails(xs, VariantOf, i);
        return Fail;
      }
      MapAllSnoc(xs, i, VariantOf, done, variant.value);
      done := done + [variant.value];
      i := i + 1;
    }
    assert xs[..i] == xs;
    r := Ok(done);
  }

  // ---------------------------------------------------------------- aspect ratio

  /** `_make_aspect_ratio`: elements 0 and 1, `int()`-converted; longer inputs are not rejected. */
  function AspectRatioOf(j: Json): (r: Result<AspectRatio>)
    ensures r.Ok? ==> Indexable(j).Some? && |Indexable(j).value| >= 2
    ensures r.Ok? ==> IntOf(Indexable(j).value[0]) == Ok(r.value.width)
    ensures r.Ok? ==> IntOf(Indexable(j).value[1]) == Ok(r.value.height)
    ensures (Indexable(j).Some? && |Indexable(j).value| >= 2
             && IntOf(Indexable(j).value[0]).Ok? && IntOf(Indexable(j).value[1]).Ok?) ==> r.Ok?
  {
    match Indexable(j)
    case None => Fail
    case Some(xs) =>
      if |xs| < 2 then Fail
      else
        var width :- IntOf(xs[0]);
        var height :- IntOf(xs[1]);
        Ok(AspectRatio(width, height))
  }

  // ---------------------------------------------------------------- video_info and additional_media_info

  const GifInfoKeys: set<string> := {"aspect_ratio", "variants"}
  const VideoInfoKeys: set<string> := {"aspect_ratio", "variants", "duration_millis"}
  const AdditionalInfoKeys: set<string> := {"monetizable", "title", "description", "embeddable"}

  /** The `video_info` block of an animated gif. */
  datatype GifInfo = GifInfo(aspectRatio: AspectRatio, variants: seq<Variant>)

  /** The `video_info` block of a video. */
  datatype VideoInfo = VideoInfo(aspectRatio: AspectRatio, variants: seq<Variant>, durationMillis: int)

  /** `video_info` of an animated gif: exactly `aspect_ratio` and `variants`. */
  function GifInfoFields(m: map<string, Json>): (r: Result<GifInfo>)
    ensures r.Ok? <==>
      && m.Keys == GifInfoKeys
      && AspectRatioOf(m["aspect_ratio"]).Ok? && VariantsOf(m["variants"]).Ok?
    ensures r.Ok? ==>
      AspectRatioOf(m["aspect_ratio"]) == Ok(r.value.aspectRatio) && VariantsOf(m["variants"]) == Ok(r.value.variants)
  {
    var ratioJson :- At(m, "aspect_ratio");
    var m := m - {"aspect_ratio"};
    var ratio :- AspectRatioOf(ratioJson);
    var variantsJson :- At(m, "variants");
    var m := m - {"variants"};
    var variants :- VariantsOf(variantsJson);
    if Drained(m) then Ok(GifInfo(ratio, variants)) else Fail
  }

  /** `video_info` of a video: exactly `aspect_ratio`, `variants` and `duration_millis`. */
  function VideoInfoFields(m: map<string, Json>): (r: Result<VideoInfo>)
    ensures r.Ok? <==>
      && m.Keys == VideoInfoKeys
      && AspectRatioOf(m["aspect_ratio"]).Ok? && VariantsOf(m["variants"]).Ok?
      && IntOf(m["duration_millis"]).Ok?
    ensures r.Ok? ==>
      AspectRatioOf(m["aspect_ratio"]) == Ok(r.value.aspectRatio) && VariantsOf(m["variants"]) == Ok(r.value.variants)
    ensures r.Ok? ==> IntOf(m["duration_millis"]) == Ok(r.value.durationMillis)
  {
    var ratioJson :- At(m, "aspect_ratio");
    var m := m - {"aspect_ratio"};
    var ratio :- AspectRatioOf(ratioJson);
    var variantsJson :- At(m, "variants");
    var m := m - {"variants"};
    var variants :- VariantsOf(variantsJson);
    var duration :- IntAt(m, "duration_millis");
    var m := m - {"duration_millis"};
    if Drained(m) then Ok(VideoInfo(ratio, variants, duration)) else Fail
  }

  /**
   * `additional_media_info`: `monetizable` is required and kept as its
   * truthiness; `title` and `description` may only be "" and `embeddable` only
   * truthy, each when present; no other key.
   */
  function AdditionalInfoFields(m: map<string, Json>): (r: Result<bool>)
    ensures r.Ok? <==>
      && "monetizable" in m && m.Keys <= AdditionalInfoKeys
      && ("title" in m ==> m["title"] == JStr(""))
      && ("description" in m ==> m["description"] == JStr(""))
      && ("embeddable" in m ==> Truthy(m["embeddable"]))
    ensures r.Ok? ==> r.value == Truthy(m["monetizable"])
  {
    var monetizable :- At(m, "monetizable");
    var m := m - {"monetizable"};
    var title := Get(m, "title", JStr(""));
    var m := m - {"title"};
    var description := Get(m, "description", JStr(""));
    var m := m - {"description"};
    var embeddable := Get(m, "embeddable", JBool(true));
    var m := m - {"embeddable"};
    if title != JStr("") || description != JStr("") || !Truthy(embeddable) then Fail
    else if Drained(m) then Ok(Truthy(monetizable))
    else Fail
  }

  method MakeGifInfo(d: Record) returns (r: Result<GifInfo>)
    modifies d
    ensures r == GifInfoFields(old(d.fields))
    ensures r.Ok? ==> Drained(d.fields)
  {
    var ratioJson :- d.Pop("aspect_ratio");
    var ratio :- AspectRatioOf(ratioJson);
    var variantsJson :- d.Pop("variants");
    var variants :- MakeVariants(variantsJson);
    if !d.IsEmpty() {
      return Fail;
    }
    r := Ok(GifInfo(ratio, variants));
  }

  method MakeVideoInfo(d: Record) returns (r: Result<VideoInfo>)
    modifies d
    ensures r == VideoInfoFields(old(d.fields))
    ensures r.Ok? ==> Drained(d.fields)
  {
    var ratioJson :- d.Pop("aspect_ratio");
    var ratio :- AspectRatioOf(ratioJson);
    var variantsJson :- d.Pop("variants");
    var variants :- MakeVariants(variantsJson);
    var duration :- PopInt(d, "duration_millis");
    if !d.IsEmpty() {
      return Fail;
    }
    r := Ok(VideoInfo(ratio, variants, duration));
  }

  method MakeAdditionalInfo(d: Record) returns (r: Result<bool>)
    modifies d
    ensures r == AdditionalInfoFields(old(d.fields))
    ensures r.Ok? ==> Drained(d.fields)
  {
    var monetizable :- d.Pop("monetizable");
    var title := d.PopOr("title", JStr(""));
    if title != JStr("") {
      return Fail;
    }
    var description := d.PopOr("description", JStr(""));
    if description != JStr("") {
      return Fail;
    }
    var embeddable := d.PopOr("embeddable", JBool(true));
    if !Truthy(embeddable) {
      return Fail;
    }
    if !d.IsEmpty() {
      return Fail;
    }
    r := Ok(Truthy(monetizable));
  }

  // ---------------------------------------------------------------- the medium record

  /** `s[n:]`: Python slicing past the end gives the empty string. */
  function Drop(s: string, n: nat): (t: string)
    ensures |s| >= n ==> s == s[..n] + t
    ensures |s| <= n ==> t == ""
  {
    if |s| <= n then "" else s[n..]
  }

  /**
   * `media_url[len("http://"):] == media_url_https[len("https://"):]`: the two
   * URLs agree once seven and eight leading characters are cut; the schemes
   * themselves are not looked at.
   */
  predicate MediaUrlsAgree(mediaUrl: Json, mediaUrlHttps: Json) {
    mediaUrl.JStr? && mediaUrlHttps.JStr? && Drop(mediaUrl.s, 7) == Drop(mediaUrlHttps.s, 8)
  }

  /**
   * `source_status_id` / `source_user_id`, given the value and its `_str`
   * partner as popped (each `None` when missing): a truthy value is
   * `int()`-converted and must render as its partner; a falsy one is kept as
   * found and its partner is not looked at.
   */
  function SourceId(v: Json, vStr: Json): (r: Result<LooseInt>)
    ensures !Truthy(v) ==> r == Ok(KeptFalsy(v))
    ensures Truthy(v) ==> (r.Ok? <==> IntOf(v).Ok? && vStr == JStr(Decimal(IntOf(v).value)))
    ensures Truthy(v) && r.Ok? ==> r.value == Converted(IntOf(v).value)
  {
    if Truthy(v) then
      var n :- IntOf(v);
      if vStr == JStr(Decimal(n)) then Ok(Converted(n)) else Fail
    else Ok(KeptFalsy(v))
  }


  /** The keys read before `type`, two of them pairs of a value and its `_str` partner. */
  const BaseKeys: set<string> := {
    "display_url", "expanded_url", "id", "id_str", "indices", "media_url", "media_url_https",
    "sizes", "source_status_id", "source_status_id_str", "source_user_id", "source_user_id_str", "url"}

  const SourceIdKeys: set<string> := {
    "source_status_id", "source_status_id_str", "source_user_id", "source_user_id_str"}

  const HeadKeys: set<string> := {"display_url", "expanded_url", "id", "id_str", "indices"}
  const LinkKeys: set<string> := {"media_url", "media_url_https", "sizes"}
  const TailKeys: set<string> := {
    "source_status_id", "source_status_id_str", "source_user_id", "source_user_id_str", "url"}

  /** What the first pops of `_make_medium` read: two string URLs, the checked `id`, and `indices`. */
  datatype Head = Head(displayUrl: string, expandedUrl: string, id: int, indices: IntRange)

  /** What the URL pops read: the https media URL, once checked against `media_url`, and `sizes`. */
  datatype Links = Links(mediaUrlHttps: string, sizes: map<string, Size>)

  /** What the last shared pops read: the two source ids and `url`. */
  datatype Tail = Tail(sourceStatusId: LooseInt, sourceUserId: LooseInt, url: string)

  /** The first fields of `_make_medium`, with the keys they leave. */
  function HeadFields(m: map<string, Json>): (r: Result<(Head, map<string, Json>)>)
    ensures r.Ok? ==> HeadKeys <= m.Keys && Rest(r.value.1, m, HeadKeys)
    ensures r.Ok? ==> var h := r.value.0;
      && m["display_url"] == JStr(h.displayUrl) && m["expanded_url"] == JStr(h.expandedUrl)
      && IntOf(m["id"]) == Ok(h.id) && m["id_str"] == JStr(Decimal(h.id))
      && MakeIntRange(m["indices"]) == Ok(h.indices)
  {
    var displayUrl :- StrAt(m, "display_url");
    var m := m - {"display_url"};
    var expandedUrl :- StrAt(m, "expanded_url");
    var m := m - {"expanded_url"};
    var id :- CheckedIdAt(m, "id", "id_str");
    var m := m - {"id"} - {"id_str"};
    var indicesJson :- At(m, "indices");
    var m := m - {"indices"};
    var indices :- MakeIntRange(indicesJson);
    Ok((Head(displayUrl, expandedUrl, id, indices), m))
  }

  /** `media_url` checked against `media_url_https`, then `sizes`, with the keys they leave. */
  function LinkFields(m: map<string, Json>): (r: Result<(Links, map<string, Json>)>)
    ensures r.Ok? ==> LinkKeys <= m.Keys && Rest(r.value.1, m, LinkKeys)
    ensures r.Ok? ==>
      && MediaUrlsAgree(m["media_url"], m["media_url_https"])
      && m["media_url_https"] == JStr(r.value.0.mediaUrlHttps)
      && SizesOf(m["sizes"]) == Ok(r.value.0.sizes)
  {
    var mediaUrl :- At(m, "media_url");
    var m := m - {"media_url"};
    var mediaUrlHttps :- At(m, "media_url_https");
    var m := m - {"media_url_https"};
    if !MediaUrlsAgree(mediaUrl, mediaUrlHttps) then Fail
    else
      var sizesJson :- At(m, "sizes");
      var m := m - {"sizes"};
      var sizes :- SizesOf(sizesJson);
      Ok((Links(mediaUrlHttps.s, sizes), m))
  }

  /** The two optional source ids with their partners, then `url`, with the keys they leave. */
  function TailFields(m: map<string, Json>): (r: Result<(Tail, map<string, Json>)>)
    ensures r.Ok? ==> "url" in m && Rest(r.value.1, m, TailKeys)
    ensures r.Ok? ==> var t := r.value.0;
      && SourceId(Get(m, "source_status_id", JNull), Get(m, "source_status_id_str", JNull)) == Ok(t.sourceStatusId)
      && SourceId(Get(m, "source_user_id", JNull), Get(m, "source_user_id_str", JNull)) == Ok(t.sourceUserId)
      && m["url"] == JStr(t.url)
  {
    var statusId := Get(m, "source_status_id", JNull);
    var m := m - {"source_status_id"};
    var statusIdStr := Get(m, "source_status_id_str", JNull);
    var m := m - {"source_status_id_str"};
    var sourceStatusId :- SourceId(statusId, statusIdStr);
    var userId := Get(m, "source_user_id", JNull);
    var m := m - {"source_user_id"};
    var userIdStr := Get(m, "source_user_id_str", JNull);
    var m := m - {"source_user_id_str"};
    var sourceUserId :- SourceId(userId, userIdStr);
    var url :- StrAt(m, "url");
    var m := m - {"url"};
    Ok((Tail(sourceStatusId, sourceUserId, url), m))
  }

  function BaseOf(h: Head, l: Links, t: Tail): MediumBase {
    MediumBase(h.displayUrl, h.expandedUrl, h.id, h.indices, l.mediaUrlHttps, l.sizes,
               t.sourceStatusId, t.sourceUserId, t.url)
  }

  /**
   * The shared part of `_make_medium`, everything up to the `type`
   * discriminant, with the keys it leaves behind.
   */
  function MediumBaseFields(m: map<string, Json>): Result<(MediumBase, map<string, Json>)> {
    var (head, m) :- HeadFields(m);
    var (links, m) :- LinkFields(m);
    var (tail, m) :- TailFields(m);
    Ok((BaseOf(head, links, tail), m))
  }

  /** The blocks of its own each kind of medium has. */
  function KindKeys(md: Medium): set<string> {
    match md
    case Photo(_) => {}
    case AnimatedGif(_, _, _) => {"video_info"}
    case Video(_, _, _, _, _) => {"video_info", "additional_media_info"}
  }

  /** The keys a medium of each kind may have: the shared ones, `type`, and its own blocks. */
  function AllowedKeys(md: Medium): set<string> {
    BaseKeys + {"type"} + KindKeys(md)
  }

  /**
   * `_make_medium`: the shared fields, then a closed three-way dispatch on
   * `type`; any key the chosen kind does not read makes the record fail.
   */
  function MediumFields(m: map<string, Json>): Result<Medium> {
    var (base, m) :- MediumBaseFields(m);
    var kind :- At(m, "type");
    KindFields(kind, base, m - {"type"})
  }

  /**
   * The three-way dispatch on `type`, over the keys the shared part left: each
   * kind takes exactly its own blocks, and any other `type` fails.
   */
  function KindFields(kind: Json, base: MediumBase, m: map<string, Json>): (r: Result<Medium>)
    ensures r.Ok? ==> m.Keys == KindKeys(r.value) && kind == JStr(TypeName(r.value)) && r.value.base == base
    ensures r.Ok? && r.value.AnimatedGif? ==>
      && m["video_info"].JObj?
      && GifInfoFields(m["video_info"].fields) == Ok(GifInfo(r.value.aspectRatio, r.value.variants))
    ensures r.Ok? && r.value.Video? ==>
      && m["video_info"].JObj?
      && VideoInfoFields(m["video_info"].fields) == Ok(VideoInfo(r.value.aspectRatio, r.value.variants, r.value.durationMillis))
      && m["additional_media_info"].JObj?
      && AdditionalInfoFields(m["additional_media_info"].fields) == Ok(r.value.monetizable)
    ensures kind != JStr("photo") && kind != JStr("animated_gif") && kind != JStr("video") ==> r.Fail?
  {
    if kind == JStr("photo") then
      if Drained(m) then Ok(Photo(base)) else Fail
    else if kind == JStr("animated_gif") then GifFields(base, m)
    else if kind == JStr("video") then VideoFields(base, m)
    else Fail
  }

  /** The `"animated_gif"` branch: a `video_info` dict and nothing else. */
  function GifFields(base: MediumBase, m: map<string, Json>): (r: Result<Medium>)
    ensures r.Ok? ==> m.Keys == {"video_info"} && r.value.AnimatedGif? && r.value.base == base
    ensures r.Ok? ==>
      && m["video_info"].JObj?
      && GifInfoFields(m["video_info"].fields) == Ok(GifInfo(r.value.aspectRatio, r.value.variants))
  {
    var info :- At(m, "video_info");
    var m := m - {"video_info"};
    if !info.JObj? then Fail
    else
      var gif :- GifInfoFields(info.fields);
      if Drained(m) then Ok(AnimatedGif(base, gif.variants, gif.aspectRatio)) else Fail
  }

  /** The `"video"` branch: `video_info` and `additional_media_info` dicts and nothing else. */
  function VideoFields(base: MediumBase, m: map<string, Json>): (r: Result<Medium>)
    ensures r.Ok? ==> m.Keys == {"video_info", "additional_media_info"} && r.value.Video? && r.value.base == base
    ensures r.Ok? ==>
      && m["video_info"].JObj?
      && VideoInfoFields(m["video_info"].fields) == Ok(VideoInfo(r.value.aspectRatio, r.value.variants, r.value.durationMillis))
      && m["additional_media_info"].JObj?
      && AdditionalInfoFields(m["additional_media_info"].fields) == Ok(r.value.monetizable)
  {
    var info :- At(m, "video_info");
    var m := m - {"video_info"};
    if !info.JObj? then Fail
    else
      var video :- VideoInfoFields(info.fields);
      var extra :- At(m, "additional_media_info");
      var m := m - {"additional_media_info"};
      if !extra.JObj? then Fail
      else
        var monetizable :- AdditionalInfoFields(extra.fields);
        if Drained(m) then Ok(Video(base, video.variants, video.aspectRatio, video.durationMillis, monetizable)) else Fail
  }

  function MediumOf(j: Json): (r: Result<Medium>)
    ensures r.Ok? ==> j.JObj?
  {
    match j
    case JObj(m) => MediumFields(m)
    case _ => Fail
  }

  /** `make_media`: every decoded medium's span runs forwards. */
  function MediaOf(j: Json): (r: Result<seq<Medium>>)
    ensures r == ListOf(j, MediumOf)
    ensures r.Ok? ==> forall i :: 0 <= i < |r.value| ==> r.value[i].base.indices.Ordered()
  {
    var r := ListOf(j, MediumOf);
    if r.Ok? then MediaSpansOrdered(j); r else r
  }

  method PopHead(d: Record) returns (r: Result<Head>)
    modifies d
    ensures r.Ok? <==> HeadFields(old(d.fields)).Ok?
    ensures r.Ok? ==> (r.value, d.fields) == HeadFields(old(d.fields)).value
  {
    var displayUrl :- PopStr(d, "display_url");
    var expandedUrl :- PopStr(d, "expanded_url");
    var id :- PopCheckedId(d, "id", "id_str");
    var indicesJson :- d.Pop("indices");
    var indices :- MakeIntRange(indicesJson);
    r := Ok(Head(displayUrl, expandedUrl, id, indices));
  }

  method PopLinks(d: Record) returns (r: Result<Links>)
    modifies d
    ensures r.Ok? <==> LinkFields(old(d.fields)).Ok?
    ensures r.Ok? ==> (r.value, d.fields) == LinkFields(old(d.fields)).value
  {
    var mediaUrl :- d.Pop("media_url");
    var mediaUrlHttps :- d.Pop("media_url_https");
    if !MediaUrlsAgree(mediaUrl, mediaUrlHttps) {
      return Fail;
    }
    var sizesJson :- d.Pop("sizes");
    var sizes :- MakeSizes(sizesJson);
    r := Ok(Links(mediaUrlHttps.s, sizes));
  }

  method PopTail(d: Record) returns (r: Result<Tail>)
    modifies d
    ensures r.Ok? <==> TailFields(old(d.fields)).Ok?
    ensures r.Ok? ==> (r.value, d.fields) == TailFields(old(d.fields)).value
  {
    var statusId := d.PopOr("source_status_id", JNull);
    var statusIdStr := d.PopOr("source_status_id_str", JNull);
    var sourceStatusId :- SourceId(statusId, statusIdStr);
    var userId := d.PopOr("source_user_id", JNull);
    var userIdStr := d.PopOr("source_user_id_str", JNull);
    var sourceUserId :- SourceId(userId, userIdStr);
    var url :- PopStr(d, "url");
    r := Ok(Tail(sourceStatusId, sourceUserId, url));
  }

  method PopMediumBase(d: Record) returns (r: Result<MediumBase>)
    modifies d
    ensures r.Ok? <==> MediumBaseFields(old(d.fields)).Ok?
    ensures r.Ok? ==> (r.value, d.fields) == MediumBaseFields(old(d.fields)).value
  {
    var head :- PopHead(d);
    var links :- PopLinks(d);
    var tail :- PopTail(d);
    r := Ok(BaseOf(head, links, tail));
  }

  method MakeMedium(d: Record) returns (r: Result<Medium>)
    modifies d
    ensures r == MediumFields(old(d.fields))
    ensures r.Ok? ==> Drained(d.fields)
  {
    var base :- PopMediumBase(d);
    var kind :- d.Pop("type");
    r := MakeKind(d, kind, base);
  }

  method MakeKind(d: Record, kind: Json, base: MediumBase) returns (r: Result<Medium>)
    modifies d
    ensures r == KindFields(kind, base, old(d.fields))
    ensures r.Ok? ==> Drained(d.fields)
  {
    if kind == JStr("photo") {
      if !d.IsEmpty() {
        return Fail;
      }
      r := Ok(Photo(base));
    } else if kind == JStr("animated_gif") {
      r := MakeGif(d, base);
    } else if kind == JStr("video") {
      r := MakeVideo(d, base);
    } else {
      r := Fail;
    }
  }

  method MakeGif(d: Record, base: MediumBase) returns (r: Result<Medium>)
    modifies d
    ensures r == GifFields(base, old(d.fields))
    ensures r.Ok? ==> Drained(d.fields)
  {
    var info :- d.Pop("video_info");
    if !info.JObj? {
      return Fail;
    }
    var infoRecord := new Record(info.fields);
    var gif :- MakeGifInfo(infoRecord);
    if !d.IsEmpty() {
      return Fail;
    }
    r := Ok(AnimatedGif(base, gif.variants, gif.aspectRatio));
  }

  method MakeVideo(d: Record, base: MediumBase) returns (r: Result<Medium>)
    modifies d
    ensures r == VideoFields(base, old(d.fields))
    ensures r.Ok? ==> Drained(d.fields)
  {
    var info :- d.Pop("video_info");
    if !info.JObj? {
      return Fail;
    }
    var infoRecord := new Record(info.fields);
    var video :- MakeVideoInfo(infoRecord);
    var extra :- d.Pop("additional_media_info");
    if !extra.JObj? {
      return Fail;
    }
    var extraRecord := new Record(extra.fields);
    var monetizable :- MakeAdditionalInfo(extraRecord);
    if !d.IsEmpty() {
      return Fail;
    }
    r := Ok(Video(base, video.variants, video.aspectRatio, video.durationMillis, monetizable));
  }

  method DecodeMedium(j: Json) returns (r: Result<Medium>)
    ensures r == MediumOf(j)
  {
    if !j.JObj? {
      return Fail;
    }
    var d := new Record(j.fields);
    r := MakeMedium(d);
  }

  method MakeMedia(j: Json) returns (r: Result<seq<Medium>>)
    ensures r == MediaOf(j)
  {
    var xs :- Iterated(j);
    var done: seq<Medium> := [];
    var i := 0;
    while i < |xs|
      invariant 0 <= i <= |xs|
      invariant MapAll(xs[..i], MediumOf) == Ok(done)
    {
      var medium := DecodeMedium(xs[i]);
      if medium.Fail? {
        MapAllFails(xs, MediumOf, i);
        return Fail;
      }
      MapAllSnoc(xs, i, MediumOf, done, medium.value);
      done := done + [medium.value];
      i := i + 1;
    }
    assert xs[..i] == xs;
    r := Ok(done);
  }

  /** The shared part pops exactly `BaseKeys`, of which only the source-id pairs may be missing. */
  lemma MediumBaseKeys(m: map<string, Json>)
    requires MediumBaseFields(m).Ok?
    ensures BaseKeys - SourceIdKeys <= m.Keys
    ensures Rest(MediumBaseFields(m).value.1, m, BaseKeys)
  {
    var m1 := HeadFields(m).value.1;
    var m2 := LinkFields(m1).value.1;
    var m3 := TailFields(m2).value.1;
    RestThen(m, m1, m2, HeadKeys, LinkKeys);
    RestThen(m, m2, m3, HeadKeys + LinkKeys, TailKeys);
    assert HeadKeys + LinkKeys + TailKeys == BaseKeys;
  }

  /** The URLs, `id` and `indices` are read from the record itself, with the checks the decoder makes. */
  lemma MediumBaseHead(m: map<string, Json>)
    requires MediumBaseFields(m).Ok?
    ensures var b := MediumBaseFields(m).value.0;
      && HeadKeys <= m.Keys
      && m["display_url"] == JStr(b.displayUrl) && m["expanded_url"] == JStr(b.expandedUrl)
      && IntOf(m["id"]) == Ok(b.id) && m["id_str"] == JStr(Decimal(b.id))
      && MakeIntRange(m["indices"]) == Ok(b.indices) && b.indices.Ordered()
  {
  }

  /** `media_url_https` and `sizes` are read from the record itself, with the checks the decoder makes. */
  lemma MediumBaseLinks(m: map<string, Json>)
    requires MediumBaseFields(m).Ok?
    ensures var b := MediumBaseFields(m).value.0;
      && LinkKeys <= m.Keys
      && MediaUrlsAgree(m["media_url"], m["media_url_https"])
      && m["media_url_https"] == JStr(b.mediaUrlHttps)
      && SizesOf(m["sizes"]) == Ok(b.sizes)
  {
    var m1 := HeadFields(m).value.1;
    LinksAfterHead(m, m1);
  }

  lemma LinksAfterHead(m: map<string, Json>, m1: map<string, Json>)
    requires Rest(m1, m, HeadKeys) && LinkFields(m1).Ok?
    ensures var l := LinkFields(m1).value.0;
      && LinkKeys <= m.Keys
      && MediaUrlsAgree(m["media_url"], m["media_url_https"])
      && m["media_url_https"] == JStr(l.mediaUrlHttps)
      && SizesOf(m["sizes"]) == Ok(l.sizes)
  {
    assert m1["media_url"] == m["media_url"] && m1["media_url_https"] == m["media_url_https"];
    assert m1["sizes"] == m["sizes"];
  }

  /** The source ids and `url` are read from the record itself, with the checks the decoder makes. */
  lemma MediumBaseTail(m: map<string, Json>)
    requires MediumBaseFields(m).Ok?
    ensures var b := MediumBaseFields(m).value.0;
      && "url" in m && m["url"] == JStr(b.url)
      && SourceId(Get(m, "source_status_id", JNull), Get(m, "source_status_id_str", JNull)) == Ok(b.sourceStatusId)
      && SourceId(Get(m, "source_user_id", JNull), Get(m, "source_user_id_str", JNull)) == Ok(b.sourceUserId)
  {
    var m1 := HeadFields(m).value.1;
    var m2 := LinkFields(m1).value.1;
    RestThen(m, m1, m2, HeadKeys, LinkKeys);
    TailAfterLinks(m, m2);
  }

  lemma TailAfterLinks(m: map<string, Json>, m2: map<string, Json>)
    requires Rest(m2, m, HeadKeys + LinkKeys) && TailFields(m2).Ok?
    ensures var t := TailFields(m2).value.0;
      && "url" in m && m["url"] == JStr(t.url)
      && SourceId(Get(m, "source_status_id", JNull), Get(m, "source_status_id_str", JNull)) == Ok(t.sourceStatusId)
      && SourceId(Get(m, "source_user_id", JNull), Get(m, "source_user_id_str", JNull)) == Ok(t.sourceUserId)
  {
    var t := TailFields(m2).value.0;
    SourceIdAfterLinks(m, m2, "source_status_id", "source_status_id_str", t.sourceStatusId);
    SourceIdAfterLinks(m, m2, "source_user_id", "source_user_id_str", t.sourceUserId);
  }

  lemma SourceIdAfterLinks(m: map<string, Json>, m2: map<string, Json>, k: string, kStr: string, id: LooseInt)
    requires Rest(m2, m, HeadKeys + LinkKeys) && k !in HeadKeys + LinkKeys && kStr !in HeadKeys + LinkKeys
    requires SourceId(Get(m2, k, JNull), Get(m2, kStr, JNull)) == Ok(id)
    ensures SourceId(Get(m, k, JNull), Get(m, kStr, JNull)) == Ok(id)
  {
    assert Get(m2, k, JNull) == Get(m, k, JNull);
    assert Get(m2, kStr, JNull) == Get(m, kStr, JNull);
  }

  /**
   * The checks the shared part of `_make_medium` makes, on the record as it
   * comes in: every shared key but the source-id pairs is there, the two URLs
   * are strings, `id` agrees with `id_str`, `indices` is a span, the media URLs
   * agree, `sizes` decodes, each source id agrees with its partner, and `url` is
   * a string.
   */
  predicate BaseRules(m: map<string, Json>) {
    && HeadKeys <= m.Keys && LinkKeys <= m.Keys && "url" in m
    && m["display_url"].JStr? && m["expanded_url"].JStr?
    && IntOf(m["id"]).Ok? && m["id_str"] == JStr(Decimal(IntOf(m["id"]).value))
    && MakeIntRange(m["indices"]).Ok?
    && MediaUrlsAgree(m["media_url"], m["media_url_https"])
    && SizesOf(m["sizes"]).Ok?
    && SourceId(Get(m, "source_status_id", JNull), Get(m, "source_status_id_str", JNull)).Ok?
    && SourceId(Get(m, "source_user_id", JNull), Get(m, "source_user_id_str", JNull)).Ok?
    && m["url"].JStr?
  }

  /** The shared part succeeds exactly when the record passes its checks. */
  lemma MediumBaseDecodes(m: map<string, Json>)
    ensures MediumBaseFields(m).Ok? <==> BaseRules(m)
  {
    if MediumBaseFields(m).Ok? {
      MediumBaseRulesHold(m);
    }
    if BaseRules(m) {
      MediumBaseOk(m);
    }
  }

  lemma MediumBaseRulesHold(m: map<string, Json>)
    requires MediumBaseFields(m).Ok?
    ensures BaseRules(m)
  {
    MediumBaseHead(m);
    MediumBaseLinks(m);
    MediumBaseTail(m);
  }

  lemma MediumBaseOk(m: map<string, Json>)
    requires BaseRules(m)
    ensures MediumBaseFields(m).Ok?
  {
    HeadFieldsOk(m);
    var m1 := HeadFields(m).value.1;
    LinksAfterHeadOk(m, m1);
    var m2 := LinkFields(m1).value.1;
    RestThen(m, m1, m2, HeadKeys, LinkKeys);
    TailAfterLinksOk(m, m2);
    PiecesOk(m);
  }

  lemma PiecesOk(m: map<string, Json>)
    requires HeadFields(m).Ok? && LinkFields(HeadFields(m).value.1).Ok?
    requires TailFields(LinkFields(HeadFields(m).value.1).value.1).Ok?
    ensures MediumBaseFields(m).Ok?
  {
  }

  lemma HeadFieldsOk(m: map<string, Json>)
    requires HeadKeys <= m.Keys
    requires m["display_url"].JStr? && m["expanded_url"].JStr?
    requires IntOf(m["id"]).Ok? && m["id_str"] == JStr(Decimal(IntOf(m["id"]).value))
    requires MakeIntRange(m["indices"]).Ok?
    ensures HeadFields(m).Ok?
  {
    var m1 := m - {"display_url"} - {"expanded_url"};
    assert m1["id"] == m["id"] && m1["id_str"] == m["id_str"];
  }

  lemma LinksAfterHeadOk(m: map<string, Json>, m1: map<string, Json>)
    requires Rest(m1, m, HeadKeys) && LinkKeys <= m.Keys
    requires MediaUrlsAgree(m["media_url"], m["media_url_https"]) && SizesOf(m["sizes"]).Ok?
    ensures LinkFields(m1).Ok?
  {
    assert m1["media_url"] == m["media_url"] && m1["media_url_https"] == m["media_url_https"];
    assert m1["sizes"] == m["sizes"];
  }

  lemma TailAfterLinksOk(m: map<string, Json>, m2: map<string, Json>)
    requires Rest(m2, m, HeadKeys + LinkKeys) && "url" in m && m["url"].JStr?
    requires SourceId(Get(m, "source_status_id", JNull), Get(m, "source_status_id_str", JNull)).Ok?
    requires SourceId(Get(m, "source_user_id", JNull), Get(m, "source_user_id_str", JNull)).Ok?
    ensures TailFields(m2).Ok?
  {
    GetAfter(m2, m, HeadKeys + LinkKeys, "source_status_id", JNull);
    GetAfter(m2, m, HeadKeys + LinkKeys, "source_status_id_str", JNull);
    GetAfter(m2, m, HeadKeys + LinkKeys, "source_user_id", JNull);
    GetAfter(m2, m, HeadKeys + LinkKeys, "source_user_id_str", JNull);
    assert m2["url"] == m["url"];
    TailFieldsOk(m2);
  }

  lemma TailFieldsOk(m: map<string, Json>)
    requires "url" in m && m["url"].JStr?
    requires SourceId(Get(m, "source_status_id", JNull), Get(m, "source_status_id_str", JNull)).Ok?
    requires SourceId(Get(m, "source_user_id", JNull), Get(m, "source_user_id_str", JNull)).Ok?
    ensures TailFields(m).Ok?
  {
    var m1 := m - {"source_status_id"};
    assert Get(m1, "source_status_id_str", JNull) == Get(m, "source_status_id_str", JNull);
    var m2 := m1 - {"source_status_id_str"};
    assert Get(m2, "source_user_id", JNull) == Get(m, "source_user_id", JNull);
    var m3 := m2 - {"source_user_id"};
    assert Get(m3, "source_user_id_str", JNull) == Get(m, "source_user_id_str", JNull);
    var m4 := m3 - {"source_user_id_str"};
    assert m4["url"] == m["url"];
  }

  /**
   * Once the shared checks pass, a medium is decided by `type` and the keys
   * outside the shared ones and `type`.
   */
  lemma MediumSplits(m: map<string, Json>)
    requires MediumBaseFields(m).Ok? && "type" in m
    ensures MediumFields(m) == KindFields(m["type"], MediumBaseFields(m).value.0, m - (BaseKeys + {"type"}))
  {
    MediumBaseKeys(m);
    var (base, rest) := MediumBaseFields(m).value;
    TypeNotShared();
    assert "type" in rest && rest["type"] == m["type"];
    RestWithout(rest, m, BaseKeys, "type");
    MediumAfterBase(m, base, rest);
  }

  lemma MediumAfterBase(m: map<string, Json>, base: MediumBase, rest: map<string, Json>)
    requires MediumBaseFields(m) == Ok((base, rest)) && "type" in rest
    ensures MediumFields(m) == KindFields(rest["type"], base, rest - {"type"})
  {
  }

  /** A photo record that passes the shared checks and has no other key decodes, as a photo. */
  lemma PhotoDecodes(m: map<string, Json>)
    requires BaseRules(m) && m.Keys <= BaseKeys + {"type"}
    requires "type" in m && m["type"] == JStr("photo")
    ensures MediumBaseFields(m).Ok?
    ensures MediumFields(m) == Ok(Photo(MediumBaseFields(m).value.0))
  {
    MediumBaseOk(m);
    MediumSplits(m);
    assert (m - (BaseKeys + {"type"})).Keys == {};
  }

  /**
   * An animated-gif record that passes the shared checks, whose `video_info` is
   * a dict that decodes, and that has no other key, decodes as an animated gif.
   */
  lemma GifDecodes(m: map<string, Json>)
    requires BaseRules(m) && m.Keys <= BaseKeys + {"type", "video_info"}
    requires "type" in m && m["type"] == JStr("animated_gif")
    requires "video_info" in m && m["video_info"].JObj? && GifInfoFields(m["video_info"].fields).Ok?
    ensures MediumFields(m).Ok? && MediumFields(m).value.AnimatedGif?
  {
    MediumBaseOk(m);
    MediumSplits(m);
    BlocksNotShared();
    var rest := m - (BaseKeys + {"type"});
    assert rest["video_info"] == m["video_info"];
    assert (rest - {"video_info"}).Keys == {};
  }

  /**
   * A video record that passes the shared checks, whose `video_info` and
   * `additional_media_info` are dicts that decode, and that has no other key,
   * decodes as a video.
   */
  lemma VideoDecodes(m: map<string, Json>)
    requires BaseRules(m) && m.Keys <= BaseKeys + {"type", "video_info", "additional_media_info"}
    requires "type" in m && m["type"] == JStr("video")
    requires "video_info" in m && m["video_info"].JObj? && VideoInfoFields(m["video_info"].fields).Ok?
    requires "additional_media_info" in m && m["additional_media_info"].JObj?
    requires AdditionalInfoFields(m["additional_media_info"].fields).Ok?
    ensures MediumFields(m).Ok? && MediumFields(m).value.Video?
  {
    MediumBaseOk(m);
    MediumSplits(m);
    BlocksNotShared();
    var rest := m - (BaseKeys + {"type"});
    assert rest["video_info"] == m["video_info"];
    assert rest["additional_media_info"] == m["additional_media_info"];
    assert (rest - {"video_info"} - {"additional_media_info"}).Keys == {};
    VideoKindOk(MediumBaseFields(m).value.0, rest);
  }

  lemma VideoKindOk(base: MediumBase, m: map<string, Json>)
    requires "video_info" in m && m["video_info"].JObj? && VideoInfoFields(m["video_info"].fields).Ok?
    requires "additional_media_info" in m && m["additional_media_info"].JObj?
    requires AdditionalInfoFields(m["additional_media_info"].fields).Ok?
    requires (m - {"video_info"} - {"additional_media_info"}).Keys == {}
    ensures KindFields(JStr("video"), base, m).Ok? && KindFields(JStr("video"), base, m).value.Video?
  {
    assert (m - {"video_info"})["additional_media_info"] == m["additional_media_info"];
  }

  /** The kinds' own blocks are not among the shared keys. */
  lemma BlocksNotShared()
    ensures "video_info" !in BaseKeys + {"type"} && "additional_media_info" !in BaseKeys + {"type"}
  {
  }

  /**
   * A decoded medium read exactly its own keys (the source-id pairs may be
   * missing), its kind is the one `type` names, and its blocks are the
   * record's `video_info` and `additional_media_info`.
   */
  lemma MediumFacts(m: map<string, Json>)
    requires MediumFields(m).Ok?
    ensures var md := MediumFields(m).value;
      && m.Keys <= AllowedKeys(md) && AllowedKeys(md) - SourceIdKeys <= m.Keys
      && "type" in m && m["type"] == JStr(TypeName(md))
      && MediumBaseFields(m).Ok? && MediumBaseFields(m).value.0 == md.base
      && (md.AnimatedGif? ==>
           && "video_info" in m && m["video_info"].JObj?
           && GifInfoFields(m["video_info"].fields) == Ok(GifInfo(md.aspectRatio, md.variants)))
      && (md.Video? ==>
           && "video_info" in m && m["video_info"].JObj?
           && VideoInfoFields(m["video_info"].fields) == Ok(VideoInfo(md.aspectRatio, md.variants, md.durationMillis))
           && "additional_media_info" in m && m["additional_media_info"].JObj?
           && AdditionalInfoFields(m["additional_media_info"].fields) == Ok(md.monetizable))
  {
    MediumBaseKeys(m);
    var (base, rest) := MediumBaseFields(m).value;
    KindAfterBase(m, rest, base);
  }

  lemma KindAfterBase(m: map<string, Json>, rest: map<string, Json>, base: MediumBase)
    requires BaseKeys - SourceIdKeys <= m.Keys && Rest(rest, m, BaseKeys)
    requires "type" in rest && KindFields(rest["type"], base, rest - {"type"}).Ok?
    ensures var md := KindFields(rest["type"], base, rest - {"type"}).value;
      && m.Keys <= AllowedKeys(md) && AllowedKeys(md) - SourceIdKeys <= m.Keys
      && "type" in m && m["type"] == JStr(TypeName(md))
      && (md.AnimatedGif? ==>
           && "video_info" in m && m["video_info"].JObj?
           && GifInfoFields(m["video_info"].fields) == Ok(GifInfo(md.aspectRatio, md.variants)))
      && (md.Video? ==>
           && "video_info" in m && m["video_info"].JObj?
           && VideoInfoFields(m["video_info"].fields) == Ok(VideoInfo(md.aspectRatio, md.variants, md.durationMillis))
           && "additional_media_info" in m && m["additional_media_info"].JObj?
           && AdditionalInfoFields(m["additional_media_info"].fields) == Ok(md.monetizable))
  {
    var md := KindFields(rest["type"], base, rest - {"type"}).value;
    forall k | k in KindKeys(md) ensures k in m && m[k] == rest[k] {
      assert k in (rest - {"type"}).Keys;
    }
  }

  /** A `type` other than the three kinds fails, whatever else the record holds. */
  lemma MediumOtherTypeFails(m: map<string, Json>)
    requires "type" in m && m["type"] != JStr("photo") && m["type"] != JStr("animated_gif") && m["type"] != JStr("video")
    ensures MediumFields(m).Fail?
  {
    if MediumBaseFields(m).Ok? {
      MediumBaseKeys(m);
      var (base, rest) := MediumBaseFields(m).value;
      OtherKindAfterBase(m, rest, base);
    }
  }

  lemma OtherKindAfterBase(m: map<string, Json>, rest: map<string, Json>, base: MediumBase)
    requires Rest(rest, m, BaseKeys)
    requires "type" in m && m["type"] != JStr("photo") && m["type"] != JStr("animated_gif") && m["type"] != JStr("video")
    ensures "type" in rest && KindFields(rest["type"], base, rest - {"type"}).Fail?
  {
    TypeNotShared();
  }

  /** `type` is not among the shared keys, so it is still there once they are popped. */
  lemma TypeNotShared()
    ensures "type" !in BaseKeys
  {
  }

  /** A decoded medium's span runs forwards. */
  lemma MediumSpanOrdered(j: Json)
    requires MediumOf(j).Ok?
    ensures MediumOf(j).value.base.indices.Ordered()
  {
    MediumFacts(j.fields);
    MediumBaseHead(j.fields);
  }

  lemma MediaSpansOrdered(j: Json)
    requires ListOf(j, MediumOf).Ok?
    ensures forall i :: 0 <= i < |ListOf(j, MediumOf).value| ==> ListOf(j, MediumOf).value[i].base.indices.Ordered()
  {
    forall x | MediumOf(x).Ok? ensures MediumOf(x).value.base.indices.Ordered() {
      MediumSpanOrdered(x);
    }
    ListOfKeeps(j, MediumOf, (md: Medium) => md.base.indices.Ordered());
  }
}
