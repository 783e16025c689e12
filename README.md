# caw archive decoder, modelled in Dafny

This project models the decoder that turns a Twitter data export into typed posts. The decoder lives in the `caw/archive/` package.

- **Input.** Each post of the export is a loosely typed JSON value: nulls, booleans, ints, strings, lists and dicts.
- **Output.** `make_tweet` either builds a `Tweet` or fails.
- **How each record is decoded.** The decoder drains the dict: it `pop`s every key it knows, checks that key's type and the rules that tie fields together, and at the end asserts that the dict is empty. A key it does not know is therefore a failure.
- **The layers.**
  - `make_int_range` decodes spans.
  - The media decoder is a three-way choice on `type`: `photo`, `animated_gif` or `video`.
  - The entities decoder handles hashtags, symbols, user mentions, links and media.
  - `make_tweet` decodes the post itself.
  - `get_tweets` decodes the whole export.

How the model is organised:

- `json.dfy` (`Json`) holds the JSON values and the Python built-ins the decoder applies to them:
  - truthiness;
  - `int()`, which accepts an int, a bool, or a string of an optional `-` followed by ASCII digits;
  - `str()` of an int;
  - `len` and indexing, which work on lists and on strings alike.

  Every failed `assert`, `KeyError`, `TypeError` and `ValueError` becomes the single `Fail` of `Result`.
- `records.dfy` (`Records`) has the class `Record`, a dict the decoder drains in place. Its methods `Pop` and `PopOr` shrink the key map and `IsEmpty` is `not d`. Beside them are the one-key readers and the functions that specify them.
- `lists.dfy` (`Lists`) models the list comprehensions `[f(x) for x in xs]` as `MapAll`.
- `int_range.dfy`, `media.dfy`, `entities.dfy`, `tweet.dfy` and `archive.dfy` follow the package's files.
  - Every decoder that drains a dict is a `method` over a `Record`. Each is proved equal to a pure specification function over the original key map: `r == XFields(old(d.fields))`, and on success `Drained(d.fields)`. Each specification function mirrors the source's sequence of `pop`s as a chain of smaller maps.
  - The comprehensions are methods with loops. Each list loop is proved equal to `Lists.ListOf` of its item decoder, which `Lists.MapAll` defines over the items. The loop over `sizes.items()` is proved equal to `MediaDecoder.SizesOf`.
  - Lemmas state, in terms of the record that came in, what each decoded value is and which keys a record may and must have.
- The long decoders (`_make_medium` and `make_tweet`) are specified in groups of consecutive pops. Examples are `HeadFields`, `LinkFields` and `TailFields` for media, and `TextFields`, `CountFields`, `NestedFields` and `ReplyFields` for posts.
  - Each group returns what it read together with the keys it left.
  - `Records.Rest` says that the keys left are exactly the input's keys minus the group's keys, with their values unchanged.
- The post specification takes the entity decoder as a parameter. The lemmas about a post's own fields therefore hold for any entity decoder. `TweetOf` and `MakeTweetRecord` use the real one, `EntitiesOf`.

## Model

| member | source | states |
|---|---|---|
| Json.DecimalRoundTrip | caw/archive/media.py:74-76 | `int(str(n)) == n` for every int `n`, for the string parser and for `int()` of a JSON string |
| Json.DecimalInjective | caw/archive/tweet.py:54-56 | two ints with the same decimal rendering are equal, so an `_str` partner determines its id |
| Json.DigitsRoundTrip | caw/archive/media.py:74-76 | reading back the digits `str()` writes for a natural number gives that number |
| Json.Chars | caw/archive/int_range.py:12-14 | a Python string indexes and iterates as its one-character strings, one per character |
| Json.Decimal | caw/archive/media.py:74-76 | `str(n)` is never empty, starts with `-` exactly when `n` is negative, is otherwise all ASCII digits, and has no leading zero (nor `-0`) |
| Json.IntExamples | caw/archive/int_range.py:13-14 | `int()` (`Json.IntOf`, through `Json.ParseInt` on strings) keeps an int, turns `True` and `False` into 1 and 0, reads `"007"`, `"-12"` and `"-0"`, and rejects `""`, `"-"`, `"1.5"`, `None` and a list |
| Json.FalsyValues | caw/archive/media.py:88 | `Json.Truthy`: the falsy values are exactly `None`, `False`, `0`, `""`, `[]` and `{}`; the string `"0"` is truthy |
| Json.Indexable | caw/archive/int_range.py:12-14 | `len` and `[0]`/`[1]` succeed exactly on lists and strings: a list indexes as its items and a string as its one-character strings; a dict fails, because its keys are strings and never the ints 0 and 1 |
| Records.Record.Pop | caw/archive/media.py:68 | `d.pop(k)` returns the value under `k`, or fails when `k` is missing, and the record loses exactly `k` |
| Records.Record.PopOr | caw/archive/media.py:86 | `d.pop(k, default)` returns the value or the default, and the record loses exactly `k` |
| Records.Record.IsEmpty | caw/archive/media.py:104 | `not d` holds exactly when no key is left |
| Records.DrainedAfter | caw/archive/entities.py:52 | after popping a set of keys, nothing is left exactly when the record had no other key |
| Records.CheckedIdAt | caw/archive/media.py:74-76 | the id pair succeeds exactly when `id` converts with `int()` and `id_str` is the decimal rendering of the result, and the result is that int |
| Records.PaddedIdRejected | caw/archive/media.py:74-76 | an `id_str` of `"007"` for the id 7 fails the `str(id)` check, and `"7"` passes |
| Records.PopCheckedId | caw/archive/entities.py:115-117 | popping `id` and `id_str` gives the checked id and, on success, removes both keys |
| Records.PopStr | caw/archive/entities.py:68-69 | pop then `isinstance(x, str)`: the string under the key, and the key is removed |
| Records.PopBool | caw/archive/tweet.py:35-36 | pop then `isinstance(x, bool)`: the boolean under the key, and the key is removed |
| Records.PopInt | caw/archive/tweet.py:58 | `int(d.pop(k))`: the converted value, and the key is removed |
| Records.RestDrained | caw/archive/tweet.py:96 | nothing is left once a set of keys has been popped exactly when the record had no key outside that set |
| Lists.MapAll | caw/archive/media.py:63-64 | a comprehension succeeds exactly when every element decodes; the result has one value per element, in order, each the element's decoding |
| Lists.MapAllFails | caw/archive/entities.py:63-64 | one element that fails makes the whole list fail |
| Lists.MapAllSnoc | caw/archive/media.py:63-64 | decoding one more element appends its value to the decoded prefix |
| Lists.MapAllOk | caw/archive/media.py:63-64 | a list whose every element decodes gives exactly those values, in order |
| Lists.Iterated | caw/archive/entities.py:124-125 | `for x in j` walks a list's items or a string's characters; an empty dict gives exactly the empty walk, and any other value fails |
| Lists.ListOfArray | caw/archive/entities.py:77-78 | a list decodes exactly when each of its items does, to one value per item, in order |
| Lists.ListOfKeeps | caw/archive/entities.py:124-125 | a property that every decoded item has is had by every element of a decoded list |
| Lists.ListOf | caw/archive/entities.py:124-125 | a comprehension over a JSON value succeeds exactly when the value can be walked and every item decodes, with one value per item |
| IntRangeDecoder.MakeIntRange | caw/archive/int_range.py:11-16 | success needs exactly two elements that `int()` converts; `begin` and `end` are those conversions, and `begin <= end` |
| IntRangeDecoder.MakeIntRangeComplete | caw/archive/int_range.py:12-16 | every convertible pair decodes to its own two values exactly when it is ordered, and otherwise fails |
| IntRangeDecoder.MakeIntRangeNeedsPair | caw/archive/int_range.py:12 | a list of any length other than two fails, whatever its elements |
| IntRangeDecoder.MakeIntRangeOfDecimals | caw/archive/int_range.py:13-14 | a pair of decimal strings decodes like the pair of the ints they render |
| IntRangeDecoder.MakeIntRangeOfTwoCharString | caw/archive/int_range.py:12-14 | the two-character string `"12"` decodes to the span 1..2, and `"21"` fails |
| MediaDecoder.UpperChar | caw/archive/media.py:193 | a lower-case ASCII letter becomes the capital in the same alphabet position, and every other character stays the same |
| MediaDecoder.Upper | caw/archive/media.py:193 | `upper()` keeps the length and upper-cases each character in place, as `UpperChar` does |
| MediaDecoder.ResizeNamed | caw/archive/media.py:193 | `Resize[s.upper()]` succeeds exactly when the upper-cased name is FIT, THUMB or CROP, and gives the member of that name |
| MediaDecoder.ResizeExamples | caw/archive/media.py:193 | `fit`, `Thumb` and `CROP` name FIT, THUMB and CROP in any letter case, and `fill` fails |
| MediaDecoder.SizeFields | caw/archive/media.py:189-196 | a size has exactly the keys `h`, `w` and `resize`, the first two convertible by `int()` and the third naming a resize mode; its values are those conversions |
| MediaDecoder.SizesOf | caw/archive/media.py:183-186 | a `sizes` dict decodes exactly when every entry decodes; the result has the same keys as the input, and each entry is that key's size |
| MediaDecoder.SizeOf | caw/archive/media.py:185 | only a dict decodes as a size |
| MediaDecoder.MakeSize | caw/archive/media.py:189-196 | draining a size record gives its specification over the record as it came in, and leaves it empty |
| MediaDecoder.DecodeSize | caw/archive/media.py:185 | a size entry decodes as `SizeOf`: a dict is handed to `_make_size` as a fresh record, and anything else fails |
| MediaDecoder.MakeSizes | caw/archive/media.py:183-186 | the loop over `sizes.items()` computes `SizesOf` |
| MediaDecoder.LooseIntOf | caw/archive/media.py:208-210 | a truthy value must convert by `int()` and is kept converted; a falsy one (missing, `None`, `0`, `""`) is kept as it is |
| MediaDecoder.VariantFields | caw/archive/media.py:207-220 | a variant has string `content_type` and `url`, an optional `bitrate` that is converted when truthy, and no other key |
| MediaDecoder.VariantOf | caw/archive/media.py:204 | only a dict decodes as a variant, so a string never does |
| MediaDecoder.VariantsOf | caw/archive/media.py:203-204 | a list of variants decodes exactly when each element does, and a non-empty string never does |
| MediaDecoder.MakeVariant | caw/archive/media.py:207-220 | draining a variant record gives its specification and leaves the record empty |
| MediaDecoder.DecodeVariant | caw/archive/media.py:204 | a variant record decodes as its specification says |
| MediaDecoder.MakeVariants | caw/archive/media.py:203-204 | the comprehension over variants decodes each in order, failing if any fails |
| MediaDecoder.AspectRatioOf | caw/archive/media.py:199-200 | elements 0 and 1 are converted by `int()`; at least two are needed, more are not rejected, and any list or string whose first two elements convert decodes |
| MediaDecoder.GifInfoFields | caw/archive/media.py:118-124 | an animated gif's `video_info` decodes exactly when it holds just `aspect_ratio` and `variants` and both decode; the values are those decodings |
| MediaDecoder.VideoInfoFields | caw/archive/media.py:142-150 | a video's `video_info` decodes exactly when it holds just `aspect_ratio`, `variants` and `duration_millis` and each decodes; the values are those decodings |
| MediaDecoder.AdditionalInfoFields | caw/archive/media.py:152-160 | `monetizable` is required and kept as its truthiness; `title` and `description` must be `""` and `embeddable` truthy when present; no other key |
| MediaDecoder.MakeGifInfo | caw/archive/media.py:118-124 | draining `video_info` of an animated gif matches its specification and leaves it empty |
| MediaDecoder.MakeVideoInfo | caw/archive/media.py:142-150 | draining `video_info` of a video matches its specification and leaves it empty |
| MediaDecoder.MakeAdditionalInfo | caw/archive/media.py:152-160 | draining `additional_media_info` matches its specification and leaves it empty |
| MediaDecoder.Drop | caw/archive/media.py:82 | `s[n:]` is what follows the first `n` characters, or `""` when the string is shorter |
| MediaDecoder.SourceId | caw/archive/media.py:86-96 | a truthy source id decodes exactly when `int()` converts it and its `_str` partner is the rendering of the result, and it is kept converted; a falsy or missing one is kept as it is, and its partner is not checked |
| MediaDecoder.HeadFields | caw/archive/media.py:68-78 | string `display_url` and `expanded_url`, the checked `id`, and `indices` as a span; exactly those keys are popped |
| MediaDecoder.LinkFields | caw/archive/media.py:80-84 | `media_url` and `media_url_https` agree past their 7- and 8-character prefixes; only the https one is kept; `sizes` is decoded |
| MediaDecoder.TailFields | caw/archive/media.py:86-99 | the two source ids go through `SourceId` with their partners, and `url` must be a string |
| MediaDecoder.KindFields | caw/archive/media.py:101-180 | `type` decides the kind; each kind takes exactly its own blocks from the keys left, and any other `type` fails |
| MediaDecoder.GifFields | caw/archive/media.py:117-139 | an animated gif needs a `video_info` dict and nothing else left |
| MediaDecoder.VideoFields | caw/archive/media.py:141-178 | a video needs `video_info` and `additional_media_info` dicts and nothing else left |
| MediaDecoder.MediumOf | caw/archive/media.py:67-68 | only a dict decodes as a medium, so a string never does |
| MediaDecoder.MediaOf | caw/archive/media.py:63-64 | the comprehension `ListOf` of `MediumOf`: one medium per element, in order; every medium of a decoded list has an ordered span |
| MediaDecoder.PopHead | caw/archive/media.py:68-78 | the first pops of `_make_medium` compute `HeadFields` and leave the keys it leaves |
| MediaDecoder.PopLinks | caw/archive/media.py:80-84 | the URL and sizes pops compute `LinkFields` and leave the keys it leaves |
| MediaDecoder.PopTail | caw/archive/media.py:86-99 | the source-id and `url` pops compute `TailFields` and leave the keys it leaves |
| MediaDecoder.PopMediumBase | caw/archive/media.py:67-99 | the shared pops compute the shared fields and leave the keys the specification leaves |
| MediaDecoder.MakeMedium | caw/archive/media.py:67-180 | draining a medium record gives its specification over the record as it came in, and leaves it empty |
| MediaDecoder.MakeKind | caw/archive/media.py:101-180 | the dispatch on `type` matches `KindFields` and leaves the record empty on success |
| MediaDecoder.MakeGif | caw/archive/media.py:117-139 | the animated-gif branch matches `GifFields` and leaves the record empty |
| MediaDecoder.MakeVideo | caw/archive/media.py:141-178 | the video branch matches `VideoFields` and leaves the record empty |
| MediaDecoder.DecodeMedium | caw/archive/media.py:64 | a medium record decodes as its specification says |
| MediaDecoder.MakeMedia | caw/archive/media.py:63-64 | `make_media` yields one medium per element, in order, and fails if any element fails |
| MediaDecoder.MediumBaseKeys | caw/archive/media.py:67-99 | the shared part requires every key it pops except the source-id pairs, and leaves every other key with its value |
| MediaDecoder.MediumBaseHead | caw/archive/media.py:68-78 | a decoded medium's URLs, `id` (matching `id_str`) and ordered `indices` are those of the record |
| MediaDecoder.MediumBaseLinks | caw/archive/media.py:80-84 | a decoded medium's `media_url_https` and `sizes` are those of the record, and its two media URLs agree |
| MediaDecoder.MediumBaseTail | caw/archive/media.py:86-99 | a decoded medium's source ids follow the record's ids and partners under the truthiness rule, and its `url` is the record's |
| MediaDecoder.MediumFacts | caw/archive/media.py:67-180 | a decoded medium's record has exactly the keys its kind allows (the source-id pairs optional); `type` names the kind; the shared fields and the gif or video blocks come from the record |
| MediaDecoder.MediumOtherTypeFails | caw/archive/media.py:180 | a `type` other than `photo`, `animated_gif` or `video` fails whatever else the record holds |
| MediaDecoder.MediumBaseDecodes | caw/archive/media.py:67-99 | `MediumBaseFields`, the shared pops, succeeds exactly when the record has the head and link keys and `url`, the URLs are strings, `id` matches `id_str`, `indices` is a span, the two media URLs agree (`MediaUrlsAgree`), `sizes` decodes, both source ids pass `SourceId`, and `url` is a string |
| MediaDecoder.MediumSplits | caw/archive/media.py:67-180 | `MediumFields`: once the shared part decodes, the medium is what `type` and the keys beyond the shared ones make of it |
| MediaDecoder.PhotoDecodes | caw/archive/media.py:101-115 | a record that passes the shared checks, has `type` `photo` and no other key decodes as a photo with the shared fields |
| MediaDecoder.GifDecodes | caw/archive/media.py:117-139 | a record that passes the shared checks, has `type` `animated_gif`, a `video_info` dict that decodes, and no other key decodes as an animated gif |
| MediaDecoder.VideoDecodes | caw/archive/media.py:141-178 | a record that passes the shared checks, has `type` `video`, `video_info` and `additional_media_info` dicts that decode, and no other key decodes as a video |
| MediaDecoder.MediumSpanOrdered | caw/archive/media.py:78 | a decoded medium's span is ordered |
| MediaDecoder.MediaSpansOrdered | caw/archive/media.py:63-78 | every medium of a decoded media list has an ordered span |
| EntitiesDecoder.HashtagFields | caw/archive/entities.py:128-136 | a hashtag has exactly a string `text` and `indices`, and its values are theirs; its span is ordered |
| EntitiesDecoder.HashtagOf | caw/archive/entities.py:124-125 | only a dict decodes as a hashtag, and its span is ordered |
| EntitiesDecoder.HashtagsOf | caw/archive/entities.py:124-125 | the comprehension `ListOf` of `HashtagOf`: one hashtag per element, in order; every hashtag of a decoded list has an ordered span |
| EntitiesDecoder.MakeHashtag | caw/archive/entities.py:128-136 | draining a hashtag record gives its specification and leaves it empty |
| EntitiesDecoder.DecodeHashtag | caw/archive/entities.py:125 | a hashtag record decodes as its specification says |
| EntitiesDecoder.MakeHashtags | caw/archive/entities.py:124-125 | the hashtag comprehension decodes each item in order, failing if any fails |
| EntitiesDecoder.SymbolFields | caw/archive/entities.py:67-74 | a symbol has exactly a string `text` and `indices`, and its values are theirs; its span is ordered |
| EntitiesDecoder.SymbolOf | caw/archive/entities.py:63-64 | only a dict decodes as a symbol, and its span is ordered |
| EntitiesDecoder.SymbolsOf | caw/archive/entities.py:63-64 | the comprehension `ListOf` of `SymbolOf`: one symbol per element, in order; every symbol of a decoded list has an ordered span |
| EntitiesDecoder.MakeSymbol | caw/archive/entities.py:67-74 | draining a symbol record gives its specification and leaves it empty |
| EntitiesDecoder.DecodeSymbol | caw/archive/entities.py:64 | a symbol record decodes as its specification says |
| EntitiesDecoder.MakeSymbols | caw/archive/entities.py:63-64 | the symbol comprehension decodes each item in order, failing if any fails |
| EntitiesDecoder.UrlFields | caw/archive/entities.py:81-96 | a link has exactly string `display_url`, `expanded_url` and `url`, plus `indices`, and its values are theirs |
| EntitiesDecoder.UrlOf | caw/archive/entities.py:77-78 | only a dict decodes as a link, and its span is ordered |
| EntitiesDecoder.UrlsOf | caw/archive/entities.py:77-78 | the comprehension `ListOf` of `UrlOf`: one link per element, in order; every link of a decoded list has an ordered span |
| EntitiesDecoder.MakeUrl | caw/archive/entities.py:81-96 | draining a link record gives its specification and leaves it empty |
| EntitiesDecoder.DecodeUrl | caw/archive/entities.py:78 | a link record decodes as its specification says |
| EntitiesDecoder.MakeUrls | caw/archive/entities.py:77-78 | the link comprehension decodes each item in order, failing if any fails |
| EntitiesDecoder.UserMentionFields | caw/archive/entities.py:106-121 | a mention has exactly string `name` and `screen_name`, `indices`, and an `id` whose rendering is `id_str` |
| EntitiesDecoder.UserMentionOf | caw/archive/entities.py:99-103 | only a dict decodes as a mention, and its span is ordered |
| EntitiesDecoder.UserMentionsOf | caw/archive/entities.py:99-103 | the comprehension `ListOf` of `UserMentionOf`: one mention per element, in order; every mention of a decoded list has an ordered span |
| EntitiesDecoder.MakeUserMention | caw/archive/entities.py:106-121 | draining a mention record gives its specification and leaves it empty |
| EntitiesDecoder.DecodeUserMention | caw/archive/entities.py:100-103 | a mention record decodes as its specification says |
| EntitiesDecoder.MakeUserMentions | caw/archive/entities.py:99-103 | the mention comprehension decodes each item in order, failing if any fails |
| EntitiesDecoder.EntitiesFacts | caw/archive/entities.py:45-60 | entities decode exactly when no key lies outside the five collections and each collection decodes, a missing one as the empty list; each field is its collection's decoding |
| EntitiesDecoder.EntitiesFields | caw/archive/entities.py:45-60 | every span in decoded entities, media included, has `begin <= end` |
| EntitiesDecoder.EntitiesOf | caw/archive/entities.py:45-60 | only a dict decodes as entities, and every span in them is ordered |
| EntitiesDecoder.MakeEntities | caw/archive/entities.py:45-60 | draining an entities record gives its specification and leaves it empty |
| EntitiesDecoder.DecodeEntities | caw/archive/entities.py:45 | an entities record decodes as its specification says |
| EntitiesDecoder.EmptyEntities | caw/archive/entities.py:46-50 | an empty record decodes to five empty collections |
| EntitiesDecoder.EntitiesExtraKeyFails | caw/archive/entities.py:52 | any key besides the five collections makes the record fail |
| TweetDecoder.LangOf | caw/archive/tweet.py:41-43 | `lang` must be a string of length 2 or exactly `und` |
| TweetDecoder.OptionalBool | caw/archive/tweet.py:51-52 | `None` (or a missing key) gives none, a boolean gives itself, and anything else fails |
| TweetDecoder.OptionalStr | caw/archive/tweet.py:93-94 | `None` (or a missing key) gives none, a string gives itself, and anything else fails |
| TweetDecoder.DateOf | caw/archive/tweet.py:60 | `created_at` must be a string that the date parser accepts, and the date is the parser's result |
| TweetDecoder.ReplyId | caw/archive/tweet.py:77-91 | a truthy reply id is converted and must match its `_str` partner; a falsy or missing one is kept, and then its partner must be missing or `None` |
| TweetDecoder.ExtendedOf | caw/archive/tweet.py:72-75 | `extended_entities` is decoded only when truthy; when missing or falsy it is none |
| TweetDecoder.TextFields | caw/archive/tweet.py:35-52 | the group decodes exactly when `retweeted` and `favorited` are booleans, `source` and `full_text` strings, `lang` passes its check, and `possibly_sensitive` is missing, `None` or a boolean; the values are the record's |
| TweetDecoder.CountFields | caw/archive/tweet.py:54-68 | the id agrees with `id_str`, the counts are converted by `int()`, `created_at` is parsed, `truncated` is a boolean and `display_text_range` is a span |
| TweetDecoder.NestedFields | caw/archive/tweet.py:70-75 | the group decodes exactly when `entities` is present and decodes and `extended_entities`, when truthy, decodes; the values are those decodings |
| TweetDecoder.ReplyFields | caw/archive/tweet.py:77-94 | both reply ids follow their rule with their partners, and the screen name is optional |
| TweetDecoder.CountFieldsDecode | caw/archive/tweet.py:54-68 | the count group decodes exactly when `id` converts and matches `id_str`, the counts convert, `created_at` parses, `truncated` is a boolean and `display_text_range` is a span |
| TweetDecoder.ReplyFieldsDecode | caw/archive/tweet.py:77-94 | the reply group decodes exactly when both reply ids pass their rule with their partners and the screen name is missing, `None` or a string |
| TweetDecoder.PopText | caw/archive/tweet.py:35-52 | the first pops of `make_tweet` compute `TextFields` and leave the keys it leaves |
| TweetDecoder.PopCounts | caw/archive/tweet.py:54-68 | the id, count, date and range pops compute `CountFields` and leave the keys it leaves |
| TweetDecoder.PopNested | caw/archive/tweet.py:70-75 | the entity pops compute `NestedFields` and leave the keys it leaves |
| TweetDecoder.PopReplies | caw/archive/tweet.py:77-94 | the reply pops compute `ReplyFields` and leave the keys it leaves |
| TweetDecoder.MakeTweetRecord | caw/archive/tweet.py:35-116 | draining the inner post record gives its specification over the record as it came in, and leaves it empty |
| TweetDecoder.MakeTweet | caw/archive/tweet.py:31-33 | `make_tweet` on the outer record gives `TweetOf` |
| TweetDecoder.TweetKeySet | caw/archive/tweet.py:35-96 | a decoded post's record holds every required key and no key outside the ones the decoder pops |
| TweetDecoder.TweetExtraKeyFails | caw/archive/tweet.py:96 | any key the decoder does not pop makes the post fail |
| TweetDecoder.TweetDecodes | caw/archive/tweet.py:35-96 | `TweetFields` succeeds exactly when the text, count, entity and reply rules all hold and no key lies outside the ones the decoder pops |
| TweetDecoder.TweetText | caw/archive/tweet.py:35-52 | a decoded post's flags, source, text, language and sensitivity are the record's, and the language passes its check |
| TweetDecoder.TweetCounts | caw/archive/tweet.py:54-68 | a decoded post's id matches `id_str`, and its counts, date and ordered text range are the record's |
| TweetDecoder.TweetNested | caw/archive/tweet.py:70-75 | a decoded post's entities are its record's `entities`, and its extended entities follow the truthiness rule |
| TweetDecoder.TweetReplies | caw/archive/tweet.py:77-94 | a decoded post's reply ids and screen name follow their rules on the record's values |
| TweetDecoder.ReplyKeysUnread | caw/archive/tweet.py:77-94 | no reply key is among the keys popped before them |
| TweetDecoder.NestedSpansOrdered | caw/archive/tweet.py:70-75 | the entity sets of a post have ordered spans whenever the entity decoder keeps them ordered |
| TweetDecoder.TweetSpansOrdered | caw/archive/tweet.py:70-75 | both entity sets of a decoded post have every span ordered when the entity decoder does, as it does |
| TweetDecoder.TweetOfSpansOrdered | caw/archive/tweet.py:31-75 | `TweetOf`: every span in the entities and extended entities of a decoded post is ordered |
| TweetDecoder.LanguageExamples | caw/archive/tweet.py:41-43 | `en` and `und` pass the language check; `eng` and `None` fail |
| TweetDecoder.TweetWrapper | caw/archive/tweet.py:32-33 | `TweetOf`: only a record whose only key is `tweet`, holding a record, is decoded |
| Archive.GetTweets | caw/archive/__init__.py:15-16 | decoding the export's posts one by one gives `TweetsOf` |
| Archive.TweetsOfList | caw/archive/__init__.py:15-16 | `TweetsOf`: a list of posts decodes exactly when every post does, to one post per element, in order |

## Left out

- File I/O, the 25-character JavaScript prefix that `_get_tweets` strips, and `json.loads` (`caw/archive/__init__.py:10-13`) are not modelled. The input is the parsed JSON value.
- `date_from_str` (`caw/archive/dates.py`) wraps `datetime.strptime`, which cannot be seen here. It is the parameter `parse: string -> Option<Timestamp>`, a partial function from strings to dates.
- `DateOf`: does not model the date format itself, because the parser is a parameter.
- Which exception is raised, and how far the input dict was drained when decoding fails. Every failure is the one `Fail`.
- Nested dicts are decoded from fresh `Record` objects built from their contents. That the source also drains the caller's nested dicts in place, through aliasing, is not modelled.
- `Json.IntOf`: Python's `int()` also accepts surrounding whitespace, a leading `+`, `_` between digits and non-ASCII digits. It also truncates floats. JSON floats are not part of the value type.
- `MediaDecoder.Upper`: upper-cases ASCII letters only, not the rest of Unicode.
- `MediaDecoder.LinkFields`: the `media_url` check is modelled for strings only. Two lists would also pass Python's slice-and-compare.
- `Lists.Iterated`: iterating a dict yields its keys, which are strings. Every item decoder rejects a string: the item functions ensure this, and for posts `TweetWrapper` states it. So a non-empty dict is modelled as an immediate failure.
- `MediaDecoder.AspectRatioOf`: on a dict, Python would look up the int keys 0 and 1, which a JSON dict never has. That case is modelled as a failure.
- The older single-file `caw/archive.py` is not part of this model: the package shadows it.
- The `twint` scraper and the RSS endpoint are not part of this model.
