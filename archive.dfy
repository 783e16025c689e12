/**
 * `Archive.get_tweets`: every post of the export decoded in order. Reading
 * the file, dropping its JavaScript prefix and parsing the JSON are not part
 * of this model; the parsed document is the input.
 */
module Archive {
  import opened Json
  import opened Lists
  import opened TweetDecoder

  /** `make_tweet` with the date parser fixed. */
  function PostDecoder(parse: string -> Option<Timestamp>): Json -> Result<Tweet> {
    j => TweetOf(j, parse)
  }

  /** `[make_tweet(t) for t in posts]`. */
  function TweetsOf(posts: Json, parse: string -> Option<Timestamp>): Result<seq<Tweet>> {
    ListOf(posts, PostDecoder(parse))
  }

  method GetTweets(posts: Json, parse: string -> Option<Timestamp>) returns (r: Result<seq<Tweet>>)
    ensures r == TweetsOf(posts, parse)
  {
    var xs :- Iterated(posts);
    var done: seq<Tweet> := [];
    var i := 0;
    while i < |xs|
      invariant 0 <= i <= |xs|
      invariant MapAll(xs[..i], PostDecoder(parse)) == Ok(done)
    {
      var post := MakeTweet(xs[i], parse);
      if post.Fail? {
        MapAllFails(xs, PostDecoder(parse), i);
        return Fail;
      }
      MapAllSnoc(xs, i, PostDecoder(parse), done, post.value);
      done := done + [post.value];
      i := i + 1;
    }
    assert xs[..i] == xs;
    r := Ok(done);
  }

  /**
   * A list of posts decodes to one post per element, in order, exactly when
   * every element decodes; a single bad post fails the whole export.
   */
  lemma TweetsOfList(xs: seq<Json>, parse: string -> Option<Timestamp>)
    ensures TweetsOf(JArr(xs), parse).Ok? <==> forall i :: 0 <= i < |xs| ==> TweetOf(xs[i], parse).Ok?
    ensures TweetsOf(JArr(xs), parse).Ok? ==>
      && |TweetsOf(JArr(xs), parse).value| == |xs|
      && forall i :: 0 <= i < |xs| ==> TweetOf(xs[i], parse) == Ok(TweetsOf(JArr(xs), parse).value[i])
  {
    var f := PostDecoder(parse);
    assert forall i :: 0 <= i < |xs| ==> f(xs[i]) == TweetOf(xs[i], parse);
  }
}
