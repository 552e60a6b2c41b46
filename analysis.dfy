/** The result page's data: `analyze` fetches from both providers, scores every text
    with the sentiment scorer and builds one result per post and one per tweet.

    The scorer is a parameter `score`; the session is the three optional stored
    credentials; the providers' answers are the inputs of the two fetch modules. */
module Analysis {
  import opened Common
  import opened Flashes
  import opened Sentiment
  import opened InstagramFetch
  import opened TwitterFetch

  const NoCaption: string := "No caption available"
  /** `analyze` calls `get_tweets` with the default number of attempts. */
  const SearchRetries: int := 5

  datatype ScoredComment = ScoredComment(text: string, sentiment: Scores)

  datatype InstagramItem = InstagramItem(mediaUrl: Option<string>, mediaType: Option<string>,
                                         caption: string, captionSentiment: Scores,
                                         comments: seq<ScoredComment>)

  datatype TwitterItem = TwitterItem(text: string, author: string, username: string,
                                     profileImage: string, createdAt: string,
                                     sentiment: Scores, sentimentLabel: string)

  /** The session keys `analyze` reads; a key may be absent. */
  datatype Session = Session(instagramUserId: Option<string>, instagramAccessToken: Option<string>,
                             twitterBearerToken: Option<string>)

  // ---------------------------------------------------------------------------
  // Instagram results

  /** The texts of the comments whose text is truthy, in comment order. */
  function CommentTexts(cs: seq<Comment>): (ts: seq<string>)
    ensures |ts| <= |cs|
    ensures forall k :: 0 <= k < |ts| ==> ts[k] != ""
    decreases |cs|
  {
    if cs == [] then []
    else (if Truthy(cs[0].text) then [cs[0].text.value] else []) + CommentTexts(cs[1..])
  }

  /** The comment list comprehension: one scored entry per truthy text, in order. */
  function ScoreComments(cs: seq<Comment>, score: string -> Scores): (r: seq<ScoredComment>)
    ensures |r| == |CommentTexts(cs)|
    ensures forall k :: 0 <= k < |r| ==>
      r[k].text == CommentTexts(cs)[k] && r[k].sentiment == score(r[k].text)
    decreases |cs|
  {
    if cs == [] then []
    else
      var first := if Truthy(cs[0].text) then [ScoredComment(cs[0].text.value, score(cs[0].text.value))] else [];
      first + ScoreComments(cs[1..], score)
  }

  /** The caption shown for a post: its own when the key is present (even if it is
      the empty string), the placeholder when it is absent. */
  function CaptionOf(p: Post): (c: string)
    ensures p.caption.Some? ==> c == p.caption.value
    ensures p.caption.None? ==> c == NoCaption
  {
    p.caption.GetOr(NoCaption)
  }

  /** One post's result. */
  function ShapePost(p: Post, score: string -> Scores): (item: InstagramItem)
    ensures item.mediaUrl == p.mediaUrl && item.mediaType == p.mediaType
    ensures item.caption == CaptionOf(p) && item.captionSentiment == score(CaptionOf(p))
    ensures p.comments.None? ==> item.comments == []
    ensures p.comments.Some? ==> item.comments == ScoreComments(p.comments.value, score)
  {
    var comments := if p.comments.Some? then ScoreComments(p.comments.value, score) else [];
    InstagramItem(p.mediaUrl, p.mediaType, CaptionOf(p), score(CaptionOf(p)), comments)
  }

  /** The posts `analyze` shows: the fetched media list, if the fetch gave one. */
  function ShownPosts(data: Option<MediaData>): seq<Post> {
    if data.Some? && data.value.data.Some? then data.value.data.value else []
  }

  /** The loop appending one result per shown post. */
  method InstagramResults(data: Option<MediaData>, score: string -> Scores)
    returns (results: seq<InstagramItem>)
    ensures |results| == |ShownPosts(data)|
    ensures forall k :: 0 <= k < |results| ==> results[k] == ShapePost(ShownPosts(data)[k], score)
  {
    results := [];
    if data.Some? && data.value.data.Some? {
      var posts := data.value.data.value;
      for k := 0 to |posts|
        invariant |results| == k
        invariant forall j :: 0 <= j < k ==> results[j] == ShapePost(posts[j], score)
      {
        var post := posts[k];
        var caption := post.caption.GetOr(NoCaption);
        var comments := [];
        if post.comments.Some? {
          comments := ScoreComments(post.comments.value, score);
        }
        results := results + [InstagramItem(post.mediaUrl, post.mediaType, caption, score(caption), comments)];
      }
    }
  }

  // ---------------------------------------------------------------------------
  // Twitter results

  /** `next(u for u in users if u["id"] == author_id)`: the first user with that id. */
  function FindUser(users: seq<User>, id: string): (u: Option<User>)
    ensures u.Some? <==> exists k :: 0 <= k < |users| && users[k].id == id
    ensures u.Some? ==> exists k :: 0 <= k < |users| && users[k] == u.value && users[k].id == id
                                   && forall j :: 0 <= j < k ==> users[j].id != id
    decreases |users|
  {
    if users == [] then None
    else if users[0].id == id then Some(users[0])
    else
      var r := FindUser(users[1..], id);
      assert forall k :: 1 <= k < |users| ==> users[k] == users[1..][k - 1];
      r
  }

  /** One tweet's result, joined with its author's profile. */
  function ShapeTweet(t: Tweet, users: seq<User>, score: string -> Scores): (item: TwitterItem)
    ensures item.text == t.text && item.sentiment == score(t.text)
    ensures item.sentimentLabel == LabelText(LabelOf(score(t.text).compound))
    ensures item.createdAt == t.createdAt.GetOr("")
    ensures (forall k :: 0 <= k < |users| ==> users[k].id != t.authorId) ==>
              item.author == "Unknown" && item.username == "" && item.profileImage == ""
  {
    var user := FindUser(users, t.authorId);
    var sentiment := score(t.text);
    TwitterItem(t.text,
                if user.Some? then user.value.name.GetOr("Unknown") else "Unknown",
                if user.Some? then user.value.username.GetOr("") else "",
                if user.Some? then user.value.profileImageUrl.GetOr("") else "",
                t.createdAt.GetOr(""),
                sentiment,
                LabelText(LabelOf(sentiment.compound)))
  }

  /** The tweets `analyze` shows: the `data` list of a truthy body without `error`. */
  function ShownTweets(r: TweetsResult): seq<Tweet> {
    if r.Body? && r.body.Truthy() && r.body.error.None? && r.body.data.Some? then r.body.data.value else []
  }

  /** The author profiles of a search result, empty unless it is a body. */
  function UsersOf(r: TweetsResult): seq<User> {
    if r.Body? then r.body.Users() else []
  }

  /** The flash `analyze` shows for the search result: the error it carries, or the
      "no tweets" note for a truthy body without `data`. At most one flash is shown,
      never beside shown tweets, and it is an error exactly when the fetch failed or
      the body carries an `error` key. */
  function TwitterFlashes(r: TweetsResult): (fs: seq<Flash>)
    ensures |fs| <= 1
    ensures ShownTweets(r) != [] ==> fs == []
    ensures (exists m :: TwitterApiError(m) in fs) <==> r.Failed? || (r.Body? && r.body.error.Some?)
    ensures r.Failed? ==> fs == [TwitterApiError(r.error)]
    ensures r.Body? && r.body.error.Some? ==> fs == [TwitterApiError(r.body.error.value)]
    ensures fs == [] <==> !(r.Failed? || (r.Body? && r.body.Truthy() && (r.body.error.Some? || r.body.data.None?)))
    ensures fs == [NoTweetsFound] <==>
      r.Body? && r.body.Truthy() && r.body.error.None? && r.body.data.None?
  {
    match r
    case NoToken => []
    case Failed(message) => [TwitterApiError(message)]
    case Body(b) =>
      if !b.Truthy() then []
      else if b.error.Some? then [TwitterApiError(b.error.value)]
      else if b.data.Some? then []
      else [NoTweetsFound]
  }

  /** The loop appending one result per tweet of the body's `data` list. */
  method TweetRows(tweets: seq<Tweet>, users: seq<User>, score: string -> Scores)
    returns (results: seq<TwitterItem>)
    ensures |results| == |tweets|
    ensures forall k :: 0 <= k < |results| ==> results[k] == ShapeTweet(tweets[k], users, score)
  {
    results := [];
    for k := 0 to |tweets|
      invariant |results| == k
      invariant forall j :: 0 <= j < k ==> results[j] == ShapeTweet(tweets[j], users, score)
    {
      var tweet := tweets[k];
      var user := FindUser(users, tweet.authorId);
      var sentiment := score(tweet.text);
      var sentimentLabel := "Neutral";
      if sentiment.compound > 0.05 {
        sentimentLabel := LabelText(Positive);
      } else if sentiment.compound < -0.05 {
        sentimentLabel := LabelText(Negative);
      }
      results := results + [TwitterItem(
        tweet.text,
        if user.Some? then user.value.name.GetOr("Unknown") else "Unknown",
        if user.Some? then user.value.username.GetOr("") else "",
        if user.Some? then user.value.profileImageUrl.GetOr("") else "",
        tweet.createdAt.GetOr(""),
        sentiment,
        sentimentLabel)];
    }
  }

  /** The search half of `analyze`: the flash for the search result, or the rows of
      its tweets. */
  method TwitterResults(r: TweetsResult, score: string -> Scores)
    returns (results: seq<TwitterItem>, flashes: seq<Flash>)
    ensures flashes == TwitterFlashes(r)
    ensures |results| == |ShownTweets(r)|
    ensures forall k :: 0 <= k < |results| ==> results[k] == ShapeTweet(ShownTweets(r)[k], UsersOf(r), score)
  {
    results, flashes := [], [];
    match r {
      case NoToken =>
      case Failed(message) =>
        flashes := [TwitterApiError(message)];
      case Body(b) =>
        if b.Truthy() {
          if b.error.Some? {
            flashes := [TwitterApiError(b.error.value)];
          } else if b.data.Some? {
            results := TweetRows(b.data.value, b.Users(), score);
          } else {
            flashes := [NoTweetsFound];
          }
        }
    }
  }

  // ---------------------------------------------------------------------------
  // The whole request

  /** What the Instagram fetch gives for this session: nothing at all, and no flash,
      unless both Instagram keys are in the session. */
  function InstagramFetched(session: Session, media: MediaResponse,
                            respond: string -> CommentsResponse): Fetched
  {
    if session.instagramUserId.Some? && session.instagramAccessToken.Some? then
      InstagramPosts(session.instagramUserId.value, session.instagramAccessToken.value, media, respond)
    else Fetched(None, [], [])
  }

  /** What the search fetch gives for this session: the same as no token when the
      token key is absent. */
  function TweetsFetched(session: Session, search: seq<Attempt>): Trace
    requires SearchRetries <= |search|
  {
    if session.twitterBearerToken.Some? then Tweets(session.twitterBearerToken.value, search, SearchRetries)
    else Trace(NoToken, [], 0)
  }

  /** `analyze()`: both providers' results and every flash, Instagram's first. */
  method Analyze(session: Session, media: MediaResponse, respond: string -> CommentsResponse,
                 search: seq<Attempt>, score: string -> Scores)
    returns (instagramResults: seq<InstagramItem>, twitterResults: seq<TwitterItem>, flashes: seq<Flash>)
    requires SearchRetries <= |search|
    ensures var posts := ShownPosts(InstagramFetched(session, media, respond).result);
      |instagramResults| == |posts| &&
      forall k :: 0 <= k < |posts| ==> instagramResults[k] == ShapePost(posts[k], score)
    ensures var r := TweetsFetched(session, search).result; var tweets := ShownTweets(r);
      |twitterResults| == |tweets| &&
      forall k :: 0 <= k < |tweets| ==> twitterResults[k] == ShapeTweet(tweets[k], UsersOf(r), score)
    ensures flashes == InstagramFetched(session, media, respond).flashes
                       + TwitterFlashes(TweetsFetched(session, search).result)
  {
    var data: Option<MediaData> := None;
    var instagramFlashes: seq<Flash> := [];
    if session.instagramUserId.Some? && session.instagramAccessToken.Some? {
      var requested;
      data, instagramFlashes, requested :=
        GetInstagramPosts(session.instagramUserId.value, session.instagramAccessToken.value, media, respond);
    }
    instagramResults := InstagramResults(data, score);

    var tweets: TweetsResult := NoToken;
    if session.twitterBearerToken.Some? {
      var waits, requests;
      tweets, waits, requests := GetTweets(session.twitterBearerToken.value, search, SearchRetries);
    }
    var twitterFlashes;
    twitterResults, twitterFlashes := TwitterResults(tweets, score);
    flashes := instagramFlashes + twitterFlashes;
  }

  // ---------------------------------------------------------------------------
  // Properties

  function OwnText(c: Comment): seq<string> {
    if Truthy(c.text) then [c.text.value] else []
  }

  lemma {:induction false} CommentTextsAppend(a: seq<Comment>, b: seq<Comment>)
    ensures CommentTexts(a + b) == CommentTexts(a) + CommentTexts(b)
    decreases |a|
  {
    if a == [] {
      assert a + b == b;
    } else {
      assert (a + b)[1..] == a[1..] + b;
      CommentTextsAppend(a[1..], b);
    }
  }

  lemma CommentTextsSingle(c: Comment)
    ensures CommentTexts([c]) == OwnText(c)
  {
    assert [c][1..] == [];
  }

  /** The comment filter keeps order and looks at each comment alone: the texts of a
      list are those before a comment, then that comment's own text if it is truthy,
      then those after it. */
  lemma CommentInContext(before: seq<Comment>, c: Comment, after: seq<Comment>)
    ensures CommentTexts(before + [c] + after) == CommentTexts(before) + OwnText(c) + CommentTexts(after)
  {
    CommentTextsAppend(before + [c], after);
    CommentTextsAppend(before, [c]);
    CommentTextsSingle(c);
  }

  /** The author of a tweet's result is the first profile with the tweet's author id:
      its name (or "Unknown"), username and image (or empty strings). */
  lemma AuthorJoin(t: Tweet, users: seq<User>, score: string -> Scores, k: nat)
    requires k < |users| && users[k].id == t.authorId
    requires forall j :: 0 <= j < k ==> users[j].id != t.authorId
    ensures var item := ShapeTweet(t, users, score);
      && item.author == users[k].name.GetOr("Unknown")
      && item.username == users[k].username.GetOr("")
      && item.profileImage == users[k].profileImageUrl.GetOr("")
  {
    var u := FindUser(users, t.authorId);
    var m :| 0 <= m < |users| && users[m] == u.value && users[m].id == t.authorId
             && forall j :: 0 <= j < m ==> users[j].id != t.authorId;
  }

  /** Without the two Instagram keys in the session there are no Instagram results
      and no Instagram flash; without the token key there are no tweet results and
      no search flash, and no search request is made. */
  lemma AbsentCredentials(session: Session, media: MediaResponse, respond: string -> CommentsResponse,
                          search: seq<Attempt>)
    requires SearchRetries <= |search|
    ensures session.instagramUserId.None? || session.instagramAccessToken.None? ==>
      var f := InstagramFetched(session, media, respond);
      ShownPosts(f.result) == [] && f.flashes == [] && f.commentRequests == []
    ensures session.twitterBearerToken.None? ==>
      var t := TweetsFetched(session, search);
      ShownTweets(t.result) == [] && TwitterFlashes(t.result) == [] && t.requests == 0
  {
  }

  /** A stored but empty token behaves as an absent one: no request and no flash. */
  lemma EmptyToken(session: Session, search: seq<Attempt>)
    requires SearchRetries <= |search| && session.twitterBearerToken == Some("")
    ensures var t := TweetsFetched(session, search);
      t.requests == 0 && ShownTweets(t.result) == [] && TwitterFlashes(t.result) == []
  {
  }

  /** A rejected token on the first attempt: one request, no tweets, and one error
      flash carrying the credentials message. */
  lemma RejectedToken(session: Session, search: seq<Attempt>)
    requires SearchRetries <= |search|
    requires session.twitterBearerToken.Some? && session.twitterBearerToken.value != ""
    requires search[0].outcome.Response? && search[0].outcome.status == 401
    ensures var t := TweetsFetched(session, search);
      && t.requests == 1
      && ShownTweets(t.result) == []
      && TwitterFlashes(t.result) == [TwitterApiError(AuthErrorMessage)]
  {
    EndsAt(search, SearchRetries, 0);
  }

  /** A media call answered with a non-200 status does not affect the search:
      Instagram yields no result and one error flash, while a search answered 200 at
      once yields every tweet of its body, in order, and no flash. */
  lemma MediaFailureIsolated(session: Session, media: MediaResponse, respond: string -> CommentsResponse,
                             search: seq<Attempt>, tweets: seq<Tweet>)
    requires SearchRetries <= |search|
    requires session.instagramUserId.Some? && session.instagramUserId.value != ""
    requires session.instagramAccessToken.Some? && session.instagramAccessToken.value != ""
    requires media.status != 200
    requires session.twitterBearerToken.Some? && session.twitterBearerToken.value != ""
    requires search[0].outcome.Response? && search[0].outcome.status == 200
    requires search[0].outcome.body.error.None? && search[0].outcome.body.data == Some(tweets)
    ensures var f := InstagramFetched(session, media, respond);
      ShownPosts(f.result) == [] && f.flashes == [InstagramMediaFailed]
    ensures var t := TweetsFetched(session, search);
      ShownTweets(t.result) == tweets && TwitterFlashes(t.result) == [] && t.requests == 1
  {
    EndsAt(search, SearchRetries, 0);
  }
}
