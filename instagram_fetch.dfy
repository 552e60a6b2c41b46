/** The two-level Instagram fetch: one call for the user's media list, then one call
    per post that reports comments, whose answer is attached to that post as its
    `comments` field.

    The HTTP calls are replaced by inputs: the media call's response, and a function
    giving the answer of the comments call for each post id. The flashes the fetch
    shows are returned as a list, in order. */
module InstagramFetch {
  import opened Common
  import opened Flashes

  datatype Comment = Comment(id: Option<string>, text: Option<string>,
                             timestamp: Option<string>, username: Option<string>)

  /** A post of the media list, by the keys the app reads or writes. */
  datatype Post = Post(id: Option<string>, caption: Option<string>, mediaUrl: Option<string>,
                       mediaType: Option<string>, commentsCount: Option<int>,
                       comments: Option<seq<Comment>>)

  /** The media call's JSON object: its `data` list, if it has one. */
  datatype MediaData = MediaData(data: Option<seq<Post>>)

  datatype MediaResponse = MediaResponse(status: int, body: MediaData)

  /** A comments call's answer: its status and, for a 200, the `data` list if present. */
  datatype CommentsResponse = CommentsResponse(status: int, data: Option<seq<Comment>>)

  /** What the fetch returns (`None` or the media object), the flashes it shows, and
      the post ids whose comments it requested, in request order. */
  datatype Fetched = Fetched(result: Option<MediaData>, flashes: seq<Flash>,
                             commentRequests: seq<string>)

  /** A post's comments are requested when its id is truthy and its comment count,
      0 when absent, is positive. */
  predicate Qualifies(p: Post) {
    Truthy(p.id) && p.commentsCount.GetOr(0) > 0
  }

  /** The comments a post receives from its comments call's answer. */
  function ReceivedComments(r: CommentsResponse): (cs: seq<Comment>)
    ensures r.status != 200 ==> cs == []
    ensures r.status == 200 && r.data.Some? ==> cs == r.data.value
    ensures r.status == 200 && r.data.None? ==> cs == []
  {
    if r.status == 200 then r.data.GetOr([]) else []
  }

  /** The flash one comments call leads to: none for a 200 with comments, a
      permission warning for a 200 without, a status warning otherwise. */
  function CallFlashes(id: string, r: CommentsResponse): (fs: seq<Flash>)
    ensures |fs| <= 1
    ensures fs == [] <==> r.status == 200 && ReceivedComments(r) != []
    ensures r.status == 200 && ReceivedComments(r) == [] ==> fs == [CommentsMissing(id)]
    ensures r.status != 200 ==> fs == [CommentsFailed(id, r.status)]
  {
    if r.status == 200 then
      if ReceivedComments(r) == [] then [CommentsMissing(id)] else []
    else [CommentsFailed(id, r.status)]
  }

  /** A post after the fetch: qualifying posts carry the comments their call
      returned, every other post is left as it was. */
  function Attach(p: Post, respond: string -> CommentsResponse): (q: Post)
    ensures q.(comments := p.comments) == p
    ensures !Qualifies(p) ==> q == p
    ensures Qualifies(p) ==> q.comments == Some(ReceivedComments(respond(p.id.value)))
  {
    if Qualifies(p) then p.(comments := Some(ReceivedComments(respond(p.id.value)))) else p
  }

  function PostFlashes(p: Post, respond: string -> CommentsResponse): seq<Flash> {
    if Qualifies(p) then CallFlashes(p.id.value, respond(p.id.value)) else []
  }

  /** The flashes of a list of posts: each post's, in post order. */
  function AllFlashes(ps: seq<Post>, respond: string -> CommentsResponse): seq<Flash>
    decreases |ps|
  {
    if ps == [] then [] else PostFlashes(ps[0], respond) + AllFlashes(ps[1..], respond)
  }

  /** The post id a comments call is issued for, if any. */
  function PostRequests(p: Post): seq<string> {
    if Qualifies(p) then [p.id.value] else []
  }

  /** The ids of the qualifying posts, in post order. */
  function CommentRequests(ps: seq<Post>): seq<string>
    decreases |ps|
  {
    if ps == [] then [] else PostRequests(ps[0]) + CommentRequests(ps[1..])
  }

  function AttachAll(ps: seq<Post>, respond: string -> CommentsResponse): (qs: seq<Post>)
    ensures |qs| == |ps|
    ensures forall k :: 0 <= k < |ps| ==> qs[k] == Attach(ps[k], respond)
  {
    seq(|ps|, k requires 0 <= k < |ps| => Attach(ps[k], respond))
  }

  /** `get_instagram_posts(user_id, access_token)`. It gives `None` exactly when a
      credential is empty or the media call does not answer 200, and then shows one
      flash and requests no comments; otherwise every flash it shows belongs to a
      comments call it issued. */
  function InstagramPosts(userId: string, accessToken: string, media: MediaResponse,
                          respond: string -> CommentsResponse): (f: Fetched)
    ensures f.result.None? <==> userId == "" || accessToken == "" || media.status != 200
    ensures f.result.None? ==> |f.flashes| == 1 && f.commentRequests == []
    ensures userId == "" || accessToken == "" ==> f.flashes == [InstagramCredentialsMissing]
    ensures userId != "" && accessToken != "" && media.status != 200 ==> f.flashes == [InstagramMediaFailed]
    ensures f.result.Some? ==> |f.flashes| <= |f.commentRequests|
  {
    if userId == "" || accessToken == "" then Fetched(None, [InstagramCredentialsMissing], [])
    else if media.status != 200 then Fetched(None, [InstagramMediaFailed], [])
    else match media.body.data
      case None => Fetched(Some(media.body), [], [])
      case Some(ps) =>
        FlashesFollowRequests(ps, respond);
        Fetched(Some(MediaData(Some(AttachAll(ps, respond)))), AllFlashes(ps, respond), CommentRequests(ps))
  }

  /** The fetch itself: a loop over the media list that updates each qualifying post. */
  method GetInstagramPosts(userId: string, accessToken: string, media: MediaResponse,
                           respond: string -> CommentsResponse)
    returns (result: Option<MediaData>, flashes: seq<Flash>, commentRequests: seq<string>)
    ensures Fetched(result, flashes, commentRequests) == InstagramPosts(userId, accessToken, media, respond)
  {
    if userId == "" || accessToken == "" {
      return None, [InstagramCredentialsMissing], [];
    }
    if media.status != 200 {
      return None, [InstagramMediaFailed], [];
    }
    flashes, commentRequests := [], [];
    if media.body.data.None? {
      return Some(media.body), flashes, commentRequests;
    }
    var original := media.body.data.value;
    var posts := original;
    for k := 0 to |posts|
      invariant |posts| == |original|
      invariant forall j :: 0 <= j < k ==> posts[j] == Attach(original[j], respond)
      invariant forall j :: k <= j < |posts| ==> posts[j] == original[j]
      invariant flashes == AllFlashes(original[..k], respond)
      invariant commentRequests == CommentRequests(original[..k])
    {
      assert original[..k + 1] == original[..k] + [original[k]];
      AllFlashesSnoc(original[..k], original[k], respond);
      CommentRequestsSnoc(original[..k], original[k]);
      var post := posts[k];
      if Truthy(post.id) && post.commentsCount.GetOr(0) > 0 {
        var id := post.id.value;
        commentRequests := commentRequests + [id];
        var response := respond(id);
        if response.status == 200 {
          var comments := response.data.GetOr([]);
          posts := posts[k := post.(comments := Some(comments))];
          if comments == [] {
            flashes := flashes + [CommentsMissing(id)];
          }
        } else {
          posts := posts[k := post.(comments := Some([]))];
          flashes := flashes + [CommentsFailed(id, response.status)];
        }
      }
    }
    assert original[..|original|] == original;
    assert posts == AttachAll(original, respond);
    result := Some(MediaData(Some(posts)));
  }

  /** When the fetch gives `None` it shows one error flash, whose text names the
      cause: the missing credentials, or the failed media call. */
  lemma NoneIff(userId: string, accessToken: string, media: MediaResponse,
                respond: string -> CommentsResponse)
    ensures var f := InstagramPosts(userId, accessToken, media, respond);
      && (f.result.None? <==> userId == "" || accessToken == "" || media.status != 200)
      && (f.result.None? ==> |f.flashes| == 1 && f.flashes[0].Category() == Error)
      && (userId == "" || accessToken == "" ==>
            f.flashes[0].Text() == "Instagram credentials not provided")
      && (userId != "" && accessToken != "" && media.status != 200 ==>
            f.flashes[0].Text() == "Error fetching Instagram posts")
  {
  }

  /** On success the media object comes back with its post list in the original
      order, each post changed at most in its `comments` field. */
  lemma PostsKeepOrder(userId: string, accessToken: string, media: MediaResponse,
                       respond: string -> CommentsResponse)
    requires userId != "" && accessToken != "" && media.status == 200
    ensures var f := InstagramPosts(userId, accessToken, media, respond);
      && f.result.Some?
      && (f.result.value.data.None? <==> media.body.data.None?)
      && (media.body.data.Some? ==>
            var ps := media.body.data.value; var qs := f.result.value.data.value;
            |qs| == |ps| && forall k :: 0 <= k < |ps| ==> qs[k].(comments := ps[k].comments) == ps[k])
  {
  }

  lemma {:induction false} AllFlashesAppend(a: seq<Post>, b: seq<Post>, respond: string -> CommentsResponse)
    ensures AllFlashes(a + b, respond) == AllFlashes(a, respond) + AllFlashes(b, respond)
    decreases |a|
  {
    if a == [] {
      assert a + b == b;
    } else {
      assert (a + b)[1..] == a[1..] + b;
      AllFlashesAppend(a[1..], b, respond);
    }
  }

  lemma AllFlashesSnoc(ps: seq<Post>, p: Post, respond: string -> CommentsResponse)
    ensures AllFlashes(ps + [p], respond) == AllFlashes(ps, respond) + PostFlashes(p, respond)
  {
    AllFlashesAppend(ps, [p], respond);
    assert [p][1..] == [];
  }

  lemma {:induction false} CommentRequestsAppend(a: seq<Post>, b: seq<Post>)
    ensures CommentRequests(a + b) == CommentRequests(a) + CommentRequests(b)
    decreases |a|
  {
    if a == [] {
      assert a + b == b;
    } else {
      assert (a + b)[1..] == a[1..] + b;
      CommentRequestsAppend(a[1..], b);
    }
  }

  lemma CommentRequestsSnoc(ps: seq<Post>, p: Post)
    ensures CommentRequests(ps + [p]) == CommentRequests(ps) + PostRequests(p)
  {
    CommentRequestsAppend(ps, [p]);
    assert [p][1..] == [];
  }

  /** Whatever status the siblings' comments calls answer, a post contributes its
      own flashes and its own comments call in its place: the flashes of a list are
      those of the posts before a post, then its own, then those of the posts after
      it, and the same holds of the comments calls issued. */
  lemma PostInContext(before: seq<Post>, p: Post, after: seq<Post>, respond: string -> CommentsResponse)
    ensures AllFlashes(before + [p] + after, respond)
            == AllFlashes(before, respond) + PostFlashes(p, respond) + AllFlashes(after, respond)
    ensures CommentRequests(before + [p] + after)
            == CommentRequests(before) + PostRequests(p) + CommentRequests(after)
  {
    AllFlashesAppend(before + [p], after, respond);
    AllFlashesSnoc(before, p, respond);
    CommentRequestsAppend(before + [p], after);
    CommentRequestsSnoc(before, p);
  }

  /** A comments call is issued for an id exactly when some qualifying post has it. */
  lemma {:induction false} RequestedIff(ps: seq<Post>, id: string)
    ensures id in CommentRequests(ps) <==> exists k :: 0 <= k < |ps| && Qualifies(ps[k]) && ps[k].id.value == id
    decreases |ps|
  {
    if ps != [] {
      var tail := ps[1..];
      RequestedIff(tail, id);
      if exists k :: 0 <= k < |tail| && Qualifies(tail[k]) && tail[k].id.value == id {
        var k :| 0 <= k < |tail| && Qualifies(tail[k]) && tail[k].id.value == id;
        assert ps[k + 1] == tail[k];
      }
      if exists k :: 0 <= k < |ps| && Qualifies(ps[k]) && ps[k].id.value == id {
        var k :| 0 <= k < |ps| && Qualifies(ps[k]) && ps[k].id.value == id;
        if k > 0 {
          assert tail[k - 1] == ps[k];
        }
      }
    }
  }

  /** Every flash of the comments stage belongs to a comments call that was issued,
      and each call leads to at most one flash. */
  lemma {:induction false} FlashesFollowRequests(ps: seq<Post>, respond: string -> CommentsResponse)
    ensures |AllFlashes(ps, respond)| <= |CommentRequests(ps)|
    ensures forall f :: f in AllFlashes(ps, respond) ==>
      (f.CommentsMissing? || f.CommentsFailed?) && f.postId in CommentRequests(ps)
    decreases |ps|
  {
    if ps != [] {
      FlashesFollowRequests(ps[1..], respond);
    }
  }

  /** A post that reports two comments and whose comments call fails with 500 ends
      with no comments and one status warning between its siblings' flashes, while
      every other post is attached as if it stood alone. */
  lemma ServerErrorOnOnePost(before: seq<Post>, p: Post, after: seq<Post>, respond: string -> CommentsResponse)
    requires Truthy(p.id) && p.commentsCount == Some(2)
    requires respond(p.id.value).status == 500
    ensures var ps := before + [p] + after;
      && AttachAll(ps, respond)[|before|].comments == Some([])
      && (forall j :: 0 <= j < |ps| && j != |before| ==> AttachAll(ps, respond)[j] == Attach(ps[j], respond))
      && AllFlashes(ps, respond)
         == AllFlashes(before, respond) + [CommentsFailed(p.id.value, 500)] + AllFlashes(after, respond)
  {
    PostInContext(before, p, after, respond);
    assert (before + [p] + after)[|before|] == p;
  }
}
