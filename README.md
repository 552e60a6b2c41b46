# Sentiment aggregation core, modelled in Dafny

This project models the decision logic of a small Flask app that fetches a user's
Instagram posts with their comments and the most recent tweets of a search. It scores
every text with the VADER sentiment scorer and builds the rows of a result page. Three
parts of `app.py` are modelled:

- **`get_tweets`** (module `TwitterFetch`, `twitter_fetch.dfy`). This is the search
  client's bounded retry loop. The HTTP client and the clock are replaced by a
  *script*: attempt `i` meets `script[i].outcome`, which is either a response (status,
  text, parsed body, parsed `x-rate-limit-reset` header) or a network error with its
  message. The attempt also reads the clock as `script[i].now`. Sleeps are recorded as
  a list of requested waits, and requests are counted.
  - `Run` is the loop written as a recursive function over the attempt index.
  - `GetTweets` is the loop as a `while` loop, proved equal to it.
  - The lemmas give the wait formula, the statuses that end the loop at once, the
    network error on the last attempt, and the exact condition for the generic
    "Max retries" error.
- **`get_instagram_posts`** (module `InstagramFetch`, `instagram_fetch.dfy`). The media
  call's answer is an input. The comments call is a function from post id to its
  answer. `GetInstagramPosts` loops over the media list and attaches `comments` to
  each qualifying post. It returns the media object, the flashes it shows, and the
  post ids whose comments it requested. It is proved equal to the function
  `InstagramPosts`. The lemmas cover the failure cases, post order, which posts get a
  comments call, and that a post's flashes and call do not depend on the statuses
  its siblings' comments calls answer.
- **`analyze`** (module `Analysis`, `analysis.dfy`). This part builds the result lists:
  - the caption placeholder;
  - the truthy-text comment filter;
  - the strict ±0.05 sentiment label (module `Sentiment`);
  - the first-match author join with its placeholders;
  - the flashes for the search result.

  `Analyze` runs both fetches for a session and returns both result lists and all
  flashes, Instagram's first.

`Common` holds an `Option` type, Python truthiness of strings and `str(int)`.
`Flashes` holds the flash messages as data, each with its category and exact text.
The sentiment scorer is a parameter `score: string -> Scores`.

Behaviour of the code that the model keeps:

- A stored but empty Instagram credential leads to the "Instagram credentials not
  provided" error flash. Only an absent session key means no flash at all.
- If no attempt ends the loop, the result is the generic
  `"Max retries reached. Please try again later."`. This happens when every attempt is
  a 429, and also when network errors on earlier attempts are followed by a 429 on the
  last one.
- Every 429 wait is at least ten seconds plus five per earlier attempt
  (`max(reset - now, 10) + 5*i`). After 429s whose reset lies 3 and 1 seconds ahead,
  the waits are 10 and 15 seconds.
- Comments are requested only for posts with a truthy `id` and a positive
  `comments_count`. A missing count counts as 0.
- A missing caption becomes "No caption available". An empty caption is kept.
- The label thresholds are strict, so 0.05 and -0.05 are Neutral.

## Model

| member | source | states |
|---|---|---|
| `Common.NatToString` | app.py:274 | the rendering is non-empty, all decimal digits, starts with `0` only when it is the single digit `0`, and spells `n`; together these fix the string for every `n` |
| `Sentiment.LabelOf` | app.py:217-221 | Positive iff compound > 0.05, Negative iff compound < -0.05, Neutral iff -0.05 <= compound <= 0.05 |
| `Sentiment.LabelBoundaries` | app.py:217-221 | 0.06 is Positive; -0.10 is Negative; 0.0, 0.05 and -0.05 are Neutral |
| `Sentiment.LabelMonotone` | app.py:217-221 | a larger compound score never moves the label from Positive, nor a smaller one from Negative |
| `TwitterFetch.RateLimitWait` | app.py:259-263 | the 429 wait is at least `10 + 5*i` and at least `reset - now + 5*i` (reset 0 when the header is missing), and equals one of the two |
| `TwitterFetch.Run` | app.py:253-285 | the loop never returns `None`; it issues at least one and at most `retries - i` requests from attempt `i`; at most one request has no wait after it; wait `k` is at least `10 + 5*(i+k)` |
| `TwitterFetch.Tweets` | app.py:237-285 | `None` iff the token is empty, and then no request and no wait; with a token and `retries > 0`, at least one request; never more than `max(retries, 0)` requests; wait `k` is at least `10 + 5*k` |
| `TwitterFetch.GetTweets` | app.py:237-285 | the loop's result, waits and request count equal `Tweets` for every script |
| `TwitterFetch.EndsAt` | app.py:253-281 | if attempt `k` is the first that leaves the loop, there are exactly `k+1` requests, the waits of attempts `0..k-1`, and that attempt's return value |
| `TwitterFetch.Exhausted` | app.py:253-285 | if no attempt leaves the loop, there are `max(retries, 0)` requests, each followed by its wait, and the "Max retries" error |
| `TwitterFetch.WaitFormula` | app.py:259-282 | every wait belongs to an attempt that stayed in the loop and equals that attempt's wait: the rate-limit formula after a 429, `10 + 5*i` after a network error |
| `TwitterFetch.TerminalStatus` | app.py:268-276 | a first ending attempt with status 200 returns the body, 401 the fixed credentials message, any other non-429 status `Error <status>: <text>`; no request follows it |
| `TwitterFetch.NetworkErrorOnLastAttempt` | app.py:278-281 | a network error on the last attempt returns `Network error: <message>` after `retries` requests |
| `TwitterFetch.EndResultNotMaxRetries` | app.py:268-285 | no early return produces the "Max retries" message |
| `TwitterFetch.MaxRetriesIff` | app.py:253-285 | the result is the "Max retries" error iff a token is given and no attempt leaves the loop |
| `TwitterFetch.AllRateLimited` | app.py:259-285 | 429 on every attempt gives the "Max retries" error after exactly `retries` requests and `retries` waits, each following the rate-limit formula |
| `TwitterFetch.RateLimitedThenOk` | app.py:253-269 | 429 (reset now+3), 429 (reset now+1), then 200 gives three requests, waits [10, 15] and the body |
| `InstagramFetch.ReceivedComments` | app.py:106-114 | a non-200 answer gives no comments; a 200 gives its `data` list when present, and `[]` when the key is missing |
| `InstagramFetch.CallFlashes` | app.py:106-117 | each comments call gives at most one flash; none iff 200 with comments; the permission warning for 200 without comments; a warning with the status otherwise |
| `InstagramFetch.Attach` | app.py:99-114 | only `comments` may change; posts that do not qualify are unchanged; qualifying posts get the comments their call returned |
| `InstagramFetch.AttachAll` | app.py:100-114 | the post list keeps its length, and post `k` of the result is post `k` of the input after `Attach` |
| `InstagramFetch.InstagramPosts` | app.py:83-119 | the result is `None` iff a credential is empty or the media call does not answer 200, and then there is no comments call and one flash: `InstagramCredentialsMissing` for an empty credential, `InstagramMediaFailed` for a non-200 media answer; on success there are no more flashes than comments calls |
| `InstagramFetch.GetInstagramPosts` | app.py:83-119 | the loop's result, flashes and comment requests equal `InstagramPosts` |
| `InstagramFetch.NoneIff` | app.py:84-94 | the result is `None` iff a credential is empty or the media call does not answer 200; then one error-category flash is shown, reading "Instagram credentials not provided" or "Error fetching Instagram posts" respectively |
| `InstagramFetch.PostsKeepOrder` | app.py:96-119 | on success the media object is returned; its post list exists iff the input's does, in the same order, each post differing at most in `comments` |
| `InstagramFetch.AllFlashesAppend` | app.py:100-117 | the flashes of a concatenation of post lists are the concatenation of their flashes |
| `InstagramFetch.CommentRequestsAppend` | app.py:100-104 | the comments calls for a concatenation of post lists are the concatenation of their calls |
| `InstagramFetch.PostInContext` | app.py:100-117 | a post's flashes and its comments call sit between those of the posts before and after it, whatever they are |
| `InstagramFetch.RequestedIff` | app.py:99-104 | a comments call is issued for an id iff some post with that id qualifies |
| `InstagramFetch.FlashesFollowRequests` | app.py:100-117 | there are no more comment-stage flashes than comments calls, and each flash names a post whose comments were requested |
| `InstagramFetch.ServerErrorOnOnePost` | app.py:113-117 | a post with two comments whose call answers 500 gets `comments = []` and one status-500 warning, and every sibling is attached as if alone |
| `Analysis.CommentTexts` | app.py:191-193 | the kept texts are no more than the comments, and none is empty |
| `Analysis.ScoreComments` | app.py:191-193 | one entry per kept text, in order, each scored by `score` of its text |
| `Analysis.CommentTextsAppend` | app.py:192-193 | the filter maps a concatenation of comment lists to the concatenation of its results |
| `Analysis.CommentInContext` | app.py:192-193 | a comment adds its text between those of the comments before and after it iff the text is truthy |
| `Analysis.CaptionOf` | app.py:189 | a present caption is kept, even when empty; a missing one becomes "No caption available" |
| `Analysis.ShapePost` | app.py:187-201 | media url and type are copied; the caption follows `CaptionOf` and is scored; no `comments` key gives no comments, otherwise the kept texts in order, each with its score (`ScoreComments`) |
| `Analysis.InstagramResults` | app.py:182-201 | one result per shown post, in post order, each `ShapePost` of its post |
| `Analysis.FindUser` | app.py:213-214 | a user is found iff some user has the id; the one found is the first with that id |
| `Analysis.ShapeTweet` | app.py:212-230 | the text is kept and scored; the label is the text of `LabelOf(compound)`; `created_at` defaults to ""; without a matching user the author is "Unknown" and the username and image are "" |
| `Analysis.AuthorJoin` | app.py:213-226 | the author fields come from the first user whose id matches, with "Unknown", "" and "" for missing keys |
| `Analysis.TwitterFlashes` | app.py:208-232 | at most one flash, and none when tweets are shown; a `Twitter API Error` flash iff the fetch failed or the body has an `error` key, and it carries that error message verbatim; the "no tweets" note iff the body is truthy with neither `error` nor `data`; no flash at all iff there is no token, the body is falsy, or it has `data` and no `error` |
| `Analysis.TweetRows` | app.py:212-230 | one result per tweet, in tweet order, each `ShapeTweet` of its tweet against the body's users |
| `Analysis.TwitterResults` | app.py:204-232 | one result per tweet of a truthy body without error, in tweet order; the flashes are those of `TwitterFlashes` |
| `Analysis.Analyze` | app.py:180-234 | the Instagram results are `ShapePost` of the fetched posts and the tweet results `ShapeTweet` of the fetched tweets, both in order; the flashes are Instagram's, then the search's |
| `Analysis.AbsentCredentials` | app.py:182-206 | without both Instagram keys there are no posts, flashes or comments calls; without the token key there are no tweets, no search flash and no request |
| `Analysis.EmptyToken` | app.py:237-240 | a stored empty token makes no request and shows no tweets and no flash |
| `Analysis.RejectedToken` | app.py:270-272 | a 401 on the first attempt gives one request, no tweets and the flash `Twitter API Error: Invalid or expired Bearer Token...` |
| `Analysis.MediaFailureIsolated` | app.py:182-212 | a failed media call yields no Instagram rows and one error flash, while a search answered 200 at once yields all of its tweets in order, with no flash |

These helpers carry no contract of their own. Each one encodes a source condition or text and is used by the members above:
- `TwitterFetch.Ends` and `TwitterFetch.EndResult` (app.py:259-281): which attempts leave the loop, and what they return.
- `TwitterFetch.WaitAfter` and `TwitterFetch.NetworkWait` (app.py:262-263, 282): the sleep after a retried attempt.
- `InstagramFetch.Qualifies` (app.py:101): the test for requesting comments.
- `Flashes.Flash.Text` and `Flashes.Flash.Category` (app.py:85, 93, 110, 115, 117, 210, 232): the flash strings and their categories.
- `Sentiment.LabelText` (app.py:217-221): the label strings.
- `Analysis.ShownPosts` (app.py:185) and `Analysis.ShownTweets` (app.py:208-211): the posts and tweets `analyze` iterates over.
- `TwitterFetch.SearchBody.Truthy` (app.py:208): dict truthiness. `TwitterFetch.SearchBody.Users` (app.py:213): the `includes.users` lookup with its defaults.
- `Common.Truthy` (app.py:101, 193): string truthiness. `Common.IntToString` (app.py:115, 274): `str()` of a status code.
- `InstagramFetch.PostFlashes` and `InstagramFetch.AllFlashes` (app.py:106-117): the comment-stage flashes. `InstagramFetch.PostRequests` and `InstagramFetch.CommentRequests` (app.py:101-104): the comments calls issued.
- `Analysis.InstagramFetched` and `Analysis.TweetsFetched` (app.py:183-184, 205-206): the session-key tests in front of the two fetches.

## Left out

- Flask routing, templates, redirects and session storage (app.py:48-80, 126-176, 234). The session is the `Session` value passed to `Analyze`, with three optional keys.
- SQLite user storage and login: `init_db`, `load_user`, `register`, `login`, `logout`. These are database and session I/O.
- The credential check in `credentials` (`/me` and `/me/permissions`). These are calls into a foreign API made when credentials are submitted.
- The HTTP calls, `time.time()` and `time.sleep`. They are replaced by the script, the media and comments answers, the clock readings and the recorded waits.
- The search query parameters (`"AI"`, 10 results, field selectors). They only shape the request, and the script stands in for its answer.
- VADER's scoring. It is the parameter `score`, which also makes repeated scoring of one text deterministic.
- `print` debug logging. Flash categories and texts are modelled in `Flashes`, but nothing is rendered.
- `GetInstagramPosts`: the source mutates each post dict in place, and the caller sees it through the shared list. The model updates a list of post values, so aliasing is not captured.
- `GetInstagramPosts`: comment answers are a function of the post id. Two posts with the same id therefore get the same answer.
- `GetInstagramPosts`: a transport failure (`RequestException`, such as a connection error or a timeout) of the media or a comments call, and a body that is not valid JSON, raise out of `get_instagram_posts` and `analyze`, so the whole page fails and no later comments call is made. The model is not able to express this: every media and comments answer carries a status and a parsed body. Its properties hold for status failures only.
- Outside `get_tweets`, no Python exception is modelled. Inside it, `RequestException` is modelled and every other exception is not. These include a malformed reset header (`int()` failing), a `null` `comments_count`, a tweet without `text` or `author_id`, and a user without `id`. The model's records always carry the fields the code indexes directly.
- A 200 search body that is not valid JSON goes to the network-error path in recent `requests` versions. The model assumes the body parses.
- Keys of the media object other than `data` (such as `paging`) are not modelled. They do not affect any decision.
- `TwitterFetch.MaxRetriesIff` and `TwitterFetch.EndResultNotMaxRetries` are about which return statement of `get_tweets` runs, not about the Python value it returns. A 200 answer whose body is exactly `{"error": "Max retries reached. Please try again later."}` gives the same dict as the fall-through at app.py:285. The model keeps it apart as `Body(...)`. `TwitterFlashes` maps both to the same flash.
- Concurrency: the source is strictly sequential, and so is the model.
