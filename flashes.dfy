/** The user-visible notes the web app shows with `flash`, as data: each one has a
    category and the exact text the app formats for it. */
module Flashes {
  import opened Common

  datatype Category = Error | Warning | Info

  datatype Flash =
    | InstagramCredentialsMissing
    | InstagramMediaFailed
      /** A post reports comments, the comments call answered 200, but no comment came back. */
    | CommentsMissing(postId: string)
      /** The comments call for one post answered with a status other than 200. */
    | CommentsFailed(postId: string, status: int)
    | TwitterApiError(message: string)
    | NoTweetsFound
  {
    function Category(): Category {
      match this
      case InstagramCredentialsMissing => Error
      case InstagramMediaFailed => Error
      case CommentsMissing(_) => Warning
      case CommentsFailed(_, _) => Warning
      case TwitterApiError(_) => Error
      case NoTweetsFound => Info
    }

    function Text(): string {
      match this
      case InstagramCredentialsMissing => "Instagram credentials not provided"
      case InstagramMediaFailed => "Error fetching Instagram posts"
      case CommentsMissing(id) =>
        "Post " + id + " has comments but none were returned. Check API permissions."
      case CommentsFailed(id, status) =>
        "Error fetching comments for post " + id + ". Status code: " + IntToString(status)
      case TwitterApiError(message) => "Twitter API Error: " + message
      case NoTweetsFound => "No tweets found for the given search criteria"
    }
  }
}
