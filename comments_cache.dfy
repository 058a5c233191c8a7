/** The `useComments` hook: the client-side copy of one post's comments,
    with its `loading` flag and `error` message, kept up to date by refetching
    the listing, by the realtime events of the `comments` table, and by the
    results of the add and delete requests. */
module CommentsCache {
  import opened Wrappers
  import opened Js
  import opened Seqs
  import opened CommentsApi

  /** What a `fetch` call came back with: a response with `ok` and its parsed
      body, a response without `ok` and the `error` field of its body, or an
      exception, which is an `Error` with a message or some other value. */
  datatype Reply<T> = Ok(data: T) | NotOk(error: Option<string>) | Thrown(message: Option<string>)

  /** The `{ success, error? }` object `addComment` and `deleteComment` return. */
  datatype Outcome = Success | Failure(error: string)

  /** A change the realtime channel reports for the post's comments. */
  datatype Event = Insert | Update | Delete(oldId: string)

  const UNKNOWN_ERROR := "An error occurred"

  /** The message a failed request leaves in `error`: the body's `error`
      field or `fallback` when the response is not `ok`, the exception's
      message when one was thrown. */
  function FailureMessage<T>(reply: Reply<T>, fallback: string): (m: string)
    requires !reply.Ok?
    ensures reply.NotOk? && Filled(reply.error) ==> m == reply.error.value
    ensures reply.NotOk? && !Filled(reply.error) ==> m == fallback
    ensures reply.Thrown? && reply.message.Some? ==> m == reply.message.value
    ensures reply.Thrown? && reply.message.None? ==> m == UNKNOWN_ERROR
  {
    match reply
    case NotOk(e) => Or(e, fallback)
    case Thrown(msg) => msg.GetOr(UNKNOWN_ERROR)
  }

  /** A server that answered without `ok` always leaves a non-empty message,
      whatever its body held, as long as the fallback is non-empty. */
  lemma NotOkMessageNonempty<T>(error: Option<string>, fallback: string)
    requires fallback != ""
    ensures FailureMessage(Reply<T>.NotOk(error), fallback) != ""
  {
  }

  function NotId(id: string): Comment -> bool {
    (c: Comment) => c.row.id != id
  }

  /** `current.filter(comment => comment.id !== id)` */
  function WithoutId(comments: seq<Comment>, id: string): (r: seq<Comment>)
    ensures forall c :: c in r <==> c in comments && c.row.id != id
  {
    Filter(comments, NotId(id))
  }

  /** The local removal after a successful delete and the removal the
      realtime DELETE event for the same comment performs compose: the
      second finds nothing to remove. */
  lemma RemovalEchoIsHarmless(comments: seq<Comment>, id: string)
    ensures WithoutId(WithoutId(comments, id), id) == WithoutId(comments, id)
  {
    FilterIdempotent(comments, NotId(id));
  }

  /** Removing a comment that is not there changes nothing. */
  lemma RemovalOfAbsentId(comments: seq<Comment>, id: string)
    requires forall c :: c in comments ==> c.row.id != id
    ensures WithoutId(comments, id) == comments
  {
    FilterAllKept(comments, NotId(id));
  }

  /** Removal keeps the order of the comments that stay. */
  lemma RemovalKeepsOrder(a: seq<Comment>, b: seq<Comment>, id: string)
    ensures WithoutId(a + b, id) == WithoutId(a, id) + WithoutId(b, id)
  {
    FilterAppend(a, b, NotId(id));
  }

  const FETCH_FALLBACK := "Error fetching comments"
  const ADD_FALLBACK := "Failed to add comment"
  const DELETE_FALLBACK := "Failed to delete comment"

  /** The hook's state for one post. */
  class CommentCache {
    var comments: seq<Comment>
    var loading: bool
    var error: Option<string>

    /** The first render: no comments, loading, no error. */
    constructor ()
      ensures comments == [] && loading && error == None
    {
      comments := [];
      loading := true;
      error := None;
    }

    /** `fetchComments`: a successful listing replaces the comments; a failed
        one keeps them and records its message. `loading` ends false either
        way, and a successful fetch does not clear an earlier error. */
    method FetchComments(reply: Reply<seq<Comment>>)
      modifies this
      ensures !loading
      ensures reply.Ok? ==> comments == reply.data && error == old(error)
      ensures !reply.Ok? ==>
                comments == old(comments) && error == Some(FailureMessage(reply, FETCH_FALLBACK))
    {
      loading := true;
      if reply.Ok? {
        comments := reply.data;
      } else {
        error := Some(FailureMessage(reply, FETCH_FALLBACK));
      }
      loading := false;
    }

    /** The realtime handler: an insert or an update refetches the listing,
        a delete removes the deleted comment's id locally. */
    method OnRealtimeEvent(event: Event, refetch: Reply<seq<Comment>>)
      modifies this
      ensures event.Delete? ==>
                comments == WithoutId(old(comments), event.oldId)
                && loading == old(loading) && error == old(error)
      ensures !event.Delete? && refetch.Ok? ==>
                comments == refetch.data && !loading && error == old(error)
      ensures !event.Delete? && !refetch.Ok? ==>
                comments == old(comments) && !loading
                && error == Some(FailureMessage(refetch, FETCH_FALLBACK))
    {
      match event
      case Insert => FetchComments(refetch);
      case Update => FetchComments(refetch);
      case Delete(oldId) => comments := WithoutId(comments, oldId);
    }

    /** `addComment`: the POST's reply decides; on success the listing is
        refetched (that fetch reports its own failure through `error`, never
        through the outcome); on failure the message is recorded and
        returned, and the comments stay as they were. */
    method AddComment(post: Reply<Comment>, refetch: Reply<seq<Comment>>) returns (outcome: Outcome)
      modifies this
      ensures post.Ok? ==> outcome == Success
      ensures post.Ok? && refetch.Ok? ==> comments == refetch.data && !loading && error == old(error)
      ensures post.Ok? && !refetch.Ok? ==>
                comments == old(comments) && !loading && error == Some(FailureMessage(refetch, FETCH_FALLBACK))
      ensures !post.Ok? ==>
                && outcome == Failure(FailureMessage(post, ADD_FALLBACK))
                && error == Some(outcome.error)
                && comments == old(comments) && loading == old(loading)
    {
      if post.Ok? {
        FetchComments(refetch);
        return Success;
      }
      var message := FailureMessage(post, ADD_FALLBACK);
      error := Some(message);
      outcome := Failure(message);
    }

    /** `deleteComment`: a successful DELETE removes the comment locally; a
        failed one records and returns its message and removes nothing. */
    method DeleteComment(commentId: string, reply: Reply<()>) returns (outcome: Outcome)
      modifies this
      ensures loading == old(loading)
      ensures reply.Ok? ==>
                outcome == Success && comments == WithoutId(old(comments), commentId) && error == old(error)
      ensures !reply.Ok? ==>
                && outcome == Failure(FailureMessage(reply, DELETE_FALLBACK))
                && error == Some(outcome.error) && comments == old(comments)
    {
      if reply.Ok? {
        comments := WithoutId(comments, commentId);
        return Success;
      }
      var message := FailureMessage(reply, DELETE_FALLBACK);
      error := Some(message);
      outcome := Failure(message);
    }
  }
}
