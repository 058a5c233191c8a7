/** The comments section of a post: what it shows for the hook's state, and
    the add and delete handlers it passes down, which refresh the listing
    after the hook's own update. */
module CommentsView {
  import opened Wrappers
  import opened Js
  import opened CommentsApi
  import opened CommentsCache

  /** A spinner while loading, the error panel with its retry button, or the
      section with its comment count and either the list or the empty
      message. */
  datatype View = Spinner | ErrorPanel(message: string) | Section(count: nat, showsList: bool)

  function SelectView(loading: bool, error: Option<string>, comments: seq<Comment>): (v: View)
    ensures v.Spinner? <==> loading
    ensures v.ErrorPanel? <==> !loading && Filled(error)
    ensures v.ErrorPanel? ==> v.message == error.value
    ensures v.Section? ==> v.count == |comments| && (v.showsList <==> |comments| > 0)
  {
    if loading then Spinner
    else if Filled(error) then ErrorPanel(error.value)
    else Section(|comments|, |comments| > 0)
  }

  /** The form is only rendered inside a section, so the `isLoading` it is
      given is always false. */
  lemma FormNeverSeesLoading(loading: bool, error: Option<string>, comments: seq<Comment>)
    requires SelectView(loading, error, comments).Section?
    ensures !loading
  {
  }

  /** The retry button, like the mount effect, calls `refreshComments`. A
      successful refetch does not clear the error, so the section keeps
      showing the error panel with the same message. */
  method Retry(cache: CommentCache, refetch: Reply<seq<Comment>>)
    modifies cache
    ensures !cache.loading
    ensures refetch.Ok? ==> cache.comments == refetch.data && cache.error == old(cache.error)
    ensures !refetch.Ok? ==>
              cache.comments == old(cache.comments) && cache.error == Some(FailureMessage(refetch, FETCH_FALLBACK))
    ensures refetch.Ok? && Filled(old(cache.error)) ==>
              SelectView(cache.loading, cache.error, cache.comments) == ErrorPanel(old(cache.error).value)
  {
    cache.FetchComments(refetch);
  }

  /** `handleAddComment`: the hook's `addComment` (which already refetches on
      success), then one more refresh when it succeeded; the hook's outcome
      is passed on unchanged. */
  method HandleAddComment(cache: CommentCache, post: Reply<Comment>,
                          refetch: Reply<seq<Comment>>, refresh: Reply<seq<Comment>>)
    returns (outcome: Outcome)
    modifies cache
    ensures outcome.Success? <==> post.Ok?
    ensures !post.Ok? ==>
              && outcome == Failure(FailureMessage(post, ADD_FALLBACK))
              && cache.error == Some(outcome.error)
              && cache.comments == old(cache.comments) && cache.loading == old(cache.loading)
    ensures post.Ok? ==> !cache.loading
    ensures post.Ok? && refresh.Ok? ==> cache.comments == refresh.data
    ensures post.Ok? && !refresh.Ok? ==> cache.error == Some(FailureMessage(refresh, FETCH_FALLBACK))
    ensures post.Ok? && !refresh.Ok? ==>
              cache.comments == (if refetch.Ok? then refetch.data else old(cache.comments))
    ensures post.Ok? && refetch.Ok? && refresh.Ok? ==> cache.error == old(cache.error)
    ensures post.Ok? && !refetch.Ok? && refresh.Ok? ==>
              cache.error == Some(FailureMessage(refetch, FETCH_FALLBACK))
  {
    outcome := cache.AddComment(post, refetch);
    if outcome.Success? {
      cache.FetchComments(refresh);
    }
  }

  /** `handleDeleteComment`: the hook's `deleteComment`, then a refresh when
      it succeeded. */
  method HandleDeleteComment(cache: CommentCache, commentId: string, reply: Reply<()>,
                             refresh: Reply<seq<Comment>>)
    returns (outcome: Outcome)
    modifies cache
    ensures outcome.Success? <==> reply.Ok?
    ensures !reply.Ok? ==>
              && outcome == Failure(FailureMessage(reply, DELETE_FALLBACK))
              && cache.error == Some(outcome.error)
              && cache.comments == old(cache.comments) && cache.loading == old(cache.loading)
    ensures reply.Ok? ==> !cache.loading
    ensures reply.Ok? && refresh.Ok? ==> cache.comments == refresh.data && cache.error == old(cache.error)
    ensures reply.Ok? && !refresh.Ok? ==>
              && cache.comments == WithoutId(old(cache.comments), commentId)
              && cache.error == Some(FailureMessage(refresh, FETCH_FALLBACK))
  {
    outcome := cache.DeleteComment(commentId, reply);
    if outcome.Success? {
      cache.FetchComments(refresh);
    }
  }
}
