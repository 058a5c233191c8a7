/** The `/api/comments` route over the `comments` table: listing a post's
    comments with a profile attached, adding one as the session's user, and
    deleting one scoped by `id` and `user_id`. */
module CommentsApi {
  import opened Wrappers
  import opened Strings
  import opened Js
  import opened Http
  import opened Ordering
  import opened Seqs

  /** A row of the `comments` table. `createdAt` is the server timestamp. */
  datatype Row = Row(id: string, content: string, images: seq<string>, createdAt: int,
                     userId: string, postId: string)

  /** The signed-in user as the auth provider reports it. */
  datatype AuthUser = AuthUser(id: string, email: Option<string>,
                               fullName: Option<string>, avatarUrl: Option<string>)

  /** The `user` object attached to a comment in a response. */
  datatype Profile = Profile(email: Option<string>, fullName: Option<string>, avatarUrl: Option<string>)

  /** A row with its profile: `{ ...comment, user }`. */
  datatype Comment = Comment(row: Row, user: Profile)

  /** The answer of the session lookup: the session's user, if any, and
      whether the lookup reported an error. */
  datatype Session = Session(user: Option<AuthUser>, authError: bool)

  /** The store's answer to the insert: the row's id, timestamp and images,
      which the insert does not send and the table fills in itself. */
  datatype InsertResult = Inserted(id: string, createdAt: int, images: seq<string>) | InsertFailed

  // ---------------------------------------------------------------------------
  // Display names

  /** `email?.split('@')[0]` */
  function EmailName(email: Option<string>): Option<string> {
    if email.Some? then Some(Before(email.value, '@')) else None
  }

  /** `full_name || email?.split('@')[0] || 'Anonymous User'` */
  function DisplayName(fullName: Option<string>, email: Option<string>): (name: string)
    ensures name != ""
    ensures Filled(fullName) ==> name == fullName.value
    ensures !Filled(fullName) ==> '@' !in name
  {
    Or(fullName, Or(EmailName(email), "Anonymous User"))
  }

  /** Without a full name, the display name is the part of the email before
      its `@`. */
  lemma DisplayNameFromEmail(fullName: Option<string>, local: string, domain: string)
    requires !Filled(fullName)
    requires local != "" && '@' !in local
    ensures DisplayName(fullName, Some(local + "@" + domain)) == local
  {
    BeforeOfJoined(local, domain, '@');
  }

  /** With neither a full name nor a usable email the name is the fixed
      fallback. */
  lemma DisplayNameFallback(fullName: Option<string>, email: Option<string>)
    requires !Filled(fullName)
    requires email.None? || Before(email.value, '@') == ""
    ensures DisplayName(fullName, email) == "Anonymous User"
  {
  }

  /** The profile the GET handler attaches: built from the requesting
      session's user (not the comment's author), with `Anonymous` for a
      missing email and no avatar for an empty one. */
  function ViewerProfile(viewer: Option<AuthUser>): (p: Profile)
    ensures p.email.Some? && p.email.value != ""
    ensures p.fullName.Some? && p.fullName.value != ""
    ensures viewer.None? ==> p == Profile(Some("Anonymous"), Some("Anonymous User"), None)
    ensures p.avatarUrl.Some? ==> viewer.Some? && p.avatarUrl == viewer.value.avatarUrl
  {
    var email := if viewer.Some? then viewer.value.email else None;
    var fullName := if viewer.Some? then viewer.value.fullName else None;
    var avatar := if viewer.Some? then viewer.value.avatarUrl else None;
    Profile(Some(Or(email, "Anonymous")), Some(DisplayName(fullName, email)), Nonempty(avatar))
  }

  /** The profile the POST handler attaches: the session user's email as is
      (no `Anonymous` fallback), with the same display name rule. */
  function SessionProfile(user: AuthUser): (p: Profile)
    ensures p.email == user.email
    ensures p.fullName == Some(DisplayName(user.fullName, user.email))
    ensures p.avatarUrl.Some? <==> Filled(user.avatarUrl)
  {
    Profile(user.email, Some(DisplayName(user.fullName, user.email)), Nonempty(user.avatarUrl))
  }

  // ---------------------------------------------------------------------------
  // The queries

  function OfPost(postId: string): Row -> bool {
    (r: Row) => r.postId == postId
  }

  function CreatedAt(r: Row): int { r.createdAt }

  /** `.eq('post_id', postId).order('created_at', { ascending: false })` */
  function PostComments(rows: seq<Row>, postId: string): (r: seq<Row>)
    ensures SortedBy(r, CreatedAt, Descending)
    ensures multiset(r) == multiset(Filter(rows, OfPost(postId)))
    ensures forall x :: x in r <==> x in rows && x.postId == postId
  {
    var q := Sort(Filter(rows, OfPost(postId)), CreatedAt, Descending);
    assert forall x :: x in q <==> x in multiset(q);
    assert forall x :: x in Filter(rows, OfPost(postId)) <==> x in multiset(Filter(rows, OfPost(postId)));
    q
  }

  /** The listing holds as many comments as the post has rows. */
  lemma PostCommentsCount(rows: seq<Row>, postId: string)
    ensures |PostComments(rows, postId)| == Count(rows, OfPost(postId))
  {
    var q := PostComments(rows, postId);
    assert |q| == |multiset(q)|;
    FilterLength(rows, OfPost(postId));
    assert |Filter(rows, OfPost(postId))| == |multiset(Filter(rows, OfPost(postId)))|;
  }

  /** The rows `.eq('id', id).eq('user_id', userId)` does not select: the
      ones a DELETE keeps. */
  function NotOwnedBy(id: string, userId: string): Row -> bool {
    (r: Row) => !(r.id == id && r.userId == userId)
  }

  /** The table after `.delete()` scoped by both columns. */
  function DeleteOwned(rows: seq<Row>, id: string, userId: string): (r: seq<Row>)
    ensures forall x :: x in r <==> x in rows && !(x.id == id && x.userId == userId)
  {
    Filter(rows, NotOwnedBy(id, userId))
  }

  /** A user who owns no row with that id deletes nothing: the table is the
      same, with no error. */
  lemma DeleteByNonOwnerIsNoop(rows: seq<Row>, id: string, userId: string)
    requires forall x :: x in rows ==> !(x.id == id && x.userId == userId)
    ensures DeleteOwned(rows, id, userId) == rows
  {
    FilterAllKept(rows, NotOwnedBy(id, userId));
  }

  /** Deleting the same comment twice is the same as deleting it once. */
  lemma DeleteIdempotent(rows: seq<Row>, id: string, userId: string)
    ensures DeleteOwned(DeleteOwned(rows, id, userId), id, userId) == DeleteOwned(rows, id, userId)
  {
    FilterIdempotent(rows, NotOwnedBy(id, userId));
  }

  /** The surviving rows keep their order. */
  lemma DeleteKeepsOrder(a: seq<Row>, b: seq<Row>, id: string, userId: string)
    ensures DeleteOwned(a + b, id, userId) == DeleteOwned(a, id, userId) + DeleteOwned(b, id, userId)
  {
    FilterAppend(a, b, NotOwnedBy(id, userId));
  }

  /** The comment `row` that `owner` just created: deleting it as `owner`
      takes it out of the post's listing, deleting it as anyone else leaves
      the table as it was. */
  lemma CreateThenDelete(rows: seq<Row>, row: Row, other: string)
    requires forall x :: x in rows ==> x.id != row.id
    requires other != row.userId
    ensures row !in PostComments(DeleteOwned(rows + [row], row.id, row.userId), row.postId)
    ensures DeleteOwned(rows + [row], row.id, other) == rows + [row]
  {
    DeleteByNonOwnerIsNoop(rows + [row], row.id, other);
  }

  const COMMENT_ID_REQUIRED := "Comment ID is required"
  const POST_ID_REQUIRED := "Post ID is required"
  const UNAUTHORIZED_MESSAGE := "Unauthorized"

  /** The `comments` table and the three handlers. */
  class CommentStore {
    var rows: seq<Row>

    constructor (rows: seq<Row>)
      ensures this.rows == rows
    {
      this.rows := rows;
    }

    /** GET `?postId=`: the post's comments, newest first, each given the
        profile of the requesting user. A store error answers 500. */
    method List(postId: Option<string>, viewer: Option<AuthUser>, storeFails: bool)
      returns (resp: Response<Body<seq<Comment>>>)
      ensures !Filled(postId) ==> resp == Response(BAD_REQUEST, ErrorBody(POST_ID_REQUIRED))
      ensures Filled(postId) && storeFails ==>
                resp == Response(SERVER_ERROR, ErrorBody("Error fetching comments"))
      ensures Filled(postId) && !storeFails ==>
                && resp.status == OK && resp.body.DataBody?
                && |resp.body.data| == |PostComments(rows, postId.value)|
                && forall i :: 0 <= i < |resp.body.data| ==>
                     resp.body.data[i] == Comment(PostComments(rows, postId.value)[i], ViewerProfile(viewer))
    {
      if !Filled(postId) {
        return Response(BAD_REQUEST, ErrorBody(POST_ID_REQUIRED));
      }
      if storeFails {
        return Response(SERVER_ERROR, ErrorBody("Error fetching comments"));
      }
      var found := PostComments(rows, postId.value);
      var profile := ViewerProfile(viewer);
      var out := seq(|found|, i requires 0 <= i < |found| => Comment(found[i], profile));
      resp := Response(OK, DataBody(out));
    }

    /** POST: insert one row authored by the session's user; `content` and
        `postId` come from the body unchecked. */
    method Create(content: string, postId: string, session: Session, insert: InsertResult)
      returns (resp: Response<Body<Comment>>)
      modifies this
      ensures session.authError || session.user.None? ==>
                resp == Response(UNAUTHORIZED, ErrorBody(UNAUTHORIZED_MESSAGE)) && rows == old(rows)
      ensures !session.authError && session.user.Some? && insert.InsertFailed? ==>
                resp == Response(SERVER_ERROR, ErrorBody("Error creating comment")) && rows == old(rows)
      ensures !session.authError && session.user.Some? && insert.Inserted? ==>
                var row := Row(insert.id, content, insert.images, insert.createdAt, session.user.value.id, postId);
                && rows == old(rows) + [row]
                && resp == Response(OK, DataBody(Comment(row, SessionProfile(session.user.value))))
    {
      if session.authError || session.user.None? {
        return Response(UNAUTHORIZED, ErrorBody(UNAUTHORIZED_MESSAGE));
      }
      if insert.InsertFailed? {
        return Response(SERVER_ERROR, ErrorBody("Error creating comment"));
      }
      var user := session.user.value;
      var row := Row(insert.id, content, insert.images, insert.createdAt, user.id, postId);
      rows := rows + [row];
      resp := Response(OK, DataBody(Comment(row, SessionProfile(user))));
    }

    /** DELETE `?id=`: remove the rows with this id owned by the session's
        user; answers 204 whether or not anything matched. */
    method Delete(commentId: Option<string>, session: Session, storeFails: bool)
      returns (resp: Response<Body<Comment>>)
      modifies this
      ensures !Filled(commentId) ==>
                resp == Response(BAD_REQUEST, ErrorBody(COMMENT_ID_REQUIRED)) && rows == old(rows)
      ensures Filled(commentId) && (session.authError || session.user.None?) ==>
                resp == Response(UNAUTHORIZED, ErrorBody(UNAUTHORIZED_MESSAGE)) && rows == old(rows)
      ensures Filled(commentId) && !session.authError && session.user.Some? && storeFails ==>
                resp == Response(SERVER_ERROR, ErrorBody("Error deleting comment")) && rows == old(rows)
      ensures Filled(commentId) && !session.authError && session.user.Some? && !storeFails ==>
                && rows == DeleteOwned(old(rows), commentId.value, session.user.value.id)
                && resp == Response(NO_CONTENT, NoContent)
    {
      if !Filled(commentId) {
        return Response(BAD_REQUEST, ErrorBody(COMMENT_ID_REQUIRED));
      }
      if session.authError || session.user.None? {
        return Response(UNAUTHORIZED, ErrorBody(UNAUTHORIZED_MESSAGE));
      }
      if storeFails {
        return Response(SERVER_ERROR, ErrorBody("Error deleting comment"));
      }
      rows := DeleteOwned(rows, commentId.value, session.user.value.id);
      resp := Response(NO_CONTENT, NoContent);
    }
  }
}
