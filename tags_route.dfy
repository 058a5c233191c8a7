/** The `/api/tags` route: listing tags newest first and creating a tag from
    the trimmed `name`, `slug` and `status` of the body, both behind bearer
    authentication. The create handler has no exception handler of its own. */
module TagsRoute {
  import opened Wrappers
  import opened Strings
  import opened Http
  import opened Ordering
  import opened BearerAuth

  /** A row of the `tags` table. */
  datatype Tag = Tag(id: int, name: string, slug: string, status: string, createdAt: int)

  /** The JSON body of a create request; `None` is a field that is absent. */
  datatype TagBody = TagBody(name: Option<string>, slug: Option<string>, status: Option<string>)

  function CreatedAt(t: Tag): int { t.createdAt }

  /** GET: the tags newest first; authentication is checked before the
      table is read. */
  function ListTags(header: Option<string>, getUser: string -> Lookup, tags: seq<Tag>, storeFails: bool)
    : (resp: Response<Body<seq<Tag>>>)
    ensures VerifyAuth(header, getUser).AuthFailed? ==>
              resp == Response(UNAUTHORIZED, ErrorBody(VerifyAuth(header, getUser).error))
    ensures VerifyAuth(header, getUser).Authenticated? && storeFails ==>
              resp == Response(SERVER_ERROR, ErrorBody("Error fetching tags"))
    ensures VerifyAuth(header, getUser).Authenticated? && !storeFails ==>
              && resp.status == OK && resp.body.DataBody?
              && SortedBy(resp.body.data, CreatedAt, Descending)
              && multiset(resp.body.data) == multiset(tags)
  {
    var auth := VerifyAuth(header, getUser);
    if auth.AuthFailed? then Response(UNAUTHORIZED, ErrorBody(auth.error))
    else if storeFails then Response(SERVER_ERROR, ErrorBody("Error fetching tags"))
    else Response(OK, DataBody(Sort(tags, CreatedAt, Descending)))
  }

  predicate Complete(body: TagBody) {
    body.name.Some? && body.slug.Some? && body.status.Some?
  }

  /** The row built from a complete body: its text fields are the body's,
      trimmed, so trimming them again changes nothing. */
  function NewTag(body: TagBody, id: int, now: int): (t: Tag)
    requires Complete(body)
    ensures t.id == id && t.createdAt == now
    ensures t.name == Trim(body.name.value) && t.slug == Trim(body.slug.value)
            && t.status == Trim(body.status.value)
    ensures Trim(t.name) == t.name && Trim(t.slug) == t.slug && Trim(t.status) == t.status
  {
    TrimIdempotent(body.name.value);
    TrimIdempotent(body.slug.value);
    TrimIdempotent(body.status.value);
    Tag(id, Trim(body.name.value), Trim(body.slug.value), Trim(body.status.value), now)
  }

  /** POST: after authentication, the row built from the trimmed fields is
      inserted; nothing else is checked, so blank fields are stored as empty
      strings. A missing field makes `.trim()` throw, and a body that is not
      JSON makes reading it throw; neither is caught. `insert` is the id the
      table assigned, or `None` when the insert failed. */
  function CreateTag(header: Option<string>, getUser: string -> Lookup, body: Option<TagBody>,
                     now: int, insert: Option<int>): (h: Handled<Tag>)
    ensures VerifyAuth(header, getUser).AuthFailed? ==>
              h == Handled(Response(UNAUTHORIZED, ErrorBody(VerifyAuth(header, getUser).error)), None)
    ensures VerifyAuth(header, getUser).Authenticated? && (body.None? || !Complete(body.value)) ==>
              h == Handled(Response(SERVER_ERROR, Unhandled), None)
    ensures h.stored.Some? <==>
              VerifyAuth(header, getUser).Authenticated? && body.Some? && Complete(body.value) && insert.Some?
    ensures h.stored.Some? ==>
              && h.stored.value == NewTag(body.value, insert.value, now)
              && h.response == Response(OK, DataBody(h.stored.value))
    ensures VerifyAuth(header, getUser).Authenticated? && body.Some? && Complete(body.value) && insert.None? ==>
              h.response == Response(SERVER_ERROR, ErrorBody("Error creating tag"))
  {
    var auth := VerifyAuth(header, getUser);
    if auth.AuthFailed? then Handled(Response(UNAUTHORIZED, ErrorBody(auth.error)), None)
    else if body.None? || !Complete(body.value) then Handled(Response(SERVER_ERROR, Unhandled), None)
    else if insert.None? then Handled(Response(SERVER_ERROR, ErrorBody("Error creating tag")), None)
    else
      var tag := NewTag(body.value, insert.value, now);
      Handled(Response(OK, DataBody(tag)), Some(tag))
  }

  /** A stored tag's fields carry no surrounding white space: posting the
      stored values again stores the same tag. */
  lemma StoredTagIsTrimmed(body: TagBody, id: int, now: int)
    requires Complete(body)
    ensures var t := NewTag(body, id, now);
            NewTag(TagBody(Some(t.name), Some(t.slug), Some(t.status)), id, now) == t
  {
    TrimIdempotent(body.name.value);
    TrimIdempotent(body.slug.value);
    TrimIdempotent(body.status.value);
  }
}
