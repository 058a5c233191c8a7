/** The `/api/category` route: listing categories in the table's own order
    and creating a category from the trimmed `name`, `slug` and
    `description` of the body, both behind bearer authentication. Neither
    handler has an exception handler of its own. */
module CategoryRoute {
  import opened Wrappers
  import opened Strings
  import opened Http
  import opened BearerAuth

  /** A row of the `categories` table. */
  datatype Category = Category(id: int, name: string, slug: string, description: string, createdAt: int)

  /** The JSON body of a create request; `None` is a field that is absent. */
  datatype CategoryBody = CategoryBody(name: Option<string>, slug: Option<string>, description: Option<string>)

  /** GET: every category, in no imposed order (the table's own order);
      authentication is checked before the table is read. */
  function ListCategories(header: Option<string>, getUser: string -> Lookup, categories: seq<Category>,
                          storeFails: bool): (resp: Response<Body<seq<Category>>>)
    ensures VerifyAuth(header, getUser).AuthFailed? ==>
              resp == Response(UNAUTHORIZED, ErrorBody(VerifyAuth(header, getUser).error))
    ensures VerifyAuth(header, getUser).Authenticated? && storeFails ==>
              resp == Response(SERVER_ERROR, ErrorBody("Error fetching categories"))
    ensures VerifyAuth(header, getUser).Authenticated? && !storeFails ==>
              resp == Response(OK, DataBody(categories))
  {
    var auth := VerifyAuth(header, getUser);
    if auth.AuthFailed? then Response(UNAUTHORIZED, ErrorBody(auth.error))
    else if storeFails then Response(SERVER_ERROR, ErrorBody("Error fetching categories"))
    else Response(OK, DataBody(categories))
  }

  predicate Complete(body: CategoryBody) {
    body.name.Some? && body.slug.Some? && body.description.Some?
  }

  /** The row built from a complete body: its text fields are the body's,
      trimmed, so trimming them again changes nothing. */
  function NewCategory(body: CategoryBody, id: int, now: int): (c: Category)
    requires Complete(body)
    ensures c.id == id && c.createdAt == now
    ensures c.name == Trim(body.name.value) && c.slug == Trim(body.slug.value)
            && c.description == Trim(body.description.value)
    ensures Trim(c.name) == c.name && Trim(c.slug) == c.slug && Trim(c.description) == c.description
  {
    TrimIdempotent(body.name.value);
    TrimIdempotent(body.slug.value);
    TrimIdempotent(body.description.value);
    Category(id, Trim(body.name.value), Trim(body.slug.value), Trim(body.description.value), now)
  }

  /** POST: after authentication, the row built from the trimmed fields is
      inserted with no further checks. A missing field or a body that is not
      JSON throws and is not caught. `insert` is the id the table assigned,
      or `None` when the insert failed. */
  function CreateCategory(header: Option<string>, getUser: string -> Lookup, body: Option<CategoryBody>,
                          now: int, insert: Option<int>): (h: Handled<Category>)
    ensures VerifyAuth(header, getUser).AuthFailed? ==>
              h == Handled(Response(UNAUTHORIZED, ErrorBody(VerifyAuth(header, getUser).error)), None)
    ensures VerifyAuth(header, getUser).Authenticated? && (body.None? || !Complete(body.value)) ==>
              h == Handled(Response(SERVER_ERROR, Unhandled), None)
    ensures h.stored.Some? <==>
              VerifyAuth(header, getUser).Authenticated? && body.Some? && Complete(body.value) && insert.Some?
    ensures h.stored.Some? ==>
              && h.stored.value == NewCategory(body.value, insert.value, now)
              && h.response == Response(OK, DataBody(h.stored.value))
    ensures VerifyAuth(header, getUser).Authenticated? && body.Some? && Complete(body.value) && insert.None? ==>
              h.response == Response(SERVER_ERROR, ErrorBody("Error creating category"))
  {
    var auth := VerifyAuth(header, getUser);
    if auth.AuthFailed? then Handled(Response(UNAUTHORIZED, ErrorBody(auth.error)), None)
    else if body.None? || !Complete(body.value) then Handled(Response(SERVER_ERROR, Unhandled), None)
    else if insert.None? then Handled(Response(SERVER_ERROR, ErrorBody("Error creating category")), None)
    else
      var category := NewCategory(body.value, insert.value, now);
      Handled(Response(OK, DataBody(category)), Some(category))
  }

  /** A stored category's fields carry no surrounding white space: posting
      the stored values again stores the same category. */
  lemma StoredCategoryIsTrimmed(body: CategoryBody, id: int, now: int)
    requires Complete(body)
    ensures var c := NewCategory(body, id, now);
            NewCategory(CategoryBody(Some(c.name), Some(c.slug), Some(c.description)), id, now) == c
  {
    TrimIdempotent(body.name.value);
    TrimIdempotent(body.slug.value);
    TrimIdempotent(body.description.value);
  }

  /** A field of white space alone is stored as the empty string: the route
      does not reject it. */
  lemma BlankNameIsStoredEmpty(body: CategoryBody, id: int, now: int)
    requires Complete(body) && AllWhiteSpace(body.name.value)
    ensures NewCategory(body, id, now).name == ""
  {
    TrimEmptyIff(body.name.value);
  }
}
