/** The `/api/category_post` route: links a post to a category by inserting
    one row into `post_categories`, with both ids converted by `Number`. */
module CategoryPostRoute {
  import opened Wrappers
  import opened Strings
  import opened Js
  import opened Http

  /** The JSON body `{ postId, categoryId }`. */
  datatype LinkBody = LinkBody(postId: JsValue, categoryId: JsValue)

  /** A row of `post_categories` as the handler builds it. */
  datatype LinkRow = LinkRow(postId: NumberValue, categoryId: NumberValue)

  /** `{ message, data }` of a successful insert. */
  datatype Confirmation = Confirmation(message: string, data: seq<LinkRow>)

  /** What the insert did: stored the row, reported an error with its
      message, or threw. */
  datatype InsertAnswer = Stored | DbError(message: string) | DbThrew

  const REQUIRED := "Post ID and Category ID are required"
  const CREATED_MESSAGE := "Category post created successfully"

  /** `!postId || !categoryId` fails. */
  function HasIds(body: LinkBody): (ok: bool)
    ensures ok ==> body.postId !in {Undefined, Null, Bool(false), Num(0), Str("")} && body.categoryId !in {Undefined, Null, Bool(false), Num(0), Str("")}
    ensures body.postId in {Undefined, Null, Bool(false), Num(0), Str("")} || body.categoryId in {Undefined, Null, Bool(false), Num(0), Str("")} ==> !ok
  {
    Truthy(body.postId) && Truthy(body.categoryId)
  }

  /** The row inserted for a body. */
  function RowOf(body: LinkBody): (row: LinkRow)
    ensures row.postId == ToNumber(body.postId) && row.categoryId == ToNumber(body.categoryId)
  {
    LinkRow(ToNumber(body.postId), ToNumber(body.categoryId))
  }

  /** POST. `body` is `None` when the request is not JSON. */
  function CreateCategoryPost(body: Option<LinkBody>, insert: InsertAnswer): (h: Handled<Confirmation>)
    ensures body.None? ==> h == Handled(Response(SERVER_ERROR, ErrorBody("Internal server error")), None)
    ensures body.Some? && !HasIds(body.value) ==> h == Handled(Response(BAD_REQUEST, ErrorBody(REQUIRED)), None)
    ensures h.stored.Some? <==> body.Some? && HasIds(body.value) && insert.Stored?
    ensures h.stored.Some? ==>
              && h.stored.value == Confirmation(CREATED_MESSAGE, [RowOf(body.value)])
              && h.response == Response(OK, DataBody(h.stored.value))
    ensures body.Some? && HasIds(body.value) && insert.DbError? ==>
              h.response == Response(SERVER_ERROR, ErrorBody(insert.message))
    ensures body.Some? && HasIds(body.value) && insert.DbThrew? ==>
              h.response == Response(SERVER_ERROR, ErrorBody("Database operation failed"))
  {
    if body.None? then Handled(Response(SERVER_ERROR, ErrorBody("Internal server error")), None)
    else if !HasIds(body.value) then Handled(Response(BAD_REQUEST, ErrorBody(REQUIRED)), None)
    else match insert
      case Stored =>
        var c := Confirmation(CREATED_MESSAGE, [RowOf(body.value)]);
        Handled(Response(OK, DataBody(c)), Some(c))
      case DbError(m) => Handled(Response(SERVER_ERROR, ErrorBody(m)), None)
      case DbThrew => Handled(Response(SERVER_ERROR, ErrorBody("Database operation failed")), None)
  }

  /** An id sent as the number 0 is refused as missing. */
  lemma NumericZeroIsRefused(categoryId: JsValue, insert: InsertAnswer)
    ensures CreateCategoryPost(Some(LinkBody(Num(0), categoryId)), insert).response.status == BAD_REQUEST
  {
  }

  /** Ids sent as their printed decimal strings are stored as those numbers,
      zero included: `"0"` is truthy where `0` is not. */
  lemma PrintedIdsAreStored(p: int, c: int)
    ensures var h := CreateCategoryPost(Some(LinkBody(Str(Decimal(p)), Str(Decimal(c)))), Stored);
            h.stored == Some(Confirmation(CREATED_MESSAGE, [LinkRow(Integer(p), Integer(c))]))
  {
    ToNumberDecimal(p);
    ToNumberDecimal(c);
  }

  /** A blank string id passes the check (a non-empty string is truthy) and
      is stored as 0. */
  lemma BlankIdIsStoredAsZero(blank: string, categoryId: JsValue)
    requires blank != "" && AllWhiteSpace(blank) && Truthy(categoryId)
    ensures var h := CreateCategoryPost(Some(LinkBody(Str(blank), categoryId)), Stored);
            h.stored.Some? && h.stored.value.data[0].postId == Integer(0)
  {
  }
}
