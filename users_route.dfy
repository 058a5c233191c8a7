/** The `/api/users` route: listing the `users` table by ascending id and
    inserting a user with a name, email and role. */
module UsersRoute {
  import opened Wrappers
  import opened Js
  import opened Http
  import opened Ordering

  /** A row of the `users` table as this route sees it. Its POST sends no id,
      so the table assigns one, and its GET orders by it; the id is the
      number that ordering compares. The sign-up route writes the same
      table with the identity provider's account id, a string; the two
      routes are modelled each on its own terms, with no shared table. */
  datatype UserRow = UserRow(id: int, name: JsValue, email: JsValue, role: JsValue)

  /** The JSON body of a create request. */
  datatype UsersBody = UsersBody(name: JsValue, email: JsValue, role: JsValue)

  const NO_USERS := "No users found"
  const REQUIRED := "Name, email, and role are required"
  const INTERNAL := "Internal server error"

  function Id(u: UserRow): int { u.id }

  /** GET: a store error is answered with its own message; an empty table
      with 404; otherwise every row, by ascending id. `queryError` is the
      store's error message, if it reported one. */
  function ListUsers(rows: seq<UserRow>, queryError: Option<string>): (resp: Response<Body<seq<UserRow>>>)
    ensures queryError.Some? ==> resp == Response(SERVER_ERROR, ErrorBody(queryError.value))
    ensures queryError.None? && rows == [] ==> resp == Response(NOT_FOUND, MessageBody(NO_USERS))
    ensures queryError.None? && rows != [] ==>
              && resp.status == OK && resp.body.DataBody?
              && SortedBy(resp.body.data, Id, Ascending)
              && multiset(resp.body.data) == multiset(rows)
    ensures resp.status == OK ==> resp.body.DataBody? && resp.body.data != []
  {
    if queryError.Some? then Response(SERVER_ERROR, ErrorBody(queryError.value))
    else if rows == [] then Response(NOT_FOUND, MessageBody(NO_USERS))
    else
      var sorted := Sort(rows, Id, Ascending);
      assert |sorted| == |rows|;
      Response(OK, DataBody(sorted))
  }

  /** `!body.name || !body.email || !body.role` fails. */
  function HasRequired(body: UsersBody): (ok: bool)
    ensures ok <==> forall v :: v in [body.name, body.email, body.role] ==> Truthy(v)
    ensures ok ==> forall v :: v in [body.name, body.email, body.role] ==> v !in {Undefined, Null, Bool(false), Num(0), Str("")}
  {
    Truthy(body.name) && Truthy(body.email) && Truthy(body.role)
  }

  /** POST: a body with a truthy name, email and role is inserted with those
      three fields only; the store's error is answered with its message.
      `body` is `None` when the request is not JSON; `insert` is the id the
      table assigned or the store's error. */
  function CreateUser(body: Option<UsersBody>, insert: StoreAnswer<int>): (h: Handled<UserRow>)
    ensures body.None? ==> h == Handled(Response(SERVER_ERROR, ErrorBody(INTERNAL)), None)
    ensures body.Some? && !HasRequired(body.value) ==> h == Handled(Response(BAD_REQUEST, ErrorBody(REQUIRED)), None)
    ensures h.stored.Some? <==> body.Some? && HasRequired(body.value) && insert.Assigned?
    ensures h.stored.Some? ==>
              && h.stored.value == UserRow(insert.key, body.value.name, body.value.email, body.value.role)
              && h.response == Response(CREATED, DataBody(h.stored.value))
    ensures body.Some? && HasRequired(body.value) && insert.StoreError? ==>
              h.response == Response(SERVER_ERROR, ErrorBody(insert.message))
  {
    if body.None? then Handled(Response(SERVER_ERROR, ErrorBody(INTERNAL)), None)
    else if !HasRequired(body.value) then Handled(Response(BAD_REQUEST, ErrorBody(REQUIRED)), None)
    else match insert
      case StoreError(m) => Handled(Response(SERVER_ERROR, ErrorBody(m)), None)
      case Assigned(id) =>
        var row := UserRow(id, body.value.name, body.value.email, body.value.role);
        Handled(Response(CREATED, DataBody(row)), Some(row))
  }

  /** A user created by POST is listed by GET, once the store has it. */
  lemma CreatedUserIsListed(rows: seq<UserRow>, body: UsersBody, id: int)
    requires HasRequired(body)
    ensures var row := CreateUser(Some(body), Assigned(id)).stored.value;
            var listing := ListUsers(rows + [row], None);
            listing.status == OK && row in listing.body.data
  {
    var row := CreateUser(Some(body), Assigned(id)).stored.value;
    var listing := ListUsers(rows + [row], None);
    assert row in multiset(rows + [row]);
    assert row in multiset(listing.body.data);
  }
}
