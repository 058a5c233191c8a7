/** The `/api/user` route: a module-level array of users that the four
    handlers search with `find`/`findIndex` and change in place with `push`,
    index assignment and `splice`. */
module UserRoute {
  import opened Wrappers
  import opened Js
  import opened Http

  /** A stored user: whatever `id` and `name` the request body carried. */
  datatype User = User(id: JsValue, name: JsValue)

  datatype Payload =
    | Message(message: string)                // `{ message }`
    | Saved(message: string, user: User)      // `{ message, user }`
    | One(user: User)                         // a single user
    | All(users: seq<User>)                   // the whole table

  /** The ten users the table starts with. */
  function InitialUsers(): seq<User> {
    [ User(Num(1), Str("Somchai Sawatdee")),
      User(Num(2), Str("Sunaree Rachasima")),
      User(Num(3), Str("Nattakarn Chaimongkol")),
      User(Num(4), Str("Paweena Bua-ban")),
      User(Num(5), Str("Thanakorn Promyotha")),
      User(Num(6), Str("Supachai Pantawee")),
      User(Num(7), Str("Pimphan Khammool")),
      User(Num(8), Str("Thitaya Bua-luang")),
      User(Num(9), Str("Thipawan Charoenmongkol")),
      User(Num(10), Str("Chalita Rungroj")) ]
  }

  /** The initial table holds ten users whose ids are the numbers 1 to 10, in
      order, so no two of them share an id. */
  lemma InitialUsersNumbered()
    ensures |InitialUsers()| == 10
    ensures forall i :: 0 <= i < 10 ==> InitialUsers()[i].id == Num(i + 1)
    ensures forall i, j :: 0 <= i < j < 10 ==> InitialUsers()[i].id != InitialUsers()[j].id
  {
  }

  // ---------------------------------------------------------------------------
  // The search predicates the handlers pass to `find` / `findIndex`

  /** `user => user.id === v` */
  function HasId(v: JsValue): User -> bool {
    (u: User) => u.id == v
  }

  /** `user => user.id === parseInt(id)`; NaN equals nothing. */
  function HasParsedId(parsed: Option<int>): (p: User -> bool)
    ensures parsed.None? ==> forall u :: !p(u)
    ensures parsed.Some? ==> forall u :: p(u) <==> u.id == Num(parsed.value)
  {
    (u: User) => parsed.Some? && u.id == Num(parsed.value)
  }

  /** `user => user.name === name` */
  function HasName(name: string): User -> bool {
    (u: User) => u.name == Str(name)
  }

  /** `findIndex`: the index of the first user satisfying `p`, or -1. */
  function FirstMatch(s: seq<User>, p: User -> bool): (r: int)
    ensures -1 <= r < |s|
    ensures r >= 0 ==> p(s[r])
    ensures r >= 0 ==> forall j :: 0 <= j < r ==> !p(s[j])
    ensures r == -1 ==> forall j :: 0 <= j < |s| ==> !p(s[j])
  {
    if s == [] then -1
    else if p(s[0]) then 0
    else
      var k := FirstMatch(s[1..], p);
      if k == -1 then -1 else k + 1
  }

  /** The linear scan behind `find` and `findIndex`. */
  method FindIndex(s: seq<User>, p: User -> bool) returns (idx: int)
    ensures -1 <= idx < |s|
    ensures idx >= 0 ==> p(s[idx]) && forall j :: 0 <= j < idx ==> !p(s[j])
    ensures idx == -1 ==> forall j :: 0 <= j < |s| ==> !p(s[j])
  {
    var i := 0;
    while i < |s|
      invariant 0 <= i <= |s|
      invariant forall j :: 0 <= j < i ==> !p(s[j])
    {
      if p(s[i]) {
        return i;
      }
      i := i + 1;
    }
    return -1;
  }

  /** `FirstMatch` is determined by which users satisfy the predicate. */
  lemma {:induction false} FirstMatchSame(s: seq<User>, p: User -> bool, q: User -> bool)
    requires forall j :: 0 <= j < |s| ==> p(s[j]) == q(s[j])
    ensures FirstMatch(s, p) == FirstMatch(s, q)
  {
    if s != [] && !p(s[0]) {
      FirstMatchSame(s[1..], p, q);
    }
  }

  /** Appending a user does not move an existing first match: with no
      duplicate-id check, a later lookup by id finds the older user. */
  lemma FirstMatchAppend(s: seq<User>, x: User, p: User -> bool)
    ensures FirstMatch(s + [x], p) ==
            if FirstMatch(s, p) >= 0 then FirstMatch(s, p)
            else if p(x) then |s| else -1
  {
    var t := s + [x];
    var k := FirstMatch(s, p);
    var m := FirstMatch(t, p);
    assert forall j :: 0 <= j < |s| ==> t[j] == s[j];
    assert t[|s|] == x;
  }

  /** `users.splice(k, 1)` */
  function RemoveAt(s: seq<User>, k: nat): (r: seq<User>)
    requires k < |s|
    ensures |r| == |s| - 1
    ensures forall j :: 0 <= j < k ==> r[j] == s[j]
    ensures forall j :: k <= j < |r| ==> r[j] == s[j + 1]
  {
    s[..k] + s[k + 1..]
  }

  /** Deleting with the printed form of a numeric id finds the same user as
      a lookup by that number: `parseInt` reads back what `String` prints. */
  lemma DeleteFindsPrintedId(s: seq<User>, n: int)
    ensures FirstMatch(s, HasParsedId(ParseInt(Decimal(n)))) == FirstMatch(s, HasId(Num(n)))
  {
    ParseIntDecimal(n);
    FirstMatchSame(s, HasParsedId(ParseInt(Decimal(n))), HasId(Num(n)));
  }

  /** A DELETE whose id has no leading digits never matches anybody. */
  lemma NonNumericIdNeverMatches(s: seq<User>, id: string)
    requires ParseInt(id).None?
    ensures FirstMatch(s, HasParsedId(ParseInt(id))) == -1
  {
  }

  const REQUIRED := "ID and name are required"
  const NOT_FOUND_MESSAGE := "User not found"

  /** The table and its four handlers. */
  class UserTable {
    var users: seq<User>

    constructor ()
      ensures users == InitialUsers()
    {
      users := InitialUsers();
    }

    /** POST: append the body when it has a truthy id and name. */
    method Create(data: User) returns (resp: Response<Payload>)
      modifies this
      ensures !Truthy(data.id) || !Truthy(data.name) ==>
                resp == Response(BAD_REQUEST, Message(REQUIRED)) && users == old(users)
      ensures Truthy(data.id) && Truthy(data.name) ==>
                && users == old(users) + [data]
                && resp == Response(CREATED, Saved("User created with id " + Display(data.id), data))
    {
      if !Truthy(data.id) || !Truthy(data.name) {
        return Response(BAD_REQUEST, Message(REQUIRED));
      }
      users := users + [data];
      resp := Response(CREATED, Saved("User created with id " + Display(data.id), data));
    }

    /** GET: the first user with exactly this name, or the whole table when
        no (or an empty) name is given. */
    method Get(name: Option<string>) returns (resp: Response<Payload>)
      ensures !Filled(name) ==> resp == Response(OK, All(users))
      ensures Filled(name) && (exists j :: 0 <= j < |users| && users[j].name == Str(name.value)) ==>
                resp.status == OK && resp.body.One? && resp.body.user.name == Str(name.value)
                && resp.body.user == users[FirstMatch(users, HasName(name.value))]
      ensures Filled(name) && (forall j :: 0 <= j < |users| ==> users[j].name != Str(name.value)) ==>
                resp == Response(NOT_FOUND, Message(NOT_FOUND_MESSAGE))
    {
      if !Filled(name) {
        return Response(OK, All(users));
      }
      var idx := FindIndex(users, HasName(name.value));
      FirstMatchSame(users, HasName(name.value), HasName(name.value));
      if idx == -1 {
        return Response(NOT_FOUND, Message(NOT_FOUND_MESSAGE));
      }
      resp := Response(OK, One(users[idx]));
    }

    /** PUT: replace the first user whose id is strictly equal to the body's. */
    method Replace(data: User) returns (resp: Response<Payload>)
      modifies this
      ensures !Truthy(data.id) || !Truthy(data.name) ==>
                resp == Response(BAD_REQUEST, Message(REQUIRED)) && users == old(users)
      ensures Truthy(data.id) && Truthy(data.name) && FirstMatch(old(users), HasId(data.id)) == -1 ==>
                resp == Response(NOT_FOUND, Message(NOT_FOUND_MESSAGE)) && users == old(users)
      ensures Truthy(data.id) && Truthy(data.name) && FirstMatch(old(users), HasId(data.id)) >= 0 ==>
                && users == old(users)[FirstMatch(old(users), HasId(data.id)) := data]
                && resp == Response(OK, Saved("User with id " + Display(data.id) + " updated", data))
    {
      if !Truthy(data.id) || !Truthy(data.name) {
        return Response(BAD_REQUEST, Message(REQUIRED));
      }
      var idx := FindIndex(users, HasId(data.id));
      assert idx == FirstMatch(users, HasId(data.id));
      if idx == -1 {
        return Response(NOT_FOUND, Message(NOT_FOUND_MESSAGE));
      }
      users := users[idx := data];
      resp := Response(OK, Saved("User with id " + Display(data.id) + " updated", data));
    }

    /** DELETE: remove the first user whose id equals `parseInt(id)`. */
    method Remove(id: Option<string>) returns (resp: Response<Payload>)
      modifies this
      ensures !Filled(id) ==> resp == Response(BAD_REQUEST, Message("ID is required")) && users == old(users)
      ensures Filled(id) && FirstMatch(old(users), HasParsedId(ParseInt(id.value))) == -1 ==>
                resp == Response(NOT_FOUND, Message(NOT_FOUND_MESSAGE)) && users == old(users)
      ensures Filled(id) && FirstMatch(old(users), HasParsedId(ParseInt(id.value))) >= 0 ==>
                && users == RemoveAt(old(users), FirstMatch(old(users), HasParsedId(ParseInt(id.value))))
                && resp == Response(OK, Message("User with id " + id.value + " deleted"))
    {
      if !Filled(id) {
        return Response(BAD_REQUEST, Message("ID is required"));
      }
      var idx := FindIndex(users, HasParsedId(ParseInt(id.value)));
      assert idx == FirstMatch(users, HasParsedId(ParseInt(id.value)));
      if idx == -1 {
        return Response(NOT_FOUND, Message(NOT_FOUND_MESSAGE));
      }
      users := RemoveAt(users, idx);
      resp := Response(OK, Message("User with id " + id.value + " deleted"));
    }
  }
}
