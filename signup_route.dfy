/** The sign-up route: it creates an account with the identity provider,
    then the matching row of the `users` table, and deletes the account again
    when that row cannot be inserted. */
module SignupRoute {
  import opened Wrappers
  import opened Js
  import opened Http
  import opened Seqs

  /** The JSON body of a sign-up request. */
  datatype SignupBody = SignupBody(name: JsValue, email: JsValue, role: JsValue, password: JsValue)

  /** An account of the identity provider, which keeps the password. */
  datatype Account = Account(id: string, email: JsValue, password: JsValue, name: JsValue, role: JsValue)

  /** A row of the `users` table: there is no password field. */
  datatype UserRecord = UserRecord(id: string, name: JsValue, email: JsValue, role: JsValue)

  /** What the provider's `signUp` answered: the new account's id, or an
      error (with its message, if it has one) or no user. */
  datatype SignUpAnswer = SignedUp(id: string) | SignUpFailed(message: Option<string>)

  /** `{ message, user }` of a successful sign-up. */
  datatype Welcome = Welcome(message: string, user: UserRecord)

  const REQUIRED := "Name, email, role, and password are required"
  const FAILED_TO_CREATE := "Failed to create user"
  const RECORD_FAILED := "Failed to create user record"

  /** `!body.name || !body.email || !body.role || !body.password` fails. */
  function HasRequired(body: SignupBody): (ok: bool)
    ensures ok <==> forall v :: v in [body.name, body.email, body.role, body.password] ==> Truthy(v)
    ensures ok ==> forall v :: v in [body.name, body.email, body.role, body.password] ==> v !in {Undefined, Null, Bool(false), Num(0), Str("")}
  {
    Truthy(body.name) && Truthy(body.email) && Truthy(body.role) && Truthy(body.password)
  }

  function NotAccount(id: string): Account -> bool {
    (a: Account) => a.id != id
  }

  /** The provider's accounts after `admin.deleteUser(id)`. */
  function WithoutAccount(accounts: seq<Account>, id: string): (r: seq<Account>)
    ensures forall a :: a in r <==> a in accounts && a.id != id
  {
    Filter(accounts, NotAccount(id))
  }

  /** The compensating delete undoes the sign-up: when the provider gave the
      new account a fresh id, deleting that id leaves the accounts exactly as
      they were before. */
  lemma CompensationRestores(accounts: seq<Account>, account: Account)
    requires forall a :: a in accounts ==> a.id != account.id
    ensures WithoutAccount(accounts + [account], account.id) == accounts
  {
    FilterAppend(accounts, [account], NotAccount(account.id));
    FilterAllKept(accounts, NotAccount(account.id));
    assert Filter([account], NotAccount(account.id)) == [];
  }

  /** The provider's accounts and the `users` table. */
  class Directory {
    var accounts: seq<Account>
    var users: seq<UserRecord>

    constructor (accounts: seq<Account>, users: seq<UserRecord>)
      ensures this.accounts == accounts && this.users == users
    {
      this.accounts := accounts;
      this.users := users;
    }

    /** POST. `body` is `None` when the request is not JSON; `provider` is
        the provider's answer, `insertFails` says whether the `users` insert
        failed and `deleteSucceeds` whether the compensating delete did; the
        handler does not look at the latter. */
    method SignUp(body: Option<SignupBody>, provider: SignUpAnswer, insertFails: bool, deleteSucceeds: bool)
      returns (resp: Response<Body<Welcome>>)
      modifies this
      ensures body.None? ==>
                resp == Response(SERVER_ERROR, ErrorBody("Internal server error"))
                && accounts == old(accounts) && users == old(users)
      ensures body.Some? && !HasRequired(body.value) ==>
                resp == Response(BAD_REQUEST, ErrorBody(REQUIRED)) && accounts == old(accounts) && users == old(users)
      ensures body.Some? && HasRequired(body.value) && provider.SignUpFailed? ==>
                && resp == Response(UNAUTHORIZED, ErrorBody(Or(provider.message, FAILED_TO_CREATE)))
                && accounts == old(accounts) && users == old(users)
      ensures body.Some? && HasRequired(body.value) && provider.SignedUp? ==>
                var b := body.value;
                var account := Account(provider.id, b.email, b.password, b.name, b.role);
                var record := UserRecord(provider.id, b.name, b.email, b.role);
                && (insertFails && deleteSucceeds ==>
                      accounts == WithoutAccount(old(accounts) + [account], provider.id))
                && (insertFails && !deleteSucceeds ==> accounts == old(accounts) + [account])
                && (insertFails ==>
                      resp == Response(BAD_REQUEST, ErrorBody(RECORD_FAILED)) && users == old(users))
                && (!insertFails ==>
                      && accounts == old(accounts) + [account]
                      && users == old(users) + [record]
                      && resp == Response(OK, DataBody(Welcome("User created successfully", record))))
    {
      if body.None? {
        return Response(SERVER_ERROR, ErrorBody("Internal server error"));
      }
      var b := body.value;
      if !HasRequired(b) {
        return Response(BAD_REQUEST, ErrorBody(REQUIRED));
      }
      if provider.SignUpFailed? {
        return Response(UNAUTHORIZED, ErrorBody(Or(provider.message, FAILED_TO_CREATE)));
      }
      accounts := accounts + [Account(provider.id, b.email, b.password, b.name, b.role)];
      if insertFails {
        if deleteSucceeds {
          accounts := WithoutAccount(accounts, provider.id);
        }
        return Response(BAD_REQUEST, ErrorBody(RECORD_FAILED));
      }
      var record := UserRecord(provider.id, b.name, b.email, b.role);
      users := users + [record];
      resp := Response(OK, DataBody(Welcome("User created successfully", record)));
    }
  }
}
