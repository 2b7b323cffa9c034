/** The `POST /api/auth/register` handler: required-field check, duplicate
    check, password hashing, shaping of the stored user by account type, and
    the choice of status and response body. The collaborators it awaits are
    inputs: the parsed JSON body (`None` when `request.json()` throws), the
    outcome of the user lookup, the bcrypt hash (`None` when hashing throws)
    and the clock reading the mock store puts into the id. */
module RegisterRoute {
  import opened Common
  import opened MockPrisma

  /** The destructured JSON body; every field may be missing. */
  datatype RegisterRequest = RegisterRequest(
    name: Option<string>, email: Option<string>, password: Option<string>,
    accountType: Option<string>, companyName: Option<string>, companySize: Option<string>,
    industry: Option<string>, website: Option<string>)

  datatype ResponseBody = ErrorBody(error: string) | UserBody(user: Object)

  datatype Response = Response(status: nat, body: ResponseBody)

  const RequiredMessage := "Name, email, and password are required"
  const DuplicateMessage := "User already exists with this email"
  const InternalError := Response(500, ErrorBody("Internal server error"))

  /** The projection the handler asks `create` for. */
  const UserSelect: map<string, bool> :=
    map["id" := true, "name" := true, "email" := true, "accountType" := true]

  predicate HasRequiredFields(req: RegisterRequest) {
    Truthy(req.name) && Truthy(req.email) && Truthy(req.password)
  }

  method Register(body: Option<RegisterRequest>, existing: Option<User>,
                  hash: string -> Option<string>, now: nat)
    returns (resp: Response, lookedUp: bool, stored: Option<UserCreateInput>)
    // A body that cannot be read is an internal error; nothing else happens.
    ensures body.None? ==> resp == InternalError && !lookedUp && stored.None?
    // Missing fields are rejected before any store access.
    ensures body.Some? && !HasRequiredFields(body.value) ==>
      resp == Response(400, ErrorBody(RequiredMessage)) && !lookedUp && stored.None?
    ensures body.Some? && HasRequiredFields(body.value) ==> lookedUp
    // An existing user is rejected and nothing is created.
    ensures body.Some? && HasRequiredFields(body.value) && existing.Some? ==>
      resp == Response(400, ErrorBody(DuplicateMessage)) && stored.None?
    // A failing hash is an internal error and nothing is created.
    ensures body.Some? && HasRequiredFields(body.value) && existing.None?
            && hash(body.value.password.value).None? ==>
      resp == InternalError && stored.None?
    ensures resp.status == RegisterOutcome(body, existing, hash)
    // A user is created exactly when the response is 201.
    ensures stored.Some? <==> resp.status == 201
    ensures stored.Some? ==>
      var req := body.value;
      var data := stored.value;
      && body.Some? && HasRequiredFields(req) && existing.None?
      && hash(req.password.value).Some?
      && data.name == req.name.value && data.email == req.email.value
      // The stored password is the hash of what was submitted.
      && data.password == hash(req.password.value).value
      && data.accountType == Or(req.accountType, "general")
      // Company details are attached exactly for company accounts.
      && (data.company.Some? <==> req.accountType == Some("company"))
      && (data.company.Some? ==>
            data.company.value == CompanyFields(req.companyName, req.companySize, req.industry, req.website))
      // The response carries only id, name, email and account type.
      && resp.body.UserBody?
      && resp.body.user.Keys == {"id", "name", "email", "accountType"}
      && "password" !in resp.body.user
      && resp.body.user["name"] == Some(data.name)
      && resp.body.user["email"] == Some(data.email)
      && resp.body.user["accountType"] == Some(data.accountType)
      && resp.body.user["id"] == Some(IdPrefix + NatToString(now))
  {
    lookedUp, stored := false, None;
    if body.None? {
      return InternalError, lookedUp, stored;
    }
    var req := body.value;
    if !Truthy(req.name) || !Truthy(req.email) || !Truthy(req.password) {
      return Response(400, ErrorBody(RequiredMessage)), lookedUp, stored;
    }

    lookedUp := true;
    var existingUser := existing;
    if existingUser.Some? {
      return Response(400, ErrorBody(DuplicateMessage)), lookedUp, stored;
    }

    var hashed := hash(req.password.value);
    if hashed.None? {
      return InternalError, lookedUp, stored;
    }

    var userData := UserCreateInput(req.name.value, req.email.value, hashed.value,
                                    Or(req.accountType, "general"), None);
    if req.accountType == Some("company") {
      userData := userData.(company := Some(CompanyFields(req.companyName, req.companySize,
                                                          req.industry, req.website)));
    }

    var user := Create(userData, Some(UserSelect), now);
    SelectedUser(userData, now, user);
    stored := Some(userData);
    resp := Response(201, UserBody(user));
  }

  /** What `create` returns under the handler's projection: id, name, email
      and account type of the stored user, and never the password. */
  lemma SelectedUser(data: UserCreateInput, now: nat, user: Object)
    requires forall k :: k in user <==> k in UserSelect && UserSelect[k]
    requires forall k :: k in user ==> user[k] == Lookup(Record(data, now), k)
    ensures user.Keys == {"id", "name", "email", "accountType"} && "password" !in user
    ensures user["name"] == Some(data.name) && user["email"] == Some(data.email)
    ensures user["accountType"] == Some(data.accountType)
    ensures user["id"] == Some(IdPrefix + NatToString(now))
  {
    assert user.Keys == UserSelect.Keys;
  }

  /** With the development store in place the lookup never reports a user, so
      a request that has the required fields and hashes successfully is always
      answered with 201. */
  lemma MockStoreNeverRejectsDuplicate(req: RegisterRequest, hash: string -> Option<string>)
    requires HasRequiredFields(req) && hash(req.password.value).Some?
    ensures RegisterOutcome(Some(req), FindUnique(), hash) == 201
  {
  }

  /** The status `Register` answers with, as a function of its inputs. */
  function RegisterOutcome(body: Option<RegisterRequest>, existing: Option<User>,
                           hash: string -> Option<string>): (status: nat)
    ensures status in {201, 400, 500}
  {
    if body.None? then 500
    else if !HasRequiredFields(body.value) then 400
    else if existing.Some? then 400
    else if hash(body.value.password.value).None? then 500
    else 201
  }
}
