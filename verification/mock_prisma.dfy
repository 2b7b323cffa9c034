/** The development stand-in for the Prisma client: a user lookup that never
    finds anyone, and a `create` that echoes its input back under a mock id,
    projected onto the selected fields when a selection is given. */
module MockPrisma {
  import opened Common

  /** A stored user, as the lookup would return it. */
  datatype User = User(id: string, name: Option<string>, email: string,
                       password: Option<string>, image: Option<string>)

  /** The optional company details; each may itself be `undefined`. */
  datatype CompanyFields = CompanyFields(companyName: Option<string>, companySize: Option<string>,
                                         industry: Option<string>, website: Option<string>)

  /** The `data` handed to `create`. The company keys are either all present
      (possibly holding `undefined`) or all absent. */
  datatype UserCreateInput = UserCreateInput(name: string, email: string, password: string,
                                             accountType: string, company: Option<CompanyFields>)

  const CompanyKeys: set<string> := {"companyName", "companySize", "industry", "website"}

  /** The own keys of `data` with their values. */
  function Fields(data: UserCreateInput): (r: Object)
    ensures "id" !in r
    ensures r.Keys == {"name", "email", "password", "accountType"}
                      + (if data.company.Some? then CompanyKeys else {})
    ensures r["name"] == Some(data.name) && r["email"] == Some(data.email)
    ensures r["password"] == Some(data.password) && r["accountType"] == Some(data.accountType)
    ensures data.company.Some? ==>
      && r["companyName"] == data.company.value.companyName
      && r["companySize"] == data.company.value.companySize
      && r["industry"] == data.company.value.industry
      && r["website"] == data.company.value.website
  {
    var base := map["name" := Some(data.name), "email" := Some(data.email),
                    "password" := Some(data.password), "accountType" := Some(data.accountType)];
    match data.company
    case None => base
    case Some(c) =>
      base["companyName" := c.companyName]["companySize" := c.companySize]
          ["industry" := c.industry]["website" := c.website]
  }

  const IdPrefix := "mock-id-"

  /** `{ id: 'mock-id-' + now, ...data }`, with `now` standing for `Date.now()`. */
  function Record(data: UserCreateInput, now: nat): (r: Object)
    ensures r.Keys == Fields(data).Keys + {"id"}
    ensures forall k :: k in Fields(data) ==> r[k] == Fields(data)[k]
    ensures r["id"].Some? && StartsWith(r["id"].value, IdPrefix)
  {
    var id := IdPrefix + NatToString(now);
    PrefixOfConcat(IdPrefix, NatToString(now));
    Fields(data)["id" := Some(id)]
  }

  /** The id that `create` gives the record reads back as the clock value it
      was made from, so records made at different instants get different ids. */
  lemma RecordIdEncodesClock(data: UserCreateInput, now: nat, data': UserCreateInput, now': nat)
    requires Record(data, now)["id"] == Record(data', now')["id"]
    ensures now == now'
  {
    var d := NatToString(now);
    var d' := NatToString(now');
    assert IdPrefix + d == IdPrefix + d';
    assert d == (IdPrefix + d)[|IdPrefix|..];
    assert d' == (IdPrefix + d')[|IdPrefix|..];
    NatToStringInjective(now, now');
  }

  /** The result of `create` with a selection: exactly the keys flagged true,
      each holding the record's value for it. */
  function Projection(record: Object, select: map<string, bool>): Object {
    map k | k in select && select[k] :: Lookup(record, k)
  }

  /** `prisma.user.findUnique()`: the mock never finds a user. */
  function FindUnique(): (r: Option<User>)
    ensures r.None?
  {
    None
  }

  /** `prisma.user.create({ data, select })`. */
  method Create(data: UserCreateInput, select: Option<map<string, bool>>, now: nat)
    returns (r: Object)
    ensures select.None? ==> r == Record(data, now)
    ensures select.Some? ==> r == Projection(Record(data, now), select.value)
    ensures select.Some? ==> forall k :: k in r <==> k in select.value && select.value[k]
    ensures select.Some? ==> forall k :: k in r ==> r[k] == Lookup(Record(data, now), k)
    ensures select.None? ==> r["password"] == Some(data.password)
  {
    var result := Record(data, now);
    if select.None? {
      return result;
    }
    var sel := select.value;
    var filtered: Object := map[];
    var keys := sel.Keys;
    while keys != {}
      invariant keys <= sel.Keys
      invariant forall k :: k in filtered <==> k in sel && k !in keys && sel[k]
      invariant forall k :: k in filtered ==> filtered[k] == Lookup(result, k)
      decreases |keys|
    {
      var key :| key in keys;
      if sel[key] {
        filtered := filtered[key := Lookup(result, key)];
      }
      keys := keys - {key};
    }
    r := filtered;
  }
}
