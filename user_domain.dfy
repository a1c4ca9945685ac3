/** The user example application: a `User` aggregate mutated in place by its
    payloads' `Apply` methods, a first-name length validator, and two commands. */
module UserDomain {
  import opened Common
  import opened Aggregates
  import opened Payloads

  datatype Address = Address(country: string, region: string)

  /** The value of a `User`: what its database row holds. */
  datatype UserRow = UserRow(base: Base, firstName: string, lastName: string, addresses: seq<Address>)

  class User {
    /** The embedded `goes.BaseAggregate`. */
    const base: BaseAggregate
    var firstName: string
    var lastName: string
    var addresses: seq<Address>

    /** `&User{Addresses: []Address{}}`. */
    constructor ()
      ensures fresh(base)
      ensures Value() == UserRow(ZeroBase, "", "", [])
    {
      base := new BaseAggregate();
      firstName, lastName, addresses := "", "", [];
    }

    function Value(): UserRow
      reads this, base
    {
      UserRow(base.Value(), firstName, lastName, addresses)
    }

    /** The aggregate type under which user commands and payloads are routed. */
    function AggregateType(): string {
      "user"
    }
  }

  /** The number of bytes of the UTF-8 encoding of `s`: Go's `len` of a string. */
  function ByteLength(s: string): (n: nat)
    ensures n >= |s|
    ensures (forall i :: 0 <= i < |s| ==> s[i] as int < 0x80) ==> n == |s|
  {
    if s == [] then 0
    else
      var c := s[0] as int;
      (if c < 0x80 then 1 else if c < 0x800 then 2 else if c < 0x1_0000 then 3 else 4) + ByteLength(s[1..])
  }

  const TooShort: string := "FirstName is too short"
  const TooLong: string := "FirstName is too long"

  /** `validateFirstName`: the byte length must lie in 3..42. */
  function ValidateFirstName(firstName: string): (r: Option<Error>)
    ensures r == None <==> 3 <= ByteLength(firstName) <= 42
    ensures ByteLength(firstName) < 3 ==> r == Some(Validation(TooShort))
    ensures ByteLength(firstName) > 42 ==> r == Some(Validation(TooLong))
  {
    var length := ByteLength(firstName);
    if length < 3 then Some(Validation(TooShort))
    else if length > 42 then Some(Validation(TooLong))
    else None
  }

  lemma ValidateFirstNameExamples()
    ensures ValidateFirstName("Sysy") == None
    ensures ValidateFirstName("z0mbie") == None
    ensures ValidateFirstName("Al") == Some(Validation(TooShort))
  {
  }

  // Commands

  datatype Create = Create(firstName: string, lastName: string)

  datatype UpdateFirstName = UpdateFirstName(firstName: string)

  /** `Create.Validate`: the aggregate is looked at but plays no part. */
  function ValidateCreate(c: Create, user: UserRow): (r: Option<Error>)
    ensures r == None <==> 3 <= ByteLength(c.firstName) <= 42
    ensures r != None ==> r == Some(Validation(TooShort)) || r == Some(Validation(TooLong))
  {
    ValidateFirstName(c.firstName)
  }

  /** `UpdateFirstName.Validate`. */
  function ValidateUpdateFirstName(c: UpdateFirstName, user: UserRow): (r: Option<Error>)
    ensures r == None <==> 3 <= ByteLength(c.firstName) <= 42
    ensures r != None ==> r == Some(Validation(TooShort)) || r == Some(Validation(TooLong))
  {
    ValidateFirstName(c.firstName)
  }

  /** Both validators return exactly `validateFirstName` of the command's name, whatever the aggregate. */
  lemma ValidateIgnoresAggregate(c: Create, d: UpdateFirstName, u: UserRow, v: UserRow)
    ensures ValidateCreate(c, u) == ValidateCreate(c, v) == ValidateFirstName(c.firstName)
    ensures ValidateUpdateFirstName(d, u) == ValidateUpdateFirstName(d, v) == ValidateFirstName(d.firstName)
  {
  }

  /** The identifier `Create.BuildEvent` always assigns. */
  const FixedId: string := "MyNotSoRandomUUID"

  /** `Create.BuildEvent`: never fails; copies the names and assigns the fixed identifier. */
  function BuildCreate(c: Create): (r: Result<EventData>)
    ensures r.Success? && r.value.UserCreatedV1?
    ensures r.value.id == FixedId && r.value.firstName == c.firstName && r.value.lastName == c.lastName
  {
    Success(UserCreatedV1(FixedId, c.firstName, c.lastName))
  }

  /** `UpdateFirstName.BuildEvent`: never fails. */
  function BuildUpdateFirstName(c: UpdateFirstName): (r: Result<EventData>)
    ensures r.Success? && r.value.UserFirstNameUpdatedV1? && r.value.firstName == c.firstName
  {
    Success(UserFirstNameUpdatedV1(c.firstName))
  }

  // Payload application

  /** What a user payload's `Apply` does to a user, `ts` being the event's timestamp. */
  function PayloadApplied(u: UserRow, p: EventData, ts: Time): (r: UserRow)
    requires p.IsUserPayload()
    ensures p.UserCreatedV1? ==>
      && r.base.id == p.id && r.firstName == p.firstName && r.lastName == p.lastName && r.base.createdAt == ts
      && r.addresses == u.addresses && r.base.version == u.base.version
      && r.base.updatedAt == u.base.updatedAt && r.base.deletedAt == u.base.deletedAt
    ensures p.UserFirstNameUpdatedV1? ==> r == u.(firstName := p.firstName)
  {
    match p
    case UserCreatedV1(id, first, last) =>
      u.(base := u.base.(id := id, createdAt := ts), firstName := first, lastName := last)
    case UserFirstNameUpdatedV1(first) =>
      u.(firstName := first)
  }

  /** `CreatedV1.Apply`. */
  method ApplyCreated(p: EventData, user: User, ts: Time)
    requires p.UserCreatedV1?
    modifies user, user.base
    ensures user.Value() == PayloadApplied(old(user.Value()), p, ts)
  {
    user.base.id := p.id;
    user.firstName := p.firstName;
    user.lastName := p.lastName;
    user.base.createdAt := ts;
  }

  /** `FirstNameUpdatedV1.Apply`. */
  method ApplyFirstNameUpdated(p: EventData, user: User, ts: Time)
    requires p.UserFirstNameUpdatedV1?
    modifies user
    ensures user.Value() == PayloadApplied(old(user.Value()), p, ts)
  {
    user.firstName := p.firstName;
  }
}
