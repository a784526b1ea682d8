/** model/User.java and its subclasses Customer, ServiceProvider and Admin, the
    `users` table they share, and the uniqueness lookups the account services
    run against it. */
module Users {
  import opened Wrappers
  import opened Ids
  import opened Roles

  /** LocalDate, as a day number. */
  type Date = int

  /** A password after PasswordEncoder.encode: the encoder is an opaque
      injective function, so the encoded form is just a tag on the raw text. */
  datatype Password = Encoded(raw: string)

  /** The columns each subclass adds to the user row. */
  datatype Profile =
    | CustomerProfile(dateOfBirth: Option<Date>, fullName: Option<string>)
    | ProviderProfile(businessName: Option<string>)
    | AdminProfile(dateOfBirth: Option<Date>, fullName: Option<string>, department: Option<string>, earnings: Option<real>)

  /** One row of `users`; username, email, password and phone number are NOT NULL. */
  datatype User = User(
    id: UserId,
    username: string,
    email: string,
    password: Password,
    phoneNumber: string,
    image: Option<string>,
    address: Option<string>,
    role: Option<Role>,
    profile: Profile)

  type UserTable = map<UserId, User>

  /** Each row sits under its own id; username and email are unique columns,
      and every registration and update path rejects a phone number another
      user holds, so the phone number is unique too. */
  predicate UsersValid(users: UserTable) {
    && (forall id :: id in users ==> users[id].id == id)
    && (forall a, b :: a in users && b in users && a != b ==>
          && users[a].username != users[b].username
          && users[a].email != users[b].email
          && users[a].phoneNumber != users[b].phoneNumber)
  }

  /** The registration data, already checked by the validators: the four
      required fields are present. `image` is the stored file name when a
      non-empty image was uploaded. */
  datatype Registration = Registration(
    username: string,
    email: string,
    password: string,
    phoneNumber: string,
    address: Option<string>,
    image: Option<string>,
    dateOfBirth: Option<Date>,
    fullName: Option<string>,
    businessName: Option<string>,
    department: Option<string>)

  /** The DTO of a profile update; every field may be null. */
  datatype UserForm = UserForm(
    username: Option<string>,
    email: Option<string>,
    password: Option<string>,
    phoneNumber: Option<string>,
    address: Option<string>,
    image: Option<string>,
    dateOfBirth: Option<Date>,
    fullName: Option<string>,
    businessName: Option<string>)

  datatype UserError =
    | UsernameExists
    | EmailExists
    | PhoneExists
    | UserNotFound
    | NoProfileImage
    | RoleLookupFailed(error: RoleError)
    | NotificationFailed

  /** Repository lookups: is the value held by some user, or by a user other than `self`. */
  predicate UsernameTaken(users: UserTable, x: string) {
    exists id :: id in users && users[id].username == x
  }

  predicate EmailTaken(users: UserTable, x: string) {
    exists id :: id in users && users[id].email == x
  }

  predicate PhoneTaken(users: UserTable, x: string) {
    exists id :: id in users && users[id].phoneNumber == x
  }

  predicate UsernameTakenByOther(users: UserTable, x: string, self: UserId) {
    exists id :: id in users && id != self && users[id].username == x
  }

  predicate EmailTakenByOther(users: UserTable, x: string, self: UserId) {
    exists id :: id in users && id != self && users[id].email == x
  }

  predicate PhoneTakenByOther(users: UserTable, x: string, self: UserId) {
    exists id :: id in users && id != self && users[id].phoneNumber == x
  }

  /** For a value that differs from the user's own, "held by anyone" and "held
      by someone else" agree: the provider update, which asks the first, and
      the customer and admin updates, which ask the second, reject the same
      values. */
  lemma TakenByAnyoneIsTakenByOther(users: UserTable, self: UserId, x: string)
    requires UsersValid(users) && self in users
    ensures x != users[self].username ==> (UsernameTaken(users, x) <==> UsernameTakenByOther(users, x, self))
    ensures x != users[self].email ==> (EmailTaken(users, x) <==> EmailTakenByOther(users, x, self))
    ensures x != users[self].phoneNumber ==> (PhoneTaken(users, x) <==> PhoneTakenByOther(users, x, self))
  {
  }

  /** A form value that asks for a change: present and different. */
  predicate NewValue(v: Option<string>, current: string) {
    v.Some? && v.value != current
  }

  /** The customer update's stricter test: present, non-empty and different. */
  predicate NewNonEmptyValue(v: Option<string>, current: string) {
    v.Some? && v.value != "" && v.value != current
  }

  /** A field that a non-null form value overwrites. */
  function KeepUnlessGiven<T>(v: Option<T>, current: T): T {
    if v.Some? then v.value else current
  }

  /** A field that a non-null, non-empty form value overwrites. */
  function KeepUnlessNonEmpty(v: Option<string>, current: string): string {
    if v.Some? && v.value != "" then v.value else current
  }

  /** Changing one user's username, email and phone number to values no
      other user holds keeps the three columns unique. */
  lemma {:induction false} UpdateKeepsUnique(users: UserTable, id: UserId, u: User)
    requires UsersValid(users) && id in users && u.id == id
    requires u.username == users[id].username || !UsernameTakenByOther(users, u.username, id)
    requires u.email == users[id].email || !EmailTakenByOther(users, u.email, id)
    requires u.phoneNumber == users[id].phoneNumber || !PhoneTakenByOther(users, u.phoneNumber, id)
    ensures UsersValid(users[id := u])
  {
    var m := users[id := u];
    forall a, b | a in m && b in m && a != b
      ensures m[a].username != m[b].username && m[a].email != m[b].email && m[a].phoneNumber != m[b].phoneNumber
    {
      if a == id {
        assert b in users && b != id && m[b] == users[b];
      } else if b == id {
        assert a in users && a != id && m[a] == users[a];
      }
    }
  }

  /** Adding a row whose username, email and phone number nobody holds keeps them unique. */
  lemma InsertKeepsUnique(users: UserTable, u: User)
    requires UsersValid(users) && u.id !in users
    requires !UsernameTaken(users, u.username) && !EmailTaken(users, u.email) && !PhoneTaken(users, u.phoneNumber)
    ensures UsersValid(users[u.id := u])
  {
  }

  /** The `users` table behind UserRepository and its subclass repositories. */
  class UserRepository {
    var users: UserTable
    var nextId: UserId

    ghost predicate Valid()
      reads this
    {
      UsersValid(users) && forall id :: id in users ==> id < nextId
    }

    constructor ()
      ensures Valid() && users == map[] && nextId == 1
    {
      users := map[];
      nextId := 1;
    }

    /** The ids of all admins (adminRepository.findAll). */
    function AdminIds(): (r: set<UserId>)
      reads this
      ensures forall id :: id in r <==> id in users && users[id].profile.AdminProfile?
    {
      set id | id in users && users[id].profile.AdminProfile?
    }

    /** save of a new user: the row gets the next id. */
    method Insert(u: User) returns (id: UserId)
      requires Valid()
      requires !UsernameTaken(users, u.username) && !EmailTaken(users, u.email) && !PhoneTaken(users, u.phoneNumber)
      modifies this
      ensures Valid()
      ensures id == old(nextId) && nextId == old(nextId) + 1
      ensures users == old(users)[id := u.(id := id)]
    {
      id := nextId;
      assert id !in users;
      InsertKeepsUnique(users, u.(id := id));
      users := users[id := u.(id := id)];
      nextId := nextId + 1;
    }
  }

  /** The registration steps the three account services share: username,
      then email, then phone number must be unused, checked in that order. */
  function RegistrationCheck(users: UserTable, form: Registration): (r: Outcome<UserError>)
    ensures r == Pass <==>
      !UsernameTaken(users, form.username) && !EmailTaken(users, form.email) && !PhoneTaken(users, form.phoneNumber)
    ensures r == Fail(UsernameExists) <==> UsernameTaken(users, form.username)
    ensures r == Fail(EmailExists) <==> !UsernameTaken(users, form.username) && EmailTaken(users, form.email)
    ensures r == Fail(PhoneExists) <==>
      !UsernameTaken(users, form.username) && !EmailTaken(users, form.email) && PhoneTaken(users, form.phoneNumber)
  {
    if UsernameTaken(users, form.username) then Fail(UsernameExists)
    else if EmailTaken(users, form.email) then Fail(EmailExists)
    else if PhoneTaken(users, form.phoneNumber) then Fail(PhoneExists)
    else Pass
  }

  /** roleRepository.findByName for a registration: a missing role leaves the
      user without one, an ambiguous name is an error. */
  function RoleFor(roles: RoleTable, name: string): (r: Result<Option<Role>, UserError>)
    ensures r.Ok? && r.value.Some? ==> r.value.value in roles && r.value.value.name == name
    ensures r == Ok(None) <==> forall x :: x in roles ==> x.name != name
    ensures NamesUnique(roles) ==> r.Ok?
  {
    UniqueNamesFindOne(roles, name);
    match FindByName(roles, name)
    case NoRole => Ok(None)
    case OneRole(x) => Ok(Some(x))
    case ManyRoles => Err(RoleLookupFailed(NonUniqueRoleName(name)))
  }
}
