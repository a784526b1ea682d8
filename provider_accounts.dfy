/** service/ServiceProviderService.java: provider registration, profile update
    and lookups. */
module ProviderAccounts {
  import opened Wrappers
  import opened Ids
  import opened Roles
  import opened Users
  import PS = ProviderServiceModel

  predicate IsProvider(users: UserTable, id: UserId) {
    id in users && users[id].profile.ProviderProfile?
  }

  /** The update's three rejection tests: a present value that differs from
      the provider's own and that some user holds. */
  predicate UsernameClash(users: UserTable, u: User, form: UserForm) {
    NewValue(form.username, u.username) && UsernameTaken(users, form.username.value)
  }

  predicate EmailClash(users: UserTable, u: User, form: UserForm) {
    NewValue(form.email, u.email) && EmailTaken(users, form.email.value)
  }

  predicate PhoneClash(users: UserTable, u: User, form: UserForm) {
    NewValue(form.phoneNumber, u.phoneNumber) && PhoneTaken(users, form.phoneNumber.value)
  }

  /** The provider updateServiceProvider saves, or its first error. Username,
      email and phone number change only to a present value that differs from
      the current one and that no user at all holds; password only to a
      non-empty value; business name and address when given. A supplied image
      replaces the old one, and an update without an image removes it. */
  function ProviderUpdate(users: UserTable, u: User, form: UserForm): (r: Result<User, UserError>)
    requires u.profile.ProviderProfile?
    ensures r.Ok? ==> r.value.id == u.id && r.value.role == u.role && r.value.profile.ProviderProfile?
    ensures r.Ok? ==> r.value.image == form.image
    ensures r.Err? ==> r.error in {UsernameExists, EmailExists, PhoneExists}
    // the rejections, first failing test first, against every user
    ensures r == Err(UsernameExists) <==> UsernameClash(users, u, form)
    ensures r == Err(EmailExists) <==> !UsernameClash(users, u, form) && EmailClash(users, u, form)
    ensures r == Err(PhoneExists) <==>
      !UsernameClash(users, u, form) && !EmailClash(users, u, form) && PhoneClash(users, u, form)
    // a changed username, email or phone number is one nobody held
    ensures r.Ok? && r.value.username != u.username ==> !UsernameTaken(users, r.value.username)
    ensures r.Ok? && r.value.email != u.email ==> !EmailTaken(users, r.value.email)
    ensures r.Ok? && r.value.phoneNumber != u.phoneNumber ==> !PhoneTaken(users, r.value.phoneNumber)
    // the fields: a non-null value is taken, a null one keeps the old value
    ensures r.Ok? ==>
      && r.value.username == KeepUnlessGiven(form.username, u.username)
      && r.value.email == KeepUnlessGiven(form.email, u.email)
      && r.value.phoneNumber == KeepUnlessGiven(form.phoneNumber, u.phoneNumber)
      && r.value.address == (if form.address.Some? then form.address else u.address)
      && r.value.profile.businessName == (if form.businessName.Some? then form.businessName else u.profile.businessName)
    // the password is replaced only by a non-empty one, and stored encoded
    ensures r.Ok? ==>
      r.value.password == (if form.password.Some? && form.password.value != "" then Encoded(form.password.value) else u.password)
  {
    if NewValue(form.username, u.username) && UsernameTaken(users, form.username.value) then Err(UsernameExists)
    else if NewValue(form.email, u.email) && EmailTaken(users, form.email.value) then Err(EmailExists)
    else if NewValue(form.phoneNumber, u.phoneNumber) && PhoneTaken(users, form.phoneNumber.value) then Err(PhoneExists)
    else
      Ok(u.(
        username := KeepUnlessGiven(form.username, u.username),
        email := KeepUnlessGiven(form.email, u.email),
        phoneNumber := KeepUnlessGiven(form.phoneNumber, u.phoneNumber),
        password := if form.password.Some? && form.password.value != "" then Encoded(form.password.value) else u.password,
        address := if form.address.Some? then form.address else u.address,
        image := form.image,
        profile := ProviderProfile(if form.businessName.Some? then form.businessName else u.profile.businessName)))
  }

  /** A successful update keeps usernames and emails unique. */
  lemma ProviderUpdateKeepsUnique(users: UserTable, id: UserId, form: UserForm)
    requires UsersValid(users) && IsProvider(users, id)
    ensures var r := ProviderUpdate(users, users[id], form);
      r.Ok? ==> UsersValid(users[id := r.value])
  {
    var r := ProviderUpdate(users, users[id], form);
    if r.Ok? {
      if NewValue(form.username, users[id].username) {
        TakenByAnyoneIsTakenByOther(users, id, form.username.value);
      }
      if NewValue(form.email, users[id].email) {
        TakenByAnyoneIsTakenByOther(users, id, form.email.value);
      }
      if NewValue(form.phoneNumber, users[id].phoneNumber) {
        TakenByAnyoneIsTakenByOther(users, id, form.phoneNumber.value);
      }
      UpdateKeepsUnique(users, id, r.value);
    }
  }

  class ServiceProviderService {
    const repo: UserRepository

    constructor (repo: UserRepository)
      ensures this.repo == repo
    {
      this.repo := repo;
    }

    /** registerServiceProvider: rejects a used username, email or phone
        number, in that order; saves the provider with ROLE_SERVICE_PROVIDER. */
    method RegisterServiceProvider(form: Registration, roles: RoleTable) returns (r: Result<UserId, UserError>)
      requires repo.Valid()
      modifies repo
      ensures repo.Valid()
      ensures var check := RegistrationCheck(old(repo.users), form);
        var role := RoleFor(roles, "ROLE_SERVICE_PROVIDER");
        if check.Fail? then r == Err(check.error) && repo.users == old(repo.users)
        else if role.Err? then r == Err(role.error) && repo.users == old(repo.users)
        else
          && r == Ok(old(repo.nextId))
          && repo.users == old(repo.users)[r.value := User(r.value, form.username, form.email, Encoded(form.password),
               form.phoneNumber, form.image, form.address, role.value, ProviderProfile(form.businessName))]
    {
      var check := RegistrationCheck(repo.users, form);
      if check.Fail? {
        r := Err(check.error);
        return;
      }
      var role := RoleFor(roles, "ROLE_SERVICE_PROVIDER");
      if role.Err? {
        r := Err(role.error);
        return;
      }
      var provider := User(0, form.username, form.email, Encoded(form.password), form.phoneNumber,
                           form.image, form.address, role.value, ProviderProfile(form.businessName));
      var id := repo.Insert(provider);
      r := Ok(id);
    }

    /** updateServiceProvider, field by field as ProviderUpdate describes. */
    method UpdateServiceProvider(id: UserId, form: UserForm) returns (r: Outcome<UserError>)
      requires repo.Valid()
      modifies repo
      ensures repo.Valid() && repo.nextId == old(repo.nextId)
      ensures !IsProvider(old(repo.users), id) ==> r == Fail(UserNotFound) && repo.users == old(repo.users)
      ensures IsProvider(old(repo.users), id) ==>
        var res := ProviderUpdate(old(repo.users), old(repo.users)[id], form);
        && (res.Err? ==> r == Fail(res.error) && repo.users == old(repo.users))
        && (res.Ok? ==> r == Pass && repo.users == old(repo.users)[id := res.value])
    {
      if !IsProvider(repo.users, id) {
        r := Fail(UserNotFound);
        return;
      }
      var u := repo.users[id];
      ghost var spec := ProviderUpdate(repo.users, u, form);
      if NewValue(form.username, u.username) {
        if UsernameTaken(repo.users, form.username.value) {
          r := Fail(UsernameExists);
          return;
        }
        u := u.(username := form.username.value);
      }
      if NewValue(form.email, u.email) {
        if EmailTaken(repo.users, form.email.value) {
          r := Fail(EmailExists);
          return;
        }
        u := u.(email := form.email.value);
      }
      if NewValue(form.phoneNumber, u.phoneNumber) {
        if PhoneTaken(repo.users, form.phoneNumber.value) {
          r := Fail(PhoneExists);
          return;
        }
        u := u.(phoneNumber := form.phoneNumber.value);
      }
      if form.password.Some? && form.password.value != "" {
        u := u.(password := Encoded(form.password.value));
      }
      if form.businessName.Some? {
        u := u.(profile := ProviderProfile(form.businessName));
      }
      if form.address.Some? {
        u := u.(address := form.address);
      }
      if form.image.Some? {
        u := u.(image := form.image);
      } else if u.image.Some? {
        u := u.(image := None);
      }
      assert spec == Ok(u);
      ProviderUpdateKeepsUnique(repo.users, id, form);
      repo.users := repo.users[id := u];
      r := Pass;
    }

    /** getServiceProviderById: the provider, or null. */
    function GetServiceProviderById(id: UserId): (r: Option<User>)
      reads repo
      ensures r.Some? <==> IsProvider(repo.users, id)
      ensures r.Some? ==> r.value == repo.users[id]
    {
      if IsProvider(repo.users, id) then Some(repo.users[id]) else None
    }

    /** getProviderServices: the ids of the catalog entries the provider offers. */
    function GetProviderServices(id: UserId, catalog: PS.Catalog): (r: Result<set<ServiceId>, UserError>)
      reads repo
      ensures r.Err? <==> !IsProvider(repo.users, id)
      ensures r.Err? ==> r.error == UserNotFound
      ensures r.Ok? ==> forall s :: s in r.value <==> s in catalog && catalog[s].serviceProvider == Some(id)
    {
      if !IsProvider(repo.users, id) then Err(UserNotFound)
      else Ok(set s | s in catalog && catalog[s].serviceProvider == Some(id))
    }

    /** getServiceProviderImage: the stored image name; an unknown provider and
        a provider without an image are errors, in that order. */
    function GetServiceProviderImage(id: UserId): (r: Result<string, UserError>)
      reads repo
      ensures !IsProvider(repo.users, id) ==> r == Err(UserNotFound)
      ensures IsProvider(repo.users, id) && repo.users[id].image == None ==> r == Err(NoProfileImage)
      ensures r.Ok? ==> IsProvider(repo.users, id) && repo.users[id].image == Some(r.value)
    {
      if !IsProvider(repo.users, id) then Err(UserNotFound)
      else if repo.users[id].image.None? then Err(NoProfileImage)
      else Ok(repo.users[id].image.value)
    }
  }
}
