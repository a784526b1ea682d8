/** service/CustomerService.java: customer registration, profile update and lookup. */
module CustomerAccounts {
  import opened Wrappers
  import opened Ids
  import opened Events
  import opened Roles
  import opened Users

  predicate IsCustomer(users: UserTable, id: UserId) {
    id in users && users[id].profile.CustomerProfile?
  }

  /** The update's three rejection tests: a present, non-empty value that
      differs from the customer's own and that another user holds. */
  predicate UsernameClash(users: UserTable, c: User, form: UserForm) {
    NewNonEmptyValue(form.username, c.username) && UsernameTakenByOther(users, form.username.value, c.id)
  }

  predicate EmailClash(users: UserTable, c: User, form: UserForm) {
    NewNonEmptyValue(form.email, c.email) && EmailTakenByOther(users, form.email.value, c.id)
  }

  predicate PhoneClash(users: UserTable, c: User, form: UserForm) {
    NewNonEmptyValue(form.phoneNumber, c.phoneNumber) && PhoneTakenByOther(users, form.phoneNumber.value, c.id)
  }

  /** The customer updateCustomer saves, or its first error. Username, email
      and phone number change only to a non-empty value that differs from the
      current one and that no other user holds; password, address and full
      name only to a non-empty value; date of birth and image when given. */
  function CustomerUpdate(users: UserTable, c: User, form: UserForm): (r: Result<User, UserError>)
    requires c.profile.CustomerProfile?
    ensures r.Ok? ==> r.value.id == c.id && r.value.role == c.role && r.value.profile.CustomerProfile?
    ensures r.Err? ==> r.error in {UsernameExists, EmailExists, PhoneExists}
    // the rejections, first failing test first, against the other users
    ensures r == Err(UsernameExists) <==> UsernameClash(users, c, form)
    ensures r == Err(EmailExists) <==> !UsernameClash(users, c, form) && EmailClash(users, c, form)
    ensures r == Err(PhoneExists) <==>
      !UsernameClash(users, c, form) && !EmailClash(users, c, form) && PhoneClash(users, c, form)
    // a changed username, email or phone number is non-empty and one no other user held
    ensures r.Ok? && r.value.username != c.username ==> r.value.username != "" && !UsernameTakenByOther(users, r.value.username, c.id)
    ensures r.Ok? && r.value.email != c.email ==> r.value.email != "" && !EmailTakenByOther(users, r.value.email, c.id)
    ensures r.Ok? && r.value.phoneNumber != c.phoneNumber ==>
      r.value.phoneNumber != "" && !PhoneTakenByOther(users, r.value.phoneNumber, c.id)
    // the fields: a non-null, non-empty value is taken, otherwise the old value stays
    ensures r.Ok? ==>
      && r.value.username == KeepUnlessNonEmpty(form.username, c.username)
      && r.value.email == KeepUnlessNonEmpty(form.email, c.email)
      && r.value.phoneNumber == KeepUnlessNonEmpty(form.phoneNumber, c.phoneNumber)
      && r.value.address == (if form.address.Some? && form.address.value != "" then form.address else c.address)
      && r.value.profile.fullName == (if form.fullName.Some? && form.fullName.value != "" then form.fullName else c.profile.fullName)
      && r.value.password == (if form.password.Some? && form.password.value != "" then Encoded(form.password.value) else c.password)
    // date of birth and image: a non-null value is taken
    ensures r.Ok? ==>
      && r.value.profile.dateOfBirth == (if form.dateOfBirth.Some? then form.dateOfBirth else c.profile.dateOfBirth)
      && r.value.image == (if form.image.Some? then form.image else c.image)
  {
    if NewNonEmptyValue(form.username, c.username) && UsernameTakenByOther(users, form.username.value, c.id)
    then Err(UsernameExists)
    else if NewNonEmptyValue(form.email, c.email) && EmailTakenByOther(users, form.email.value, c.id)
    then Err(EmailExists)
    else if NewNonEmptyValue(form.phoneNumber, c.phoneNumber) && PhoneTakenByOther(users, form.phoneNumber.value, c.id)
    then Err(PhoneExists)
    else
      Ok(c.(
        username := KeepUnlessNonEmpty(form.username, c.username),
        email := KeepUnlessNonEmpty(form.email, c.email),
        phoneNumber := KeepUnlessNonEmpty(form.phoneNumber, c.phoneNumber),
        password := if form.password.Some? && form.password.value != "" then Encoded(form.password.value) else c.password,
        address := if form.address.Some? && form.address.value != "" then form.address else c.address,
        image := if form.image.Some? then form.image else c.image,
        profile := CustomerProfile(
          if form.dateOfBirth.Some? then form.dateOfBirth else c.profile.dateOfBirth,
          if form.fullName.Some? && form.fullName.value != "" then form.fullName else c.profile.fullName)))
  }

  /** A successful update keeps usernames and emails unique. */
  lemma CustomerUpdateKeepsUnique(users: UserTable, id: UserId, form: UserForm)
    requires UsersValid(users) && IsCustomer(users, id)
    ensures var r := CustomerUpdate(users, users[id], form);
      r.Ok? ==> UsersValid(users[id := r.value])
  {
    var r := CustomerUpdate(users, users[id], form);
    if r.Ok? {
      UpdateKeepsUnique(users, id, r.value);
    }
  }

  /** An update whose fields are all null or empty changes nothing. */
  lemma EmptyFormChangesNothing(users: UserTable, c: User)
    requires c.profile.CustomerProfile?
    ensures CustomerUpdate(users, c, UserForm(None, None, None, None, None, None, None, None, None)) == Ok(c)
    ensures CustomerUpdate(users, c, UserForm(Some(""), Some(""), Some(""), Some(""), Some(""), None, None, Some(""), None)) == Ok(c)
  {
  }

  class CustomerService {
    const repo: UserRepository
    const log: EventLog

    constructor (repo: UserRepository, log: EventLog)
      ensures this.repo == repo && this.log == log
    {
      this.repo := repo;
      this.log := log;
    }

    /** registerCustomer: rejects a used username, email or phone number, in
        that order; saves the customer with ROLE_CUSTOMER and the encoded
        password; then notifies every admin once. A failing notification
        rolls the registration back. */
    method RegisterCustomer(form: Registration, roles: RoleTable, noticeFails: bool)
      returns (r: Result<UserId, UserError>)
      requires repo.Valid()
      modifies repo, log
      ensures repo.Valid()
      ensures var check := RegistrationCheck(old(repo.users), form);
        var role := RoleFor(roles, "ROLE_CUSTOMER");
        var admins := old(repo.AdminIds());
        if check.Fail? then
          r == Err(check.error) && repo.users == old(repo.users) && log.events == old(log.events)
        else if role.Err? then
          r == Err(role.error) && repo.users == old(repo.users) && log.events == old(log.events)
        else if noticeFails && admins != {} then
          r == Err(NotificationFailed) && repo.users == old(repo.users) && log.events == old(log.events)
        else
          && r == Ok(old(repo.nextId))
          && repo.users == old(repo.users)[r.value := User(r.value, form.username, form.email, Encoded(form.password),
               form.phoneNumber, form.image, form.address, role.value, CustomerProfile(form.dateOfBirth, form.fullName))]
          && AdminsNotifiedOnce(log.events, old(log.events), admins)
    {
      var check := RegistrationCheck(repo.users, form);
      if check.Fail? {
        r := Err(check.error);
        return;
      }
      var role := RoleFor(roles, "ROLE_CUSTOMER");
      if role.Err? {
        r := Err(role.error);
        return;
      }
      var admins := repo.AdminIds();
      if noticeFails && admins != {} {
        r := Err(NotificationFailed);
        return;
      }
      var customer := User(0, form.username, form.email, Encoded(form.password), form.phoneNumber,
                           form.image, form.address, role.value, CustomerProfile(form.dateOfBirth, form.fullName));
      var id := repo.Insert(customer);
      NotifyAdmins(admins);
      r := Ok(id);
    }

    /** The loop over findAllAdmins(): one ACCOUNT_CREATED notice per admin. */
    method NotifyAdmins(admins: set<UserId>)
      modifies log
      ensures AdminsNotifiedOnce(log.events, old(log.events), admins)
    {
      var rest := admins;
      ghost var sent: set<UserId> := {};
      ghost var added: seq<Event> := [];
      while rest != {}
        invariant rest + sent == admins && rest !! sent
        invariant log.events == old(log.events) + added
        invariant |added| == |sent|
        invariant forall e :: e in added ==> e.Notified? && e.recipientId in sent && e == Notified(e.recipientId, Admin, AccountCreated)
        invariant forall a :: a in sent ==> Notified(a, Admin, AccountCreated) in added
        decreases rest
      {
        var a := Pick(rest);
        log.events := log.events + [Notified(a, Admin, AccountCreated)];
        added := added + [Notified(a, Admin, AccountCreated)];
        rest := rest - {a};
        sent := sent + {a};
      }
      assert log.events[|old(log.events)|..] == added;
    }

    /** getCustomerInfo: the customer as a one-element list, or an error. */
    function GetCustomerInfo(id: UserId): (r: Result<seq<User>, UserError>)
      reads repo
      ensures r.Ok? <==> IsCustomer(repo.users, id)
      ensures r.Ok? ==> r.value == [repo.users[id]]
      ensures r.Err? ==> r.error == UserNotFound
    {
      if IsCustomer(repo.users, id) then Ok([repo.users[id]]) else Err(UserNotFound)
    }

    /** updateCustomer: applies the form field by field, as CustomerUpdate
        describes; a rejected field leaves the row as it was. */
    method UpdateCustomer(id: UserId, form: UserForm) returns (r: Outcome<UserError>)
      requires repo.Valid()
      modifies repo
      ensures repo.Valid() && repo.nextId == old(repo.nextId)
      ensures !IsCustomer(old(repo.users), id) ==> r == Fail(UserNotFound) && repo.users == old(repo.users)
      ensures IsCustomer(old(repo.users), id) ==>
        var res := CustomerUpdate(old(repo.users), old(repo.users)[id], form);
        && (res.Err? ==> r == Fail(res.error) && repo.users == old(repo.users))
        && (res.Ok? ==> r == Pass && repo.users == old(repo.users)[id := res.value])
    {
      if !IsCustomer(repo.users, id) {
        r := Fail(UserNotFound);
        return;
      }
      var c := repo.users[id];
      ghost var spec := CustomerUpdate(repo.users, c, form);
      var username, email, phoneNumber := c.username, c.email, c.phoneNumber;
      if NewNonEmptyValue(form.username, c.username) {
        if UsernameTakenByOther(repo.users, form.username.value, id) {
          r := Fail(UsernameExists);
          return;
        }
        username := form.username.value;
      }
      if NewNonEmptyValue(form.email, c.email) {
        if EmailTakenByOther(repo.users, form.email.value, id) {
          r := Fail(EmailExists);
          return;
        }
        email := form.email.value;
      }
      if NewNonEmptyValue(form.phoneNumber, c.phoneNumber) {
        if PhoneTakenByOther(repo.users, form.phoneNumber.value, id) {
          r := Fail(PhoneExists);
          return;
        }
        phoneNumber := form.phoneNumber.value;
      }
      var password, address, image := c.password, c.address, c.image;
      var dateOfBirth, fullName := c.profile.dateOfBirth, c.profile.fullName;
      if form.password.Some? && form.password.value != "" {
        password := Encoded(form.password.value);
      }
      if form.address.Some? && form.address.value != "" {
        address := form.address;
      }
      if form.fullName.Some? && form.fullName.value != "" {
        fullName := form.fullName;
      }
      if form.image.Some? {
        image := form.image;
      }
      if form.dateOfBirth.Some? {
        dateOfBirth := form.dateOfBirth;
      }
      c := c.(username := username, email := email, phoneNumber := phoneNumber, password := password,
              address := address, image := image, profile := CustomerProfile(dateOfBirth, fullName));
      assert spec == Ok(c);
      CustomerUpdateKeepsUnique(repo.users, id, form);
      repo.users := repo.users[id := c];
      r := Pass;
    }
  }

  /** `after` is `before` followed by exactly one ACCOUNT_CREATED notification
      for each admin of `admins`, and nothing else. */
  ghost predicate AdminsNotifiedOnce(after: seq<Event>, before: seq<Event>, admins: set<UserId>) {
    && |before| <= |after| && after[..|before|] == before
    && var added := after[|before|..];
    && |added| == |admins|
    && (forall e :: e in added ==> e.Notified? && e.recipientId in admins && e == Notified(e.recipientId, Admin, AccountCreated))
    && (forall a :: a in admins ==> Notified(a, Admin, AccountCreated) in added)
  }
}
