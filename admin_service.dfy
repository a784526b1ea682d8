/** service/AdminService.java: the platform's commission on completed
    bookings, and admin registration and profile update. */
module AdminAccounts {
  import opened Wrappers
  import opened Ids
  import opened Money
  import opened Roles
  import opened Users
  import opened BookingModel

  const ADMIN_PERCENTAGE: real := 0.20

  /** What a booking is worth to the platform: the discounted price when a
      discount was applied, otherwise the original price; either may be null. */
  function EffectivePrice(b: ServiceBooking): Option<real> {
    if b.discountApplied then b.discountedPrice else b.originalPrice
  }

  /** findAllCompletedBookings over the bookings `rows`, in row order. */
  function CompletedOnly(rows: seq<ServiceBooking>): (r: seq<ServiceBooking>)
    ensures forall b :: b in r <==> b in rows && b.status == Completed
    ensures |r| <= |rows|
    decreases |rows|
  {
    if rows == [] then []
    else
      var rest := CompletedOnly(rows[..|rows| - 1]);
      var last := rows[|rows| - 1];
      assert rows == rows[..|rows| - 1] + [last];
      if last.status == Completed then rest + [last] else rest
  }

  /** The sum of the non-null effective prices of `xs`. */
  function TotalServiceValue(xs: seq<ServiceBooking>): real
    decreases |xs|
  {
    if xs == [] then 0.0
    else
      var p := EffectivePrice(xs[|xs| - 1]);
      TotalServiceValue(xs[..|xs| - 1]) + (if p.Some? then p.value else 0.0)
  }

  /** calculateAdminEarnings as a value: 20% of the completed bookings' total,
      rounded half-up to cents. */
  function AdminEarnings(rows: seq<ServiceBooking>): real {
    RoundHalfUp2(TotalServiceValue(CompletedOnly(rows)) * ADMIN_PERCENTAGE)
  }

  /** The total splits over a concatenation. */
  lemma {:induction false} TotalAppend(xs: seq<ServiceBooking>, ys: seq<ServiceBooking>)
    ensures TotalServiceValue(xs + ys) == TotalServiceValue(xs) + TotalServiceValue(ys)
    decreases |ys|
  {
    if ys == [] {
      assert xs + ys == xs;
    } else {
      var init := ys[..|ys| - 1];
      assert (xs + ys)[..|xs + ys| - 1] == xs + init;
      TotalAppend(xs, init);
    }
  }

  /** With non-negative prices the total is non-negative. */
  lemma {:induction false} TotalNonNegative(xs: seq<ServiceBooking>)
    requires forall b :: b in xs && EffectivePrice(b).Some? ==> EffectivePrice(b).value >= 0.0
    ensures TotalServiceValue(xs) >= 0.0
    decreases |xs|
  {
    if xs != [] {
      assert xs[|xs| - 1] in xs;
      TotalNonNegative(xs[..|xs| - 1]);
    }
  }

  /** Earnings are 0.00 without completed bookings, and never negative when
      no completed booking has a negative price. */
  lemma EarningsBounds(rows: seq<ServiceBooking>)
    ensures CompletedOnly(rows) == [] ==> AdminEarnings(rows) == 0.0
    ensures (forall b :: b in rows && b.status == Completed && EffectivePrice(b).Some? ==> EffectivePrice(b).value >= 0.0)
            ==> AdminEarnings(rows) >= 0.0
  {
    RoundCentsIdentity(0.0);
    var cs := CompletedOnly(rows);
    if forall b :: b in rows && b.status == Completed && EffectivePrice(b).Some? ==> EffectivePrice(b).value >= 0.0 {
      TotalNonNegative(cs);
      RoundMonotone(0.0, TotalServiceValue(cs) * ADMIN_PERCENTAGE);
    }
  }

  /** A booking that is not COMPLETED never changes the earnings; a completed
      one adds its effective price to the total. */
  lemma {:induction false} OnlyCompletedContribute(rows: seq<ServiceBooking>, b: ServiceBooking)
    ensures b.status != Completed ==> AdminEarnings(rows + [b]) == AdminEarnings(rows)
    ensures b.status == Completed ==>
      TotalServiceValue(CompletedOnly(rows + [b]))
      == TotalServiceValue(CompletedOnly(rows)) + (if EffectivePrice(b).Some? then EffectivePrice(b).value else 0.0)
  {
    CompletedOnlyAppend(rows, b);
    if b.status == Completed {
      TotalAppend(CompletedOnly(rows), [b]);
    }
  }

  lemma CompletedOnlyAppend(rows: seq<ServiceBooking>, b: ServiceBooking)
    ensures CompletedOnly(rows + [b]) == CompletedOnly(rows) + (if b.status == Completed then [b] else [])
  {
    assert (rows + [b])[..|rows + [b]| - 1] == rows;
  }

  /** The commission loop: sums the effective prices of the completed
      bookings, skipping null ones, and takes 20% rounded to cents. */
  method CalculateAdminEarnings(rows: seq<ServiceBooking>) returns (earnings: real)
    ensures earnings == AdminEarnings(rows)
  {
    var completed := CompletedOnly(rows);
    var total := 0.0;
    var i := 0;
    while i < |completed|
      invariant 0 <= i <= |completed|
      invariant total == TotalServiceValue(completed[..i])
    {
      var b := completed[i];
      var price := if b.discountApplied then b.discountedPrice else b.originalPrice;
      if price.Some? {
        total := total + price.value;
      }
      assert completed[..i + 1][..i] == completed[..i];
      i := i + 1;
    }
    assert completed[..i] == completed;
    earnings := RoundHalfUp2(total * 0.20);
  }

  predicate IsAdmin(users: UserTable, id: UserId) {
    id in users && users[id].profile.AdminProfile?
  }

  /** The update's three rejection tests: a present value that differs from
      the admin's own and that another user holds. */
  predicate UsernameClash(users: UserTable, a: User, form: UserForm) {
    NewValue(form.username, a.username) && UsernameTakenByOther(users, form.username.value, a.id)
  }

  predicate EmailClash(users: UserTable, a: User, form: UserForm) {
    NewValue(form.email, a.email) && EmailTakenByOther(users, form.email.value, a.id)
  }

  predicate PhoneClash(users: UserTable, a: User, form: UserForm) {
    NewValue(form.phoneNumber, a.phoneNumber) && PhoneTakenByOther(users, form.phoneNumber.value, a.id)
  }

  /** The admin updateAdmin saves, or its first error. Username, email and
      phone number change only to a present value that differs from the
      current one and that no other user holds; the password only to a
      non-empty value; full name, address and date of birth when given; the
      image when one is uploaded. The earnings are always recomputed. */
  function AdminUpdate(users: UserTable, a: User, form: UserForm, earnings: real): (r: Result<User, UserError>)
    requires a.profile.AdminProfile?
    ensures r.Ok? ==> r.value.id == a.id && r.value.role == a.role && r.value.profile.AdminProfile?
    ensures r.Ok? ==> r.value.profile.earnings == Some(earnings) && r.value.profile.department == a.profile.department
    ensures r.Err? ==> r.error in {UsernameExists, EmailExists, PhoneExists}
    // the rejections, first failing test first, against the other users
    ensures r == Err(UsernameExists) <==> UsernameClash(users, a, form)
    ensures r == Err(EmailExists) <==> !UsernameClash(users, a, form) && EmailClash(users, a, form)
    ensures r == Err(PhoneExists) <==>
      !UsernameClash(users, a, form) && !EmailClash(users, a, form) && PhoneClash(users, a, form)
    // a changed username, email or phone number is one no other user held
    ensures r.Ok? && r.value.username != a.username ==> !UsernameTakenByOther(users, r.value.username, a.id)
    ensures r.Ok? && r.value.email != a.email ==> !EmailTakenByOther(users, r.value.email, a.id)
    ensures r.Ok? && r.value.phoneNumber != a.phoneNumber ==> !PhoneTakenByOther(users, r.value.phoneNumber, a.id)
    // the fields: a non-null value is taken, a null one keeps the old value
    ensures r.Ok? ==>
      && r.value.username == KeepUnlessGiven(form.username, a.username)
      && r.value.email == KeepUnlessGiven(form.email, a.email)
      && r.value.phoneNumber == KeepUnlessGiven(form.phoneNumber, a.phoneNumber)
      && r.value.address == (if form.address.Some? then form.address else a.address)
      && r.value.image == (if form.image.Some? then form.image else a.image)
      && r.value.profile.dateOfBirth == (if form.dateOfBirth.Some? then form.dateOfBirth else a.profile.dateOfBirth)
      && r.value.profile.fullName == (if form.fullName.Some? then form.fullName else a.profile.fullName)
    // the password is replaced only by a non-empty one, and stored encoded
    ensures r.Ok? ==>
      r.value.password == (if form.password.Some? && form.password.value != "" then Encoded(form.password.value) else a.password)
  {
    if NewValue(form.username, a.username) && UsernameTakenByOther(users, form.username.value, a.id) then Err(UsernameExists)
    else if NewValue(form.email, a.email) && EmailTakenByOther(users, form.email.value, a.id) then Err(EmailExists)
    else if NewValue(form.phoneNumber, a.phoneNumber) && PhoneTakenByOther(users, form.phoneNumber.value, a.id) then Err(PhoneExists)
    else
      Ok(a.(
        username := KeepUnlessGiven(form.username, a.username),
        email := KeepUnlessGiven(form.email, a.email),
        phoneNumber := KeepUnlessGiven(form.phoneNumber, a.phoneNumber),
        password := if form.password.Some? && form.password.value != "" then Encoded(form.password.value) else a.password,
        address := if form.address.Some? then form.address else a.address,
        image := if form.image.Some? then form.image else a.image,
        profile := AdminProfile(
          if form.dateOfBirth.Some? then form.dateOfBirth else a.profile.dateOfBirth,
          if form.fullName.Some? then form.fullName else a.profile.fullName,
          a.profile.department,
          Some(earnings))))
  }

  /** A successful update keeps usernames and emails unique. */
  lemma AdminUpdateKeepsUnique(users: UserTable, id: UserId, form: UserForm, earnings: real)
    requires UsersValid(users) && IsAdmin(users, id)
    ensures var r := AdminUpdate(users, users[id], form, earnings);
      r.Ok? ==> UsersValid(users[id := r.value])
  {
    var r := AdminUpdate(users, users[id], form, earnings);
    if r.Ok? {
      UpdateKeepsUnique(users, id, r.value);
    }
  }

  /** A form of nulls changes nothing but the earnings. */
  lemma NullFormOnlyRefreshesEarnings(users: UserTable, a: User, earnings: real)
    requires a.profile.AdminProfile?
    ensures AdminUpdate(users, a, UserForm(None, None, None, None, None, None, None, None, None), earnings)
         == Ok(a.(profile := a.profile.(earnings := Some(earnings))))
  {
  }

  class AdminService {
    const repo: UserRepository

    constructor (repo: UserRepository)
      ensures this.repo == repo
    {
      this.repo := repo;
    }

    /** registerAdmin: rejects a used username, email or phone number, in
        that order; saves the admin with ROLE_ADMIN. Department and earnings
        are not set. */
    method RegisterAdmin(form: Registration, roles: RoleTable) returns (r: Result<UserId, UserError>)
      requires repo.Valid()
      modifies repo
      ensures repo.Valid()
      ensures var check := RegistrationCheck(old(repo.users), form);
        var role := RoleFor(roles, "ROLE_ADMIN");
        if check.Fail? then r == Err(check.error) && repo.users == old(repo.users)
        else if role.Err? then r == Err(role.error) && repo.users == old(repo.users)
        else
          && r == Ok(old(repo.nextId))
          && repo.users == old(repo.users)[r.value := User(r.value, form.username, form.email, Encoded(form.password),
               form.phoneNumber, form.image, form.address, role.value,
               AdminProfile(form.dateOfBirth, form.fullName, None, None))]
    {
      var check := RegistrationCheck(repo.users, form);
      if check.Fail? {
        r := Err(check.error);
        return;
      }
      var role := RoleFor(roles, "ROLE_ADMIN");
      if role.Err? {
        r := Err(role.error);
        return;
      }
      var admin := User(0, form.username, form.email, Encoded(form.password), form.phoneNumber,
                        form.image, form.address, role.value, AdminProfile(form.dateOfBirth, form.fullName, None, None));
      var id := repo.Insert(admin);
      r := Ok(id);
    }

    /** updateAdmin, field by field as AdminUpdate describes, with the
        earnings recomputed over the bookings `rows`. */
    method UpdateAdmin(id: UserId, form: UserForm, rows: seq<ServiceBooking>) returns (r: Outcome<UserError>)
      requires repo.Valid()
      modifies repo
      ensures repo.Valid() && repo.nextId == old(repo.nextId)
      ensures !IsAdmin(old(repo.users), id) ==> r == Fail(UserNotFound) && repo.users == old(repo.users)
      ensures IsAdmin(old(repo.users), id) ==>
        var res := AdminUpdate(old(repo.users), old(repo.users)[id], form, AdminEarnings(rows));
        && (res.Err? ==> r == Fail(res.error) && repo.users == old(repo.users))
        && (res.Ok? ==> r == Pass && repo.users == old(repo.users)[id := res.value])
    {
      if !IsAdmin(repo.users, id) {
        r := Fail(UserNotFound);
        return;
      }
      var a := repo.users[id];
      ghost var spec := AdminUpdate(repo.users, a, form, AdminEarnings(rows));
      var username, email, phoneNumber := a.username, a.email, a.phoneNumber;
      if NewValue(form.username, a.username) {
        if UsernameTakenByOther(repo.users, form.username.value, id) {
          r := Fail(UsernameExists);
          return;
        }
        username := form.username.value;
      }
      if NewValue(form.email, a.email) {
        if EmailTakenByOther(repo.users, form.email.value, id) {
          r := Fail(EmailExists);
          return;
        }
        email := form.email.value;
      }
      if NewValue(form.phoneNumber, a.phoneNumber) {
        if PhoneTakenByOther(repo.users, form.phoneNumber.value, id) {
          r := Fail(PhoneExists);
          return;
        }
        phoneNumber := form.phoneNumber.value;
      }
      var password, address, image := a.password, a.address, a.image;
      var fullName, dateOfBirth := a.profile.fullName, a.profile.dateOfBirth;
      if form.password.Some? && form.password.value != "" {
        password := Encoded(form.password.value);
      }
      if form.fullName.Some? {
        fullName := form.fullName;
      }
      if form.address.Some? {
        address := form.address;
      }
      if form.dateOfBirth.Some? {
        dateOfBirth := form.dateOfBirth;
      }
      if form.image.Some? {
        image := form.image;
      }
      var earnings := CalculateAdminEarnings(rows);
      a := a.(username := username, email := email, phoneNumber := phoneNumber, password := password,
              address := address, image := image,
              profile := AdminProfile(dateOfBirth, fullName, a.profile.department, Some(earnings)));
      assert spec == Ok(a);
      AdminUpdateKeepsUnique(repo.users, id, form, earnings);
      repo.users := repo.users[id := a];
      r := Pass;
    }
  }
}
