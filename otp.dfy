/** service/OTPVerificationService.java over model/OTPVerification.java:
    registration waits on a six-digit code mailed to the new address. */
module OtpVerification {
  import opened Wrappers
  import opened Ids
  import opened Events
  import opened Users

  const OTP_LENGTH: nat := 6
  const OTP_EXPIRY_MINUTES: nat := 10
  /** The validity window in clock units (seconds). */
  const OTP_EXPIRY_SECONDS: nat := OTP_EXPIRY_MINUTES * 60

  /** OTPVerification.UserType. */
  datatype OtpUserType = CustomerOtp | ServiceProviderOtp

  /** One row of `otp_verifications`; `data` is the registration the
      record's JSON column holds. */
  datatype OtpRecord = OtpRecord(
    id: int,
    email: string,
    otp: string,
    createdAt: Instant,
    expiresAt: Instant,
    verified: bool,
    data: Registration,
    userType: OtpUserType)

  type OtpTable = map<int, OtpRecord>

  datatype OtpError = InvalidOtp | OtpExpired | WrongUserType

  /** The exception messages verifyOTP throws. */
  function Message(e: OtpError): string {
    match e
    case InvalidOtp => "Invalid OTP"
    case OtpExpired => "OTP has expired"
    case WrongUserType => "Invalid user type for OTP"
  }

  /** The message the verify wrappers rethrow. */
  function VerificationFailure(e: OtpError): (m: string)
    ensures |m| > 25 && m[..25] == "OTP verification failed: " && m[25..] == Message(e)
  {
    "OTP verification failed: " + Message(e)
  }

  /** The unverified records of `email`: what findByEmailAndVerifiedFalse reads. */
  function OpenFor(t: OtpTable, email: string): set<int> {
    set id | id in t && t[id].email == email && !t[id].verified
  }

  /** The unverified records of `email` holding code `otp`:
      findByEmailAndOtpAndVerifiedFalse. */
  function Matching(t: OtpTable, email: string, otp: string): (r: set<int>)
    ensures r <= OpenFor(t, email)
  {
    set id | id in t && t[id].email == email && t[id].otp == otp && !t[id].verified
  }

  /** Rows keyed by id, and at most one unverified record per address, so
      the two single-result lookups never meet two rows. */
  predicate OtpTableValid(t: OtpTable) {
    && (forall id :: id in t ==> t[id].id == id)
    && (forall a, b :: a in t && b in t && !t[a].verified && !t[b].verified && t[a].email == t[b].email ==> a == b)
  }

  /** deleteExistingOTP. */
  function WithoutOpen(t: OtpTable, email: string): (r: OtpTable)
    ensures forall id :: id in r <==> id in t && id !in OpenFor(t, email)
    ensures forall id :: id in r ==> r[id] == t[id]
    ensures OpenFor(r, email) == {}
  {
    map id | id in t && !(t[id].email == email && !t[id].verified) :: t[id]
  }

  /** The record sendOTP saves under `id` at `now`: unverified, expiring ten
      minutes later. */
  function NewRecord(id: int, data: Registration, otp: string, userType: OtpUserType, now: Instant): (r: OtpRecord)
    ensures !r.verified && r.expiresAt == r.createdAt + 600 && r.email == data.email
  {
    OtpRecord(id, data.email, otp, now, now + OTP_EXPIRY_SECONDS, false, data, userType)
  }

  /** Sending replaces the address's open record by the new one: the store
      stays valid and that record is the only open one for the address. */
  lemma SendReplacesOpenRecord(t: OtpTable, id: int, data: Registration, otp: string, userType: OtpUserType, now: Instant)
    requires OtpTableValid(t) && id !in t
    ensures var after := WithoutOpen(t, data.email)[id := NewRecord(id, data, otp, userType, now)];
      OtpTableValid(after) && OpenFor(after, data.email) == {id}
  {
    var after := WithoutOpen(t, data.email)[id := NewRecord(id, data, otp, userType, now)];
    assert id in OpenFor(after, data.email);
  }

  /** OTPVerification.isExpired(): the clock strictly past expiresAt. */
  predicate IsExpired(r: OtpRecord, now: Instant) {
    now > r.expiresAt
  }

  /** verifyOTP's checks on the record it found: expiry, then user type. */
  function CheckRecord(r: OtpRecord, userType: OtpUserType, now: Instant): (res: Outcome<OtpError>)
    ensures res == Pass <==> !IsExpired(r, now) && r.userType == userType
    ensures IsExpired(r, now) ==> res == Fail(OtpExpired)
  {
    if IsExpired(r, now) then Fail(OtpExpired)
    else if r.userType != userType then Fail(WrongUserType)
    else Pass
  }

  /** A record is good for exactly the ten minutes after it was made. */
  lemma ExpiryWindow(id: int, data: Registration, otp: string, userType: OtpUserType, created: Instant, now: Instant)
    ensures CheckRecord(NewRecord(id, data, otp, userType, created), userType, now) == Pass <==> now <= created + 600
  {
  }

  /** Marking the matched record verified keeps the store valid, and the same
      address and code then match nothing: a code verifies once. */
  lemma VerifiedOnce(t: OtpTable, id: int)
    requires OtpTableValid(t) && id in t && !t[id].verified
    ensures var after := t[id := t[id].(verified := true)];
      OtpTableValid(after) && Matching(after, t[id].email, t[id].otp) == {} && OpenFor(after, t[id].email) == {}
  {
    var after := t[id := t[id].(verified := true)];
    assert forall k :: k in after && k != id ==> after[k] == t[k];
    assert forall k :: k in after && k != id ==> !(after[k].email == t[id].email && !after[k].verified);
    assert forall k :: k !in OpenFor(after, t[id].email);
  }

  /** A valid store has at most one record an (address, code) pair can match. */
  lemma AtMostOneMatch(t: OtpTable, email: string, otp: string, id: int)
    requires OtpTableValid(t) && id in Matching(t, email, otp)
    ensures Matching(t, email, otp) == {id}
  {
    assert forall k :: k in Matching(t, email, otp) ==> k == id;
  }

  /** The registration copies sendOTP stores: a customer's without business
      name, department or image; a provider's without date of birth, full
      name, department or image. */
  function CustomerCopy(r: Registration): Registration {
    r.(image := None, businessName := None, department := None)
  }

  function ProviderCopy(r: Registration): Registration {
    r.(image := None, dateOfBirth := None, fullName := None, department := None)
  }

  /** generateOTP: six draws of Random.nextInt(10), each appended as a digit. */
  method GenerateOtp() returns (otp: string)
    ensures |otp| == OTP_LENGTH
    ensures forall i :: 0 <= i < |otp| ==> '0' <= otp[i] <= '9'
  {
    otp := "";
    var i := 0;
    while i < OTP_LENGTH
      invariant 0 <= i <= OTP_LENGTH && |otp| == i
      invariant forall k :: 0 <= k < |otp| ==> '0' <= otp[k] <= '9'
    {
      var digit: int :| 0 <= digit < 10;
      otp := otp + [('0' as int + digit) as char];
      i := i + 1;
    }
  }

  class OtpService {
    var records: OtpTable
    var nextId: int
    const log: EventLog

    ghost predicate Valid()
      reads this
    {
      OtpTableValid(records) && forall id :: id in records ==> id < nextId
    }

    constructor (log: EventLog)
      ensures Valid() && records == map[] && this.log == log
    {
      records := map[];
      nextId := 1;
      this.log := log;
    }

    /** The common body of the two sendOTP methods: drop the address's open
        record, store a fresh code, and mail it. The mail is sent
        asynchronously, so its failure never reaches this method. */
    method SendOtp(data: Registration, userType: OtpUserType, now: Instant) returns (otp: string)
      requires Valid()
      modifies this, log
      ensures Valid()
      ensures |otp| == OTP_LENGTH && forall i :: 0 <= i < |otp| ==> '0' <= otp[i] <= '9'
      ensures var id := old(nextId);
        && records == WithoutOpen(old(records), data.email)[id := NewRecord(id, data, otp, userType, now)]
        && nextId == id + 1
        && OpenFor(records, data.email) == {id}
      ensures log.events == old(log.events) + [EmailedAddress(OtpEmail, data.email)]
    {
      records := WithoutOpen(records, data.email);
      otp := GenerateOtp();
      var id := nextId;
      SendReplacesOpenRecord(old(records), id, data, otp, userType, now);
      records := records[id := NewRecord(id, data, otp, userType, now)];
      nextId := id + 1;
      log.events := log.events + [EmailedAddress(OtpEmail, data.email)];
    }

    /** sendOTPForCustomerRegistration. */
    method SendOtpForCustomerRegistration(data: Registration, now: Instant) returns (otp: string)
      requires Valid()
      modifies this, log
      ensures Valid()
      ensures var id := old(nextId);
        records == WithoutOpen(old(records), data.email)[id := NewRecord(id, CustomerCopy(data), otp, CustomerOtp, now)]
      ensures log.events == old(log.events) + [EmailedAddress(OtpEmail, data.email)]
    {
      otp := SendOtp(CustomerCopy(data), CustomerOtp, now);
    }

    /** sendOTPForServiceProviderRegistration. */
    method SendOtpForServiceProviderRegistration(data: Registration, now: Instant) returns (otp: string)
      requires Valid()
      modifies this, log
      ensures Valid()
      ensures var id := old(nextId);
        records == WithoutOpen(old(records), data.email)[id := NewRecord(id, ProviderCopy(data), otp, ServiceProviderOtp, now)]
      ensures log.events == old(log.events) + [EmailedAddress(OtpEmail, data.email)]
    {
      otp := SendOtp(ProviderCopy(data), ServiceProviderOtp, now);
    }

    /** verifyOTP: no open record for the address and code is "Invalid OTP";
        then expiry, then user type; only success marks the record verified
        and hands back its registration. */
    method VerifyOtp(email: string, otp: string, userType: OtpUserType, now: Instant) returns (r: Result<Registration, OtpError>)
      requires Valid()
      modifies this
      ensures Valid() && nextId == old(nextId)
      ensures Matching(old(records), email, otp) == {} ==> r == Err(InvalidOtp) && records == old(records)
      ensures forall id :: id in Matching(old(records), email, otp) ==>
        var rec := old(records)[id];
        var check := CheckRecord(rec, userType, now);
        && (check.Fail? ==> r == Err(check.error) && records == old(records))
        && (check.Pass? ==> r == Ok(rec.data) && records == old(records)[id := rec.(verified := true)]
                            && Matching(records, email, otp) == {})
    {
      var found := Matching(records, email, otp);
      if found == {} {
        r := Err(InvalidOtp);
        return;
      }
      var id := Pick(found);
      AtMostOneMatch(records, email, otp, id);
      var rec := records[id];
      var check := CheckRecord(rec, userType, now);
      if check.Fail? {
        r := Err(check.error);
        return;
      }
      VerifiedOnce(records, id);
      records := records[id := rec.(verified := true)];
      r := Ok(rec.data);
    }

    /** verifyCustomerOTP and verifyServiceProviderOTP: any failure becomes
        "OTP verification failed: " followed by verifyOTP's message. */
    method VerifyRegistrationOtp(email: string, otp: string, userType: OtpUserType, now: Instant) returns (r: Result<Registration, string>)
      requires Valid()
      modifies this
      ensures Valid() && nextId == old(nextId)
      ensures Matching(old(records), email, otp) == {} ==>
        r == Err(VerificationFailure(InvalidOtp)) && records == old(records)
      ensures forall id :: id in Matching(old(records), email, otp) ==>
        var check := CheckRecord(old(records)[id], userType, now);
        && (check.Fail? ==> r == Err(VerificationFailure(check.error)) && records == old(records))
        && (check.Pass? ==> r == Ok(old(records)[id].data)
                            && records == old(records)[id := old(records)[id].(verified := true)]
                            && Matching(records, email, otp) == {})
    {
      var v := VerifyOtp(email, otp, userType, now);
      if v.Err? {
        r := Err(VerificationFailure(v.error));
      } else {
        r := Ok(v.value);
      }
    }
  }
}
