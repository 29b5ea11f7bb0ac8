/**
 * The OTP service: the record shape (src/models/otp/otp.model.ts), `generateOtp` and
 * `sendOtp` (src/controllers/otp/send_otp.ts) and `verifyOtp` (src/controllers/otp/verify_otp.ts).
 * Time is a parameter `now`, in milliseconds.
 */
module Otp {
  import opened Wrappers
  import opened Text
  import opened Seqs
  import opened Envelope

  /** `3 * 60 * 1000`: how long a new OTP record stays valid. */
  const OTP_LIFETIME_MS: int := 3 * 60 * 1000
  /** `/ 1000 / 60` */
  const MS_PER_MINUTE: int := 60 * 1000
  /** The code `sendOtp` issues (the call to `generateOtp` is commented out). */
  const FIXED_OTP: string := "123456"

  /** An Otp document, with its `timestamps`. */
  datatype OtpRecord = OtpRecord(phone: string, otp: string, expires: int, createdAt: int, updatedAt: int)

  /** `Otp.create({phone, otp, expires})` at time `now`: required paths, default expiry, timestamps. */
  function CreateOtpRecord(phone: Option<string>, otp: Option<string>, expires: Option<int>, now: int): (r: Result<OtpRecord, Thrown>)
    ensures r.Ok? <==> Truthy(phone) && Truthy(otp)
    ensures r.Ok? ==> r.value.phone == phone.value && r.value.otp == otp.value
    ensures r.Ok? ==> r.value.expires == (if expires.Some? then expires.value else now + OTP_LIFETIME_MS)
    ensures r.Ok? ==> r.value.createdAt == now && r.value.updatedAt == now
    ensures r.Err? ==> r.error.SchemaInvalid?
    ensures r.Err? ==> r.error.paths == (if Truthy(phone) then [] else ["phone"]) + (if Truthy(otp) then [] else ["otp"])
  {
    var failures :=
      (if Truthy(phone) then [] else [("phone", "Phone number is required")]) +
      (if Truthy(otp) then [] else [("otp", "OTP is required")]);
    if failures != [] then
      var t := SchemaFailure("Otp", failures);
      assert t.paths == (if Truthy(phone) then [] else ["phone"]) + (if Truthy(otp) then [] else ["otp"]);
      Err(t)
    else
      Ok(OtpRecord(phone.value, otp.value, if expires.Some? then expires.value else now + OTP_LIFETIME_MS, now, now))
  }

  /** The query `{phone, expires: {$gt: new Date()}}`. */
  predicate ActiveFor(r: OtpRecord, phone: string, now: int)
  {
    r.phone == phone && r.expires > now
  }

  function ActiveFilter(phone: string, now: int): OtpRecord -> bool
  {
    (r: OtpRecord) => ActiveFor(r, phone, now)
  }

  /**
   * The record `Otp.findOne` returns for that query: the first unexpired one for the phone.
   * A query on an undefined phone is taken to match nothing.
   */
  function FindActive(records: seq<OtpRecord>, phone: Option<string>, now: int): (r: Option<nat>)
    ensures r.Some? ==> phone.Some? && r.value < |records| && ActiveFor(records[r.value], phone.value, now)
    ensures r.Some? ==> forall j :: 0 <= j < r.value ==> !ActiveFor(records[j], phone.value, now)
    ensures r.None? && phone.Some? ==> forall j :: 0 <= j < |records| ==> !ActiveFor(records[j], phone.value, now)
  {
    if phone.None? then None
    else
      var f := ActiveFilter(phone.value, now);
      var k := FirstWhere(records, f);
      assert forall j :: 0 <= j < |records| ==> f(records[j]) == ActiveFor(records[j], phone.value, now);
      k
  }

  /** The store invariant: no phone has two unexpired records. */
  ghost predicate AtMostOneActive(records: seq<OtpRecord>, now: int)
  {
    forall i, j :: 0 <= i < j < |records| && records[i].expires > now && records[j].expires > now ==>
      records[i].phone != records[j].phone
  }

  /** Every record was issued by `sendOtp` no later than `now`. */
  ghost predicate IssuedBy(records: seq<OtpRecord>, now: int)
  {
    forall i :: 0 <= i < |records| ==>
      records[i].createdAt <= now && records[i].expires == records[i].createdAt + OTP_LIFETIME_MS
  }

  // ------------------------------------------------------------ generateOtp

  /** `generateOtp(length)`, with the values of `Math.floor(Math.random() * 10)` given as `draws`. */
  method GenerateOtp(length: int, draws: seq<nat>) returns (otp: string)
    requires length <= |draws|
    requires forall i :: 0 <= i < |draws| ==> draws[i] < 10
    ensures |otp| == (if length < 0 then 0 else length)
    ensures forall i :: 0 <= i < |otp| ==> IsDigit(otp[i]) && DigitValue(otp[i]) == draws[i]
  {
    otp := "";
    var i := 0;
    while i < length
      invariant 0 <= i == |otp| <= (if length < 0 then 0 else length)
      invariant forall k :: 0 <= k < i ==> IsDigit(otp[k]) && DigitValue(otp[k]) == draws[k]
    {
      otp := otp + [DigitChar(draws[i])];
      i := i + 1;
    }
  }

  /** The fixed code has the shape `generateOtp(6)` produces. */
  lemma FixedOtpIsSixDigits()
    ensures |FIXED_OTP| == 6 && forall i :: 0 <= i < |FIXED_OTP| ==> IsDigit(FIXED_OTP[i])
  {
  }

  // ---------------------------------------------------------------- sendOtp

  /** `Math.ceil(a / b)` for a positive divisor, in integers. */
  function CeilDiv(a: int, b: int): (r: int)
    requires b > 0
    ensures r * b >= a && (r - 1) * b < a
  {
    var q := (-a) / b;
    assert -a == q * b + (-a) % b && 0 <= (-a) % b < b;
    assert (-q) * b == -(q * b);
    assert (-q - 1) * b == -(q * b) - b;
    -q
  }

  /** `Math.ceil((expires - Date.now()) / 1000 / 60)` */
  function RemainingMinutes(expires: int, now: int): int
  {
    CeilDiv(expires - now, MS_PER_MINUTE)
  }

  /** For a record issued by `sendOtp` at or before `now` and still unexpired, the wait is 1 to 3 minutes. */
  lemma RemainingMinutesRange(r: OtpRecord, now: int)
    requires r.expires == r.createdAt + OTP_LIFETIME_MS && r.createdAt <= now < r.expires
    ensures 1 <= RemainingMinutes(r.expires, now) <= 3
  {
    var d := r.expires - now;
    var m := RemainingMinutes(r.expires, now);
    assert 0 < d <= 3 * MS_PER_MINUTE;
    assert -3 <= (-d) / MS_PER_MINUTE <= -1;
  }

  const PHONE_REQUIRED: Thrown := ApiFailure(NewApiError(Some("Phone number is required"), Some(400), None))

  function WaitError(minutes: int): Thrown
  {
    ApiFailure(NewApiError(Some("You can request a new OTP after " + IntToString(minutes) + " minutes"), Some(400), None))
  }

  /** The data of the success response: `{ phone }`. */
  datatype PhoneData = PhoneData(phone: string)

  /** What `sendOtp` does to the Otp collection and what it answers, as one function. */
  function IssueOtp(records: seq<OtpRecord>, phone: Option<string>, now: int): (Result<Reply<PhoneData>, Thrown>, seq<OtpRecord>)
  {
    if !Truthy(phone) then (Err(PHONE_REQUIRED), records)
    else match FindActive(records, phone, now)
      case Some(i) => (Err(WaitError(RemainingMinutes(records[i].expires, now))), records)
      case None =>
        match CreateOtpRecord(phone, Some(FIXED_OTP), Some(now + OTP_LIFETIME_MS), now)
        case Err(e) => (Err(e), records)
        case Ok(rec) =>
          (Ok(Reply(200, [], NewApiResponse(PhoneData(phone.value), "OTP sent successfully", Some(200)))), records + [rec])
  }

  /** A missing phone is refused and the store is unchanged. */
  lemma IssueWithoutPhone(records: seq<OtpRecord>, phone: Option<string>, now: int)
    requires !Truthy(phone)
    ensures IssueOtp(records, phone, now) == (Err(PHONE_REQUIRED), records)
  {
  }

  /** While the phone has an unexpired record, issuing is refused, with the minutes left, and the store is unchanged. */
  lemma IssueWhileActive(records: seq<OtpRecord>, phone: string, now: int, k: nat)
    requires phone != "" && k < |records| && ActiveFor(records[k], phone, now)
    ensures var out := IssueOtp(records, Some(phone), now);
      out.1 == records && out.0.Err? &&
      exists i :: 0 <= i < |records| && ActiveFor(records[i], phone, now) &&
        out.0.error == WaitError(RemainingMinutes(records[i].expires, now))
  {
  }

  /** Otherwise exactly one record {phone, "123456", now + 180000} is appended and the answer is 200 {phone}. */
  lemma IssueWhenFree(records: seq<OtpRecord>, phone: string, now: int)
    requires phone != ""
    requires forall j :: 0 <= j < |records| ==> !ActiveFor(records[j], phone, now)
    ensures IssueOtp(records, Some(phone), now) ==
      (Ok(Reply(200, [], ApiResponse(200, PhoneData(phone), "OTP sent successfully", true))),
       records + [OtpRecord(phone, FIXED_OTP, now + OTP_LIFETIME_MS, now, now)])
  {
    assert FindActive(records, Some(phone), now).None?;
  }

  /** With the clock not going back, issuing keeps at most one unexpired record per phone. */
  lemma IssuePreservesAtMostOne(records: seq<OtpRecord>, phone: Option<string>, before: int, now: int)
    requires AtMostOneActive(records, before) && before <= now
    ensures AtMostOneActive(IssueOtp(records, phone, now).1, now)
  {
    var out := IssueOtp(records, phone, now).1;
    if out != records {
      var rec := out[|records|];
      assert out == records + [rec];
      assert FindActive(records, phone, now).None?;
      forall i, j | 0 <= i < j < |out| && out[i].expires > now && out[j].expires > now
        ensures out[i].phone != out[j].phone
      {
        if j == |records| {
          assert !ActiveFor(records[i], phone.value, now);
        } else {
          assert records[i].expires > before && records[j].expires > before;
        }
      }
    }
  }

  /** Issuing keeps every record one that `sendOtp` issued no later than now. */
  lemma IssueKeepsIssuedBy(records: seq<OtpRecord>, phone: Option<string>, before: int, now: int)
    requires IssuedBy(records, before) && before <= now
    ensures IssuedBy(IssueOtp(records, phone, now).1, now)
  {
  }

  /** On a store that `sendOtp` built, a refusal names a wait of 1, 2 or 3 minutes. */
  lemma IssueWaitIsAtMostThree(records: seq<OtpRecord>, phone: string, now: int, k: nat)
    requires IssuedBy(records, now) && phone != ""
    requires k < |records| && ActiveFor(records[k], phone, now)
    ensures exists minutes :: 1 <= minutes <= 3 && IssueOtp(records, Some(phone), now).0 == Err(WaitError(minutes))
  {
    var i := FindActive(records, Some(phone), now).value;
    RemainingMinutesRange(records[i], now);
    var m := RemainingMinutes(records[i].expires, now);
    assert IssueOtp(records, Some(phone), now).0 == Err(WaitError(m));
  }

  // -------------------------------------------------------------- verifyOtp

  const INVALID_OTP: Thrown := ApiFailure(NewApiError(Some("Invalid or expired OTP"), Some(400), None))

  /** What `verifyOtp(phone, otp)` does to the Otp collection and what it returns or throws. */
  function ConsumeOtp(records: seq<OtpRecord>, phone: Option<string>, otp: Option<string>, now: int): (Result<bool, Thrown>, seq<OtpRecord>)
  {
    match FindActive(records, phone, now)
    case None => (Err(INVALID_OTP), records)
    case Some(i) =>
      if Some(records[i].otp) == otp then (Ok(true), RemoveAt(records, i)) else (Err(INVALID_OTP), records)
  }

  /** A failed verification throws 'Invalid or expired OTP' and leaves the store unchanged; a success returns true. */
  lemma ConsumeOutcomes(records: seq<OtpRecord>, phone: Option<string>, otp: Option<string>, now: int)
    ensures var out := ConsumeOtp(records, phone, otp, now);
      (out.0.Err? ==> out.0.error == INVALID_OTP && out.1 == records) &&
      (out.0.Ok? ==> out.0.value && exists i :: (0 <= i < |records| && ActiveFor(records[i], phone.value, now) &&
         Some(records[i].otp) == otp && out.1 == RemoveAt(records, i)))
  {
  }

  /** Under the invariant, verification succeeds exactly when an unexpired record for the phone holds the code. */
  lemma ConsumeSucceedsIff(records: seq<OtpRecord>, phone: string, otp: Option<string>, now: int)
    requires AtMostOneActive(records, now)
    ensures ConsumeOtp(records, Some(phone), otp, now).0.Ok? <==>
      exists i :: 0 <= i < |records| && ActiveFor(records[i], phone, now) && Some(records[i].otp) == otp
  {
    var k := FindActive(records, Some(phone), now);
    if k.Some? {
      forall i | k.value < i < |records|
        ensures !ActiveFor(records[i], phone, now)
      {
        if records[i].expires > now {
          assert records[k.value].phone != records[i].phone;
        }
      }
    }
  }

  /** Removing a record keeps the invariant, and the clock going forward only retires records. */
  lemma ConsumePreservesAtMostOne(records: seq<OtpRecord>, phone: Option<string>, otp: Option<string>, before: int, now: int)
    requires AtMostOneActive(records, before) && before <= now
    ensures AtMostOneActive(ConsumeOtp(records, phone, otp, now).1, now)
  {
    var out := ConsumeOtp(records, phone, otp, now).1;
    if out != records {
      var k := FindActive(records, phone, now).value;
      assert out == RemoveAt(records, k);
      forall i, j | 0 <= i < j < |out| && out[i].expires > now && out[j].expires > now
        ensures out[i].phone != out[j].phone
      {
        var i' := if i < k then i else i + 1;
        var j' := if j < k then j else j + 1;
        assert out[i] == records[i'] && out[j] == records[j'] && i' < j';
      }
    }
  }

  /** Single use: after a successful verification, verifying again for that phone fails, now or later. */
  lemma ConsumeIsSingleUse(records: seq<OtpRecord>, phone: Option<string>, otp: Option<string>, otp2: Option<string>, now: int, later: int)
    requires AtMostOneActive(records, now) && now <= later
    requires ConsumeOtp(records, phone, otp, now).0.Ok?
    ensures ConsumeOtp(ConsumeOtp(records, phone, otp, now).1, phone, otp2, later).0 == Err(INVALID_OTP)
  {
    var k := FindActive(records, phone, now).value;
    var out := ConsumeOtp(records, phone, otp, now).1;
    assert out == RemoveAt(records, k);
    forall j | 0 <= j < |out|
      ensures !ActiveFor(out[j], phone.value, later)
    {
      var j' := if j < k then j else j + 1;
      assert out[j] == records[j'] && j' != k;
      if records[j'].expires > later {
        if j' < k {
          assert records[j'].phone != records[k].phone;
        } else {
          assert records[k].phone != records[j'].phone;
        }
      }
    }
  }

  // ------------------------------------------------------------------ store

  /** The Otp collection. */
  class OtpStore {
    var records: seq<OtpRecord>

    constructor ()
      ensures records == []
    {
      records := [];
    }

    /** `Otp.create` of a record already built and validated. */
    method Insert(rec: OtpRecord)
      modifies this
      ensures records == old(records) + [rec]
    {
      records := records + [rec];
    }

    /** `existingOtp.deleteOne()` of the record at position `i`. */
    method DeleteAt(i: nat)
      requires i < |records|
      modifies this
      ensures records == RemoveAt(old(records), i)
    {
      records := RemoveAt(records, i);
    }
  }

  /** `sendOtp` on the store, for the body's `phone` at time `now`. */
  method SendOtp(store: OtpStore, phone: Option<string>, now: int) returns (r: Result<Reply<PhoneData>, Thrown>)
    modifies store
    ensures (r, store.records) == IssueOtp(old(store.records), phone, now)
  {
    if !Truthy(phone) {
      return Err(PHONE_REQUIRED);
    }
    var existing := FindActive(store.records, phone, now);
    if existing.Some? {
      var remaining := RemainingMinutes(store.records[existing.value].expires, now);
      return Err(WaitError(remaining));
    }
    var created := CreateOtpRecord(phone, Some(FIXED_OTP), Some(now + OTP_LIFETIME_MS), now);
    if created.Err? {
      return Err(created.error);
    }
    store.Insert(created.value);
    r := Ok(Reply(200, [], NewApiResponse(PhoneData(phone.value), "OTP sent successfully", Some(200))));
  }

  /** `verifyOtp(phone, otp)` on the store at time `now`. */
  method VerifyOtp(store: OtpStore, phone: Option<string>, otp: Option<string>, now: int) returns (r: Result<bool, Thrown>)
    modifies store
    ensures (r, store.records) == ConsumeOtp(old(store.records), phone, otp, now)
  {
    var existing := FindActive(store.records, phone, now);
    if existing.None? || Some(store.records[existing.value].otp) != otp {
      return Err(INVALID_OTP);
    }
    store.DeleteAt(existing.value);
    return Ok(true);
  }
}
