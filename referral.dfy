/**
 * `generateReferralCode(length, maxRetries, role)` (src/controllers/auth/utils/generate_referral_code.ts).
 * `randomBytes` is a parameter giving byte `j` of the draw made on attempt `i`; the lookup
 * `Model.findOne({referralCode})` is a parameter telling whether some user already holds a code.
 */
module Referral {
  import opened Wrappers
  import opened Text
  import opened Envelope
  import opened Roles
  import Otp

  newtype Byte = b: int | 0 <= b < 256

  /** The largest size `randomBytes` accepts: 2^31 - 1. */
  const MAX_SIZE: int := 0x7fff_ffff

  const SIZE_OUT_OF_RANGE: Thrown := Raised(JsError(RangeError, "The value of \"size\" is out of range."))
  const EXHAUSTED: Thrown := Raised(JsError(Error, "Failed to generate a unique referral code after maximum retries"))

  /** `Math.ceil(length / 2)`: the number of random bytes drawn per attempt. */
  function ByteCount(length: int): int
  {
    Otp.CeilDiv(length, 2)
  }

  /** `d.toString(16)` for one hex digit, lower case as `Buffer.toString('hex')` writes it. */
  function HexDigit(d: int): (c: char)
    requires 0 <= d < 16
  {
    if d < 10 then ('0' as int + d) as char else ('a' as int + d - 10) as char
  }

  /** `Buffer.from(bytes).toString('hex')` */
  function Hex(bytes: seq<Byte>): (s: string)
    ensures |s| == 2 * |bytes|
  {
    if |bytes| == 0 then ""
    else [HexDigit(bytes[0] as int / 16), HexDigit(bytes[0] as int % 16)] + Hex(bytes[1..])
  }

  /** The characters of an upper-case hex string. */
  predicate IsUpperHex(c: char)
  {
    '0' <= c <= '9' || 'A' <= c <= 'F'
  }

  /** The value of an upper-case hex digit. */
  function UpperHexValue(c: char): (d: int)
    requires IsUpperHex(c)
    ensures 0 <= d < 16
  {
    if c <= '9' then c as int - '0' as int else c as int - 'A' as int + 10
  }

  /** Reading an upper-case hex string back into bytes, two characters per byte. */
  function FromUpperHex(s: string): seq<Byte>
    requires |s| % 2 == 0
    requires forall i :: 0 <= i < |s| ==> IsUpperHex(s[i])
  {
    if |s| == 0 then []
    else [(UpperHexValue(s[0]) * 16 + UpperHexValue(s[1])) as Byte] + FromUpperHex(s[2..])
  }

  /** `randomBytes(n).toString('hex').toUpperCase()`: upper-case hex, two characters per byte, which reads back to the bytes. */
  lemma {:induction false} UpperHexRoundTrip(bytes: seq<Byte>)
    ensures |Upper(Hex(bytes))| == 2 * |bytes|
    ensures forall i :: 0 <= i < |Upper(Hex(bytes))| ==> IsUpperHex(Upper(Hex(bytes))[i])
    ensures FromUpperHex(Upper(Hex(bytes))) == bytes
  {
    if |bytes| > 0 {
      var b := bytes[0] as int;
      var head := [HexDigit(b / 16), HexDigit(b % 16)];
      UpperHexRoundTrip(bytes[1..]);
      assert Hex(bytes) == head + Hex(bytes[1..]);
      var u := Upper(Hex(bytes));
      assert u == Upper(head) + Upper(Hex(bytes[1..]));
      assert UpperHexValue(u[0]) == b / 16 && UpperHexValue(u[1]) == b % 16;
      assert u[2..] == Upper(Hex(bytes[1..]));
      assert [bytes[0]] + bytes[1..] == bytes;
    }
  }

  /** The bytes drawn on attempt `i`. */
  function Draw(random: (nat, nat) -> Byte, size: nat, i: nat): (bytes: seq<Byte>)
    ensures |bytes| == size
  {
    seq(size, j requires 0 <= j < size => random(i, j))
  }

  /** The code tried on attempt `i`. */
  function CodeAt(random: (nat, nat) -> Byte, size: nat, i: nat): string
  {
    Upper(Hex(Draw(random, size, i)))
  }

  /** The code tried on each attempt; an attempt is only made when the size is in range. */
  function Codes(random: (nat, nat) -> Byte, length: int): nat -> string
  {
    (i: nat) => if ByteCount(length) < 0 then "" else CodeAt(random, ByteCount(length), i)
  }

  /** The shape of every code tried: 2 * ceil(length / 2) upper-case hex characters that read back to the draw. */
  lemma CodeShape(random: (nat, nat) -> Byte, length: int, i: nat)
    requires 0 <= ByteCount(length)
    ensures var code := Codes(random, length)(i);
      |code| == 2 * ByteCount(length) &&
      (forall k :: 0 <= k < |code| ==> IsUpperHex(code[k])) &&
      FromUpperHex(code) == Draw(random, ByteCount(length), i)
  {
    UpperHexRoundTrip(Draw(random, ByteCount(length), i));
  }

  /**
   * What the loop does from attempt `retries` on, attempt `i` trying `codes(i)` and every attempt
   * resolving the role to `model` (`getModelByRole` gives the same answer each time): the code
   * returned or the error thrown, and the number of `findOne` lookups made.
   */
  function ReferralFrom(length: int, maxRetries: int, model: Result<Collection, Thrown>, codes: nat -> string, taken: string -> bool, retries: nat)
    : (Result<string, Thrown>, nat)
    decreases maxRetries - retries
  {
    if retries >= maxRetries then (Err(EXHAUSTED), 0)
    else if ByteCount(length) < 0 || ByteCount(length) > MAX_SIZE then (Err(SIZE_OUT_OF_RANGE), 0)
    else
      match model
      case Err(t) => (Err(t), 0)
      case Ok(_) =>
        if !taken(codes(retries)) then (Ok(codes(retries)), 1)
        else
          var (r, n) := ReferralFrom(length, maxRetries, model, codes, taken, retries + 1);
          (r, n + 1)
  }

  /** At most `maxRetries` lookups are made; none when `maxRetries <= 0`. */
  lemma {:induction false} ReferralLookupBound(length: int, maxRetries: int, model: Result<Collection, Thrown>, codes: nat -> string, taken: string -> bool, retries: nat)
    ensures ReferralFrom(length, maxRetries, model, codes, taken, retries).1 <= (if maxRetries > retries then maxRetries - retries else 0)
    decreases maxRetries - retries
  {
    if retries < maxRetries && 0 <= ByteCount(length) <= MAX_SIZE && model.Ok? &&
       taken(codes(retries)) {
      ReferralLookupBound(length, maxRetries, model, codes, taken, retries + 1);
    }
  }

  /**
   * A code is returned only when no user holds it: after `n` lookups it is the draw of attempt
   * `retries + n - 1`, every earlier attempt collided, and that attempt is within `maxRetries`.
   */
  lemma {:induction false} ReferralReturnsFreeCode(length: int, maxRetries: int, model: Result<Collection, Thrown>, codes: nat -> string, taken: string -> bool, retries: nat)
    requires ReferralFrom(length, maxRetries, model, codes, taken, retries).0.Ok?
    ensures var (r, n) := ReferralFrom(length, maxRetries, model, codes, taken, retries);
      !taken(r.value) && model.Ok? && 0 <= ByteCount(length) &&
      1 <= n && retries + n - 1 < maxRetries && r.value == codes(retries + n - 1) &&
      forall j: nat :: retries <= j < retries + n - 1 ==> taken(codes(j))
    decreases maxRetries - retries
  {
    var code := codes(retries);
    ReferralStep(length, maxRetries, model, codes, taken, retries);
    if taken(code) {
      ReferralReturnsFreeCode(length, maxRetries, model, codes, taken, retries + 1);
    }
  }

  /** One attempt of the loop: a free code is returned after one lookup, a taken one costs a lookup and retries. */
  lemma ReferralStep(length: int, maxRetries: int, model: Result<Collection, Thrown>, codes: nat -> string, taken: string -> bool, retries: nat)
    requires retries < maxRetries && 0 <= ByteCount(length) <= MAX_SIZE && model.Ok?
    ensures var code := codes(retries);
      var next := ReferralFrom(length, maxRetries, model, codes, taken, retries + 1);
      ReferralFrom(length, maxRetries, model, codes, taken, retries) ==
        if !taken(code) then (Ok(code), 1) else (next.0, next.1 + 1)
  {
  }

  /** When every attempt collides, the loop throws after exactly `maxRetries - retries` lookups. */
  lemma {:induction false} ReferralExhausted(length: int, maxRetries: int, model: Result<Collection, Thrown>, codes: nat -> string, taken: string -> bool, retries: nat)
    requires 0 <= ByteCount(length) <= MAX_SIZE && model.Ok?
    requires forall j: nat :: retries <= j < maxRetries ==> taken(codes(j))
    ensures ReferralFrom(length, maxRetries, model, codes, taken, retries) ==
      (Err(EXHAUSTED), if maxRetries > retries then maxRetries - retries else 0)
    decreases maxRetries - retries
  {
    if retries < maxRetries {
      ReferralExhausted(length, maxRetries, model, codes, taken, retries + 1);
    }
  }

  /** With `maxRetries <= 0` the call throws at once, without any lookup. */
  lemma NoRetries(length: int, maxRetries: int, model: Result<Collection, Thrown>, codes: nat -> string, taken: string -> bool)
    requires maxRetries <= 0
    ensures ReferralFrom(length, maxRetries, model, codes, taken, 0) == (Err(EXHAUSTED), 0)
  {
  }

  /** A role that does not resolve throws on the first attempt, before any lookup; so does the default role "user". */
  lemma InvalidRoleFailsFirst(length: int, maxRetries: int, role: string, codes: nat -> string, taken: string -> bool)
    requires maxRetries > 0 && 0 <= ByteCount(length) <= MAX_SIZE
    requires Normalize(role) != Lower(AGENT)
    ensures ReferralFrom(length, maxRetries, GetModelByRole(role), codes, taken, 0) == (Err(GetModelByRole(role).error), 0)
    ensures ReferralFrom(length, maxRetries, GetModelByRole("user"), codes, taken, 0) == (Err(INVALID_ROLE), 0)
  {
    UserRoleInvalid();
  }

  /**
   * The retry loop of `generateReferralCode`, for any role resolver `resolve`, which every attempt
   * calls on `role`; `lookups` counts the `findOne` calls.
   */
  method TryReferralCodes(
    length: int, maxRetries: int, role: string, resolve: string -> Result<Collection, Thrown>,
    random: (nat, nat) -> Byte, taken: string -> bool)
    returns (r: Result<string, Thrown>, lookups: nat)
    ensures (r, lookups) == ReferralFrom(length, maxRetries, resolve(role), Codes(random, length), taken, 0)
  {
    ghost var codes := Codes(random, length);
    var referralCode := "";
    var retries: nat := 0;
    lookups := 0;
    while retries < maxRetries
      invariant ReferralFrom(length, maxRetries, resolve(role), codes, taken, 0).0 ==
        ReferralFrom(length, maxRetries, resolve(role), codes, taken, retries).0
      invariant ReferralFrom(length, maxRetries, resolve(role), codes, taken, 0).1 ==
        ReferralFrom(length, maxRetries, resolve(role), codes, taken, retries).1 + lookups
      decreases maxRetries - retries
    {
      var size := ByteCount(length);
      if size < 0 || size > MAX_SIZE {
        return Err(SIZE_OUT_OF_RANGE), lookups;
      }
      var randomValue := Hex(Draw(random, size, retries));
      referralCode := Upper(randomValue);
      var model := resolve(role);
      if model.Err? {
        return Err(model.error), lookups;
      }
      assert referralCode == codes(retries);
      ReferralStep(length, maxRetries, model, codes, taken, retries);
      lookups := lookups + 1;
      if !taken(referralCode) {
        return Ok(referralCode), lookups;
      }
      retries := retries + 1;
    }
    r := Err(EXHAUSTED);
  }

  /** `generateReferralCode(length, maxRetries, role)`: the loop above with `getModelByRole` as the resolver. */
  method GenerateReferralCode(length: int, maxRetries: int, role: string, random: (nat, nat) -> Byte, taken: string -> bool)
    returns (r: Result<string, Thrown>, lookups: nat)
    ensures (r, lookups) == ReferralFrom(length, maxRetries, GetModelByRole(role), Codes(random, length), taken, 0)
  {
    r, lookups := TryReferralCodes(length, maxRetries, role, GetModelByRole, random, taken);
  }
}
