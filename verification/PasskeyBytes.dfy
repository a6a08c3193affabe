/**
 The bytes of a passkey ceremony: what an authenticator writes
 (internal/passkey/passkeytest/authenticator.go) and what the gateway reads
 (internal/passkey/passkey.go). The layout is that of sections 6.1 and 6.5.1 of
 WebAuthn Level 2, and the key that of section 7.1.1 of RFC 9053.

 SHA-256 of the relying-party ID is a 32-byte value; the client-data check, the
 SubjectPublicKeyInfo parse and the signature check are outcomes of the input.
 */
module PasskeyBytes {
  import opened Prelude

  type byte = x: int | 0 <= x < 256

  type Bytes = seq<byte>

  const FLAG_UP := 1
  const FLAG_UV := 4
  const FLAG_BE := 8
  const FLAG_AT := 64
  const FLAG_ED := 128

  const MAX_CREDENTIAL_ID := 1023
  const ALG_ES256 := -7
  const TWO_TO_32 := 0x1_0000_0000

  predicate Has(flags: byte, bit: int)
    requires 0 < bit
  {
    flags / bit % 2 == 1
  }

  /** flags | 0x40. */
  function WithAT(flags: byte): byte { if Has(flags, FLAG_AT) then flags else flags + FLAG_AT }

  /** The two low bytes of n, high byte first. */
  function Put16(n: nat): (b: Bytes) { [n / 0x100 % 0x100, n % 0x100] }

  function Get16(b: Bytes): nat
    requires |b| == 2
  {
    (b[0] as int) * 0x100 + (b[1] as int)
  }

  function Put32(n: nat): (b: Bytes)
    ensures |b| == 4
  {
    Put16(n / 0x1_0000) + Put16(n)
  }

  function Get32(b: Bytes): nat
    requires |b| == 4
  {
    Get16(b[..2]) * 0x1_0000 + Get16(b[2..])
  }

  /** A P-256 point's coordinates. */
  datatype Point = Point(x: Bytes, y: Bytes) {
    predicate Valid() { |x| == 32 && |y| == 32 }
  }

  const COSE_HEAD: Bytes := [0xa5, 0x01, 0x02, 0x03, 0x26, 0x20, 0x01, 0x21, 0x58, 0x20]
  const COSE_MID: Bytes := [0x22, 0x58, 0x20]

  function CoseKey(p: Point): Bytes { COSE_HEAD + p.x + COSE_MID + p.y }

  // ---------- what the authenticator writes ----------

  function Head(rpHash: Bytes, flags: byte, counter: nat): Bytes { rpHash + [flags] + Put32(counter) }

  function Attested(aaguid: Bytes, id: Bytes, key: Point): Bytes { aaguid + Put16(|id|) + id + CoseKey(key) }

  datatype Registration = Registration(credentialID: Bytes, authData: Bytes, key: Option<Point>, alg: int,
                                       clientDataOk: bool)

  class Authenticator {
    const key: Point
    const id: Bytes
    const aaguid: Bytes
    const flags: byte
    var counter: nat // 32 bits wide

    constructor (key: Point, id: Bytes, aaguid: Bytes, flags: byte, counter: nat)
      ensures this.key == key && this.id == id && this.aaguid == aaguid && this.flags == flags
              && this.counter == counter
    {
      this.key, this.id, this.aaguid, this.flags, this.counter := key, id, aaguid, flags, counter;
    }

    method Register(rpHash: Bytes) returns (reg: Registration)
      ensures reg == Registered(rpHash, key, id, aaguid, flags, counter)
    {
      var ad := Head(rpHash, WithAT(flags), counter);
      ad := ad + aaguid;
      ad := ad + Put16(|id|);
      ad := ad + id;
      ad := ad + CoseKey(key);
      assert ad == Head(rpHash, WithAT(flags), counter) + Attested(aaguid, id, key);
      return Registration(id, ad, Some(key), ALG_ES256, true);
    }

    /** Unless it is zero, the counter moves before it is reported. */
    method SignIn(rpHash: Bytes) returns (authData: Bytes)
      modifies this
      ensures counter == Ticked(old(counter)) && authData == Head(rpHash, flags, counter)
    {
      if counter != 0 {
        counter := (counter + 1) % TWO_TO_32;
      }
      return Head(rpHash, flags, counter);
    }
  }

  function Registered(rpHash: Bytes, key: Point, id: Bytes, aaguid: Bytes, flags: byte, counter: nat): Registration {
    Registration(id, Head(rpHash, WithAT(flags), counter) + Attested(aaguid, id, key), Some(key), ALG_ES256, true)
  }

  function Ticked(counter: nat): nat { if counter == 0 then 0 else (counter + 1) % TWO_TO_32 }

  // ---------- what the gateway reads ----------

  datatype Error = ErrClientData | ErrAuthData | ErrNotVerified | ErrKey | ErrSignature | ErrCounter

  datatype Result<T> = Accepted(value: T) | Refused(error: Error)

  datatype AuthData = AuthData(flags: byte, signCount: nat, rest: Bytes)

  datatype Credential = Credential(id: Bytes, key: Point, signCount: nat, aaguid: Bytes, synced: bool)

  function ParseAuthData(rpHash: Bytes, b: Bytes): Result<AuthData> {
    if |b| < 37 then Refused(ErrAuthData)
    else if b[..32] != rpHash then Refused(ErrAuthData)
    else if !Has(b[32], FLAG_UP) || !Has(b[32], FLAG_UV) then Refused(ErrNotVerified)
    else Accepted(AuthData(b[32], Get32(b[33..37]), b[37..]))
  }

  function VerifyRegistration(rpHash: Bytes, reg: Registration): Result<Credential> {
    if !reg.clientDataOk then Refused(ErrClientData) else
    match ParseAuthData(rpHash, reg.authData)
    case Refused(e) => Refused(e)
    case Accepted(ad) =>
      if !Has(ad.flags, FLAG_AT) then Refused(ErrAuthData)
      else if |ad.rest| < 18 then Refused(ErrAuthData)
      else
        var idLen := Get16(ad.rest[16..18]);
        var rest := ad.rest[18..];
        if idLen == 0 || MAX_CREDENTIAL_ID < idLen || |rest| < idLen then Refused(ErrAuthData)
        else
          var credID, coseKey := rest[..idLen], rest[idLen..];
          if credID != reg.credentialID then Refused(ErrAuthData)
          else if reg.alg != ALG_ES256 || reg.key.None? then Refused(ErrKey)
          else
            var want := CoseKey(reg.key.value);
            if !(want <= coseKey) || (!Has(ad.flags, FLAG_ED) && |coseKey| != |want|) then Refused(ErrKey)
            else Accepted(Credential(credID, reg.key.value, ad.signCount, ad.rest[..16], Has(ad.flags, FLAG_BE)))
  }

  function VerifyAssertion(rpHash: Bytes, authData: Bytes, clientDataOk: bool, keyOk: bool, signatureOk: bool,
                           stored: nat): Result<nat>
  {
    if !clientDataOk then Refused(ErrClientData) else
    match ParseAuthData(rpHash, authData)
    case Refused(e) => Refused(e)
    case Accepted(ad) =>
      if !keyOk then Refused(ErrKey)
      else if !signatureOk then Refused(ErrSignature)
      else if (ad.signCount != 0 || stored != 0) && ad.signCount <= stored then Refused(ErrCounter)
      else Accepted(ad.signCount)
  }

  // ---------- numbers ----------

  lemma Put16Get16(n: nat)
    requires n < 0x1_0000
    ensures Get16(Put16(n)) == n
  {
  }

  lemma Get16Put16(b: Bytes)
    requires |b| == 2
    ensures Get16(b) < 0x1_0000 && Put16(Get16(b)) == b
  {
  }

  /** A four-byte number splits into its two halves. */
  lemma Halves(hi: nat, lo: nat)
    requires hi < 0x1_0000 && lo < 0x1_0000
    ensures (hi * 0x1_0000 + lo) / 0x1_0000 == hi
    ensures (hi * 0x1_0000 + lo) % 0x1_0000 == lo
    ensures hi * 0x1_0000 + lo < TWO_TO_32
  {
  }

  lemma LowBytes(n: nat)
    ensures Put16(n) == Put16(n % 0x1_0000)
  {
    var q, lo := n / 0x1_0000, n % 0x1_0000;
    assert n == 0x100 * (0x100 * q) + lo;
    assert n / 0x100 == 0x100 * q + lo / 0x100 && n % 0x100 == lo % 0x100;
    assert (0x100 * q + lo / 0x100) % 0x100 == lo / 0x100 % 0x100;
  }

  lemma Put32Get32(n: nat)
    requires n < TWO_TO_32
    ensures Get32(Put32(n)) == n
  {
    var b := Put32(n);
    assert b[..2] == Put16(n / 0x1_0000) && b[2..] == Put16(n);
    LowBytes(n);
    Put16Get16(n / 0x1_0000);
    Put16Get16(n % 0x1_0000);
  }

  lemma Get32Put32(b: Bytes)
    requires |b| == 4
    ensures Get32(b) < TWO_TO_32 && Put32(Get32(b)) == b
  {
    var hi, lo := b[..2], b[2..];
    Get16Put16(hi);
    Get16Put16(lo);
    Halves(Get16(hi), Get16(lo));
    LowBytes(Get32(b));
    assert b == hi + lo;
  }

  // ---------- parsing and printing ----------

  /** The bytes a registration must be: the head, the attested data, and nothing
      more unless the extensions flag is set. */
  ghost predicate Canonical(rpHash: Bytes, reg: Registration, cred: Credential, flags: byte, extensions: Bytes) {
    && reg.authData == Head(rpHash, flags, cred.signCount) + Attested(cred.aaguid, cred.id, cred.key) + extensions
    && Has(flags, FLAG_UP) && Has(flags, FLAG_UV) && Has(flags, FLAG_AT)
    && (extensions != [] ==> Has(flags, FLAG_ED))
    && cred.synced == Has(flags, FLAG_BE)
    && |cred.aaguid| == 16 && 1 <= |cred.id| <= MAX_CREDENTIAL_ID && cred.signCount < TWO_TO_32
    && reg.credentialID == cred.id && reg.key == Some(cred.key) && reg.alg == ALG_ES256 && reg.clientDataOk
  }

  lemma HeadParts(rpHash: Bytes, flags: byte, counter: nat, rest: Bytes)
    requires |rpHash| == 32 && counter < TWO_TO_32
    ensures var b := Head(rpHash, flags, counter) + rest;
            && 37 <= |b| && b[..32] == rpHash && b[32] == flags && Get32(b[33..37]) == counter && b[37..] == rest
  {
    var b := Head(rpHash, flags, counter) + rest;
    assert b[33..37] == Put32(counter);
    Put32Get32(counter);
  }

  lemma AttestedParts(aaguid: Bytes, id: Bytes, key: Point, extensions: Bytes)
    requires |aaguid| == 16 && |id| < 0x1_0000
    ensures var r := Attested(aaguid, id, key) + extensions;
            && 18 <= |r| && r[..16] == aaguid && Get16(r[16..18]) == |id|
            && |id| <= |r[18..]| && r[18..][..|id|] == id && r[18..][|id|..] == CoseKey(key) + extensions
  {
  }

  /** Printing then parsing: canonical bytes are accepted and give back what was written. */
  lemma CanonicalIsAccepted(rpHash: Bytes, reg: Registration, cred: Credential, flags: byte, extensions: Bytes)
    requires |rpHash| == 32 && Canonical(rpHash, reg, cred, flags, extensions)
    ensures VerifyRegistration(rpHash, reg) == Accepted(cred)
  {
    var rest := Attested(cred.aaguid, cred.id, cred.key) + extensions;
    assert reg.authData == Head(rpHash, flags, cred.signCount) + rest;
    HeadParts(rpHash, flags, cred.signCount, rest);
    AttestedParts(cred.aaguid, cred.id, cred.key, extensions);
    assert CoseKey(cred.key) <= CoseKey(cred.key) + extensions;
  }

  lemma HeadSplit(b: Bytes)
    requires 37 <= |b|
    ensures b == Head(b[..32], b[32], Get32(b[33..37])) + b[37..] && Get32(b[33..37]) < TWO_TO_32
  {
    Get32Put32(b[33..37]);
    assert b == b[..32] + [b[32]] + b[33..37] + b[37..];
  }

  lemma AttestedSplit(rest: Bytes, key: Point)
    requires 18 <= |rest| && Get16(rest[16..18]) <= |rest[18..]| && CoseKey(key) <= rest[18..][Get16(rest[16..18])..]
    ensures var n := Get16(rest[16..18]);
            rest == Attested(rest[..16], rest[18..][..n], key) + rest[18..][n..][|CoseKey(key)|..]
  {
    var tail := rest[18..];
    var n := Get16(rest[16..18]);
    var coseKey := tail[n..];
    Get16Put16(rest[16..18]);
    assert rest == rest[..16] + rest[16..18] + tail;
    assert tail == tail[..n] + coseKey;
    assert coseKey == CoseKey(key) + coseKey[|CoseKey(key)|..];
    assert rest == rest[..16] + Put16(n) + (tail[..n] + (CoseKey(key) + coseKey[|CoseKey(key)|..]));
  }

  /** Parsing then printing: every accepted registration is canonical, so its
      bytes are exactly the encoding of what is returned. */
  lemma AcceptedIsCanonical(rpHash: Bytes, reg: Registration) returns (flags: byte, extensions: Bytes)
    requires |rpHash| == 32 && VerifyRegistration(rpHash, reg).Accepted?
    ensures Canonical(rpHash, reg, VerifyRegistration(rpHash, reg).value, flags, extensions)
  {
    var b, cred := reg.authData, VerifyRegistration(rpHash, reg).value;
    flags := b[32];
    var rest := b[37..];
    extensions := rest[18..][|cred.id|..][|CoseKey(cred.key)|..];
    HeadSplit(b);
    AttestedSplit(rest, cred.key);
    Joins(Head(rpHash, flags, cred.signCount), Attested(cred.aaguid, cred.id, cred.key), extensions);
  }

  lemma Joins(a: Bytes, b: Bytes, c: Bytes)
    ensures a + (b + c) == a + b + c
  {
  }

  lemma AcceptedMeans(rpHash: Bytes, reg: Registration)
    ensures VerifyRegistration(rpHash, reg).Accepted? ==>
              && 37 <= |reg.authData| && Has(reg.authData[32], FLAG_UP) && Has(reg.authData[32], FLAG_UV)
              && 1 <= |reg.credentialID| <= MAX_CREDENTIAL_ID
  {
  }

  /** Register's bytes parse back to the authenticator's own values exactly when
      its credential ID has 1 to 1023 bytes and it reports presence and
      verification; otherwise they are refused. */
  lemma RegisterRoundTrip(rpHash: Bytes, key: Point, id: Bytes, aaguid: Bytes, flags: byte, counter: nat)
    requires |rpHash| == 32 && |aaguid| == 16 && key.Valid() && counter < TWO_TO_32
    ensures var r := VerifyRegistration(rpHash, Registered(rpHash, key, id, aaguid, flags, counter));
            if 1 <= |id| <= MAX_CREDENTIAL_ID && Has(flags, FLAG_UP) && Has(flags, FLAG_UV)
            then r == Accepted(Credential(id, key, counter, aaguid, Has(flags, FLAG_BE)))
            else r.Refused?
  {
    var reg := Registered(rpHash, key, id, aaguid, flags, counter);
    FlagsKept(flags);
    if 1 <= |id| <= MAX_CREDENTIAL_ID && Has(flags, FLAG_UP) && Has(flags, FLAG_UV) {
      assert reg.authData == Head(rpHash, WithAT(flags), counter) + Attested(aaguid, id, key) + [];
      CanonicalIsAccepted(rpHash, reg, Credential(id, key, counter, aaguid, Has(flags, FLAG_BE)), WithAT(flags), []);
    } else {
      HeadParts(rpHash, WithAT(flags), counter, Attested(aaguid, id, key));
      AcceptedMeans(rpHash, reg);
    }
  }

  lemma FlagsKept(flags: byte)
    ensures Has(WithAT(flags), FLAG_AT)
    ensures Has(WithAT(flags), FLAG_UP) == Has(flags, FLAG_UP) && Has(WithAT(flags), FLAG_UV) == Has(flags, FLAG_UV)
    ensures Has(WithAT(flags), FLAG_BE) == Has(flags, FLAG_BE)
  {
    var a := flags + FLAG_AT;
    assert a / 1 % 2 == flags % 2 && a / 4 == flags / 4 + 16 && a / 8 == flags / 8 + 8 && a / 64 == flags / 64 + 1;
  }

  // ---------- what is refused, and why ----------

  /** One of the eight flags is set. */
  lemma FlagsExactly(flags: byte)
    ensures Has(flags, FLAG_UP) <==> flags % 2 == 1
    ensures Has(flags, FLAG_UV) <==> flags / 4 % 2 == 1
    ensures Has(flags, FLAG_BE) <==> flags / 8 % 2 == 1
    ensures Has(flags, FLAG_AT) <==> flags / 64 % 2 == 1
    ensures Has(flags, FLAG_ED) <==> 128 <= flags
    ensures WithAT(flags) == if flags / 64 % 2 == 1 then flags else flags + 64
  {
  }

  /** The data is long enough and for this relying party. */
  predicate ForParty(rpHash: Bytes, b: Bytes) { 37 <= |b| && b[..32] == rpHash }

  /** The person was present and verified. */
  predicate Verified(b: Bytes)
    requires 37 <= |b|
  {
    b[32] % 2 == 1 && b[32] / 4 % 2 == 1
  }

  /** The signature counter: four bytes, the highest first. */
  function CounterIn(b: Bytes): nat
    requires 37 <= |b|
  {
    (b[33] as int) * 0x100_0000 + (b[34] as int) * 0x1_0000 + (b[35] as int) * 0x100 + (b[36] as int)
  }

  /** Every answer to a sign-in, in the order the checks are made. */
  lemma AssertionExactly(rpHash: Bytes, b: Bytes, clientDataOk: bool, keyOk: bool, signatureOk: bool, stored: nat)
    ensures var r := VerifyAssertion(rpHash, b, clientDataOk, keyOk, signatureOk, stored);
            if !clientDataOk then r == Refused(ErrClientData)
            else if !ForParty(rpHash, b) then r == Refused(ErrAuthData)
            else if !Verified(b) then r == Refused(ErrNotVerified)
            else if !keyOk then r == Refused(ErrKey)
            else if !signatureOk then r == Refused(ErrSignature)
            else if CounterIn(b) == stored == 0 || stored < CounterIn(b) then r == Accepted(CounterIn(b))
            else r == Refused(ErrCounter)
  {
  }

  /** The reported credential ID, of 1 to 1023 bytes, is the one in the attested data. */
  ghost predicate HoldsID(b: Bytes, id: Bytes) {
    && 37 <= |b| && b[32] / 64 % 2 == 1 && 1 <= |id| <= 1023
    && exists aaguid: Bytes, rest: Bytes :: |aaguid| == 16 && b[37..] == aaguid + Put16(|id|) + id + rest
  }

  lemma HoldsIDParts(b: Bytes, id: Bytes)
    requires 37 <= |b| && 55 <= |b|
    ensures HoldsID(b, id) <==>
              && b[32] / 64 % 2 == 1 && 1 <= |id| <= 1023 && Get16(b[37..][16..18]) == |id|
              && |id| <= |b| - 55 && b[55..][..|id|] == id
  {
    var rest := b[37..];
    if HoldsID(b, id) {
      var aaguid: Bytes, more: Bytes :| |aaguid| == 16 && rest == aaguid + Put16(|id|) + id + more;
      assert rest[16..18] == Put16(|id|);
      assert rest[18..] == id + more && rest[18..] == b[55..];
      Put16Get16(|id|);
    }
    if Get16(rest[16..18]) == |id| && |id| <= |b| - 55 && b[55..][..|id|] == id {
      Get16Put16(rest[16..18]);
      assert b[55..] == rest[18..] == id + b[55..][|id|..];
      assert rest == rest[..16] + Put16(|id|) + id + b[55..][|id|..];
    }
  }

  lemma HoldsIDLong(b: Bytes, id: Bytes)
    requires HoldsID(b, id)
    ensures 55 <= |b|
  {
    var aaguid: Bytes, more: Bytes :| |aaguid| == 16 && b[37..] == aaguid + Put16(|id|) + id + more;
    assert |b[37..]| == 16 + 2 + |id| + |more|;
  }

  /** Why a registration is refused, in the order the checks are made; what is accepted is
      the subject of CanonicalIsAccepted and AcceptedIsCanonical. */
  lemma RegistrationRefused(rpHash: Bytes, reg: Registration)
    ensures var r, b := VerifyRegistration(rpHash, reg), reg.authData;
            && (r == Refused(ErrClientData) <==> !reg.clientDataOk)
            && (r == Refused(ErrNotVerified) <==> reg.clientDataOk && ForParty(rpHash, b) && !Verified(b))
            && (r == Refused(ErrAuthData) <==>
                  reg.clientDataOk && (!ForParty(rpHash, b) || (Verified(b) && !HoldsID(b, reg.credentialID))))
            && (r.Refused? ==> r.error in {ErrClientData, ErrNotVerified, ErrAuthData, ErrKey})
  {
    var b, id := reg.authData, reg.credentialID;
    if ForParty(rpHash, b) {
      FlagsExactly(b[32]);
      if 55 <= |b| {
        HoldsIDParts(b, id);
        assert b[37..][18..] == b[55..];
      } else if HoldsID(b, id) {
        HoldsIDLong(b, id);
      }
    }
  }

  // ---------- the key's encoding ----------

  /** Section 3 of RFC 8949: an integer below 24 in size, and a byte string below 256. */
  function CborInt(n: int): Bytes
    requires -24 <= n < 24
  {
    if 0 <= n then [n] else [0x20 - 1 - n]
  }

  function CborBytes(b: Bytes): Bytes
    requires 24 <= |b| < 256
  {
    [0x58, |b|] + b
  }

  function CborMap(entries: nat): Bytes
    requires entries < 24
  {
    [0xa0 + entries]
  }

  /** The key is the map of section 7.1.1 of RFC 9053: an elliptic-curve key (1: 2) for
      ES256 (3: -7) on P-256 (-1: 1), with its two coordinates (-2 and -3). */
  lemma CoseKeyIsCbor(p: Point)
    requires p.Valid()
    ensures CoseKey(p) ==
            CborMap(5) + CborInt(1) + CborInt(2) + CborInt(3) + CborInt(-7) + CborInt(-1) + CborInt(1)
            + CborInt(-2) + CborBytes(p.x) + CborInt(-3) + CborBytes(p.y)
  {
  }

  // ---------- the signature counter ----------

  /** An authenticator that counts, counts up by one and wraps after 32 bits; one that
      reports zero always does. */
  lemma TickedExactly(counter: nat)
    ensures Ticked(0) == 0
    ensures 0 < counter < 0xffff_ffff ==> Ticked(counter) == counter + 1
    ensures Ticked(0xffff_ffff) == 0
  {
  }

  /** One sign-in with a stored passkey: the authenticator data, the outcomes of
      the checks outside this model, and whether the new counter is stored. */
  datatype SignIn = SignIn(authData: Bytes, clientDataOk: bool, keyOk: bool, signatureOk: bool, touched: bool)

  function Check(rpHash: Bytes, s: SignIn, stored: nat): Result<nat> {
    VerifyAssertion(rpHash, s.authData, s.clientDataOk, s.keyOk, s.signatureOk, stored)
  }

  function Touched(rpHash: Bytes, s: SignIn, stored: nat): nat {
    var r := Check(rpHash, s, stored);
    if r.Accepted? && s.touched then r.value else stored
  }

  /** The counters stored over a run of sign-ins, one after another. */
  function Counters(rpHash: Bytes, ss: seq<SignIn>, stored: nat): seq<nat> {
    if ss == [] then []
    else
      var next := Touched(rpHash, ss[0], stored);
      (if Check(rpHash, ss[0], stored).Accepted? && ss[0].touched then [next] else []) + Counters(rpHash, ss[1..], next)
  }

  /** Each counter written is above the one before, or both are zero. */
  ghost predicate Climbs(from: nat, counters: seq<nat>)
    decreases |counters|
  {
    counters == [] || ((from < counters[0] || from == counters[0] == 0) && Climbs(counters[0], counters[1..]))
  }

  /** Over any sequential sign-ins the stored counter stays zero or strictly increases. */
  lemma {:induction false} CounterClimbs(rpHash: Bytes, ss: seq<SignIn>, stored: nat)
    ensures Climbs(stored, Counters(rpHash, ss, stored))
    decreases |ss|
  {
    if ss == [] {
    } else {
      var next := Touched(rpHash, ss[0], stored);
      CounterClimbs(rpHash, ss[1..], next);
      var rest := Counters(rpHash, ss[1..], next);
      if Check(rpHash, ss[0], stored).Accepted? && ss[0].touched {
        assert ([next] + rest)[1..] == rest;
      } else {
        assert Counters(rpHash, ss, stored) == rest;
      }
    }
  }

  /** A genuine authenticator's next sign-in passes the counter check exactly
      until its 32-bit counter wraps. */
  lemma GenuineSignInAccepted(rpHash: Bytes, flags: byte, counter: nat)
    requires |rpHash| == 32 && Has(flags, FLAG_UP) && Has(flags, FLAG_UV) && counter < TWO_TO_32
    ensures var s := SignIn(Head(rpHash, flags, Ticked(counter)), true, true, true, true);
            Check(rpHash, s, counter) == if counter == TWO_TO_32 - 1 then Refused(ErrCounter)
                                         else Accepted(Ticked(counter))
  {
    assert Head(rpHash, flags, Ticked(counter)) + [] == Head(rpHash, flags, Ticked(counter));
    HeadParts(rpHash, flags, Ticked(counter), []);
  }
}
