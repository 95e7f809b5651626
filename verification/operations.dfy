/**
 * What AddECDSAKey, GetECDSAKey, Sign and HardwareRemoveKey do to a token,
 * as functions of the token's state, and the properties that follow.
 */
module KeyOperations {
  import opened Wrappers
  import opened Pkcs11
  import opened Policy
  import opened Crypto
  import opened EcPoint
  import opened KeyListing
  import opened SlotAllocator
  import opened Paging

  /** The error an operation returns (None is Go's nil) and the token's objects afterwards. */
  datatype Effect = Effect(err: Option<Error>, objects: seq<TokenObject>)

  /** GetECDSAKey's result: the PKIX encoding of the public key and its role. */
  datatype PublicKeyInfo = PublicKeyInfo(pkix: Bytes, role: string)

  /** GetECDSAKey's search: a public key on the token with the slot's CKA_ID. */
  function PublicKeyTemplate(slotId: Bytes): Template {
    Template(Some(true), Some(CkoPublicKey), None, Some(slotId))
  }

  /** Sign's search: an EC private key with the slot's CKA_ID; CKA_TOKEN is not part of it. */
  function PrivateKeyTemplate(slotId: Bytes): Template {
    Template(None, Some(CkoPrivateKey), Some(EcKey), Some(slotId))
  }

  /** HardwareRemoveKey's search: a certificate on the token with the slot's CKA_ID. */
  function CertificateTemplate(slotId: Bytes): Template {
    Template(Some(true), Some(CkoCertificate), None, Some(slotId))
  }

  /** The attributes GetECDSAKey reads from the public key. */
  const PublicKeyAttributes: seq<AttributeType> := [CkaKeyType, CkaEcPoint, CkaEcParams]

  /** The certificate template AddECDSAKey imports. */
  function CertificateObject(slotId: Bytes, der: Bytes): TokenObject {
    TokenObject(CkoCertificate, false, None, slotId, der, [], [], 0)
  }

  /** The private key template AddECDSAKey imports, carrying the key mode in CKA_VENDOR_DEFINED. */
  function PrivateKeyObject(slotId: Bytes, scalar: Bytes, keymode: int): TokenObject {
    TokenObject(CkoPrivateKey, false, Some(EcKey), slotId, scalar, P256Params, [], keymode)
  }

  /**
   * The single-handle search of GetECDSAKey, Sign and HardwareRemoveKey:
   * C_FindObjects is asked for one handle, so only the absence of a match is
   * detected, and with several matches the first is used.
   */
  function FindFirst(st: TokenState, t: Template): (r: Result<Option<Handle>, Error>)
    ensures r.Ok? ==> FindInitAccepted(st)
    ensures r.Ok? ==> (r.value.None? <==> MatchingHandles(st.objects, t) == [])
    ensures r.Ok? && r.value.Some? ==> r.value.value == MatchingHandles(st.objects, t)[0]
    ensures r.Ok? && r.value.Some? ==> r.value.value < |st.objects| && Matches(st.objects[r.value.value], t)
    ensures r.Err? ==> r.error in {FindInitFailed, FindFailed, FindFinalFailed}
  {
    if !FindInitAccepted(st) then Err(FindInitFailed)
    else if FindFault(0) in st.faults then Err(FindFailed)
    else if FindFinalFault in st.faults then Err(FindFinalFailed)
    else
      var hs := MatchingHandles(st.objects, t);
      Ok(if hs == [] then None else Some(hs[0]))
  }

  /**
   * AddECDSAKey: as security officer, import a self-signed certificate for
   * the role and then the private key, both under the slot's CKA_ID. A
   * failure of the second import leaves the certificate behind.
   */
  function Import(crypto: Crypto, st: TokenState, keymode: int, slotId: Bytes, privateKey: Bytes,
                  pin: string, role: string): (e: Effect)
    ensures st.objects <= e.objects
    ensures e.err.None? <==> |e.objects| == |st.objects| + 2
    ensures e.err.Some? ==> e.err.value in {LoginFailed, KeyParseFailed, CertificateFailed, ImportFailed}
    ensures e.err.None? ==> LoginAccepted(st, CKU_SO, pin)
  {
    if !LoginAccepted(st, CKU_SO, pin) then Effect(Some(LoginFailed), st.objects)
    else ImportSteps(crypto, st, keymode, slotId, privateKey, role)
  }

  /** What AddECDSAKey does once logged in. */
  function ImportSteps(crypto: Crypto, st: TokenState, keymode: int, slotId: Bytes, privateKey: Bytes,
                       role: string): (e: Effect)
    ensures st.objects <= e.objects && |e.objects| <= |st.objects| + 2
    ensures e.err.None? <==> |e.objects| == |st.objects| + 2
    ensures e.err.Some? ==> e.err.value in {KeyParseFailed, CertificateFailed, ImportFailed}
    ensures e.err.Some? && e.err.value != ImportFailed ==> e.objects == st.objects
  {
    match crypto.parseEcPrivateKey(privateKey)
    case None => Effect(Some(KeyParseFailed), st.objects)
    case Some(key) =>
      match crypto.createCertificate(role, key)
      case None => Effect(Some(CertificateFailed), st.objects)
      case Some(der) =>
        var cert := Imported(CertificateObject(slotId, der));
        if CreateFault(CkoCertificate) in st.faults then Effect(Some(ImportFailed), st.objects)
        else if CreateFault(CkoPrivateKey) in st.faults then Effect(Some(ImportFailed), st.objects + [cert])
        else Effect(None, st.objects + [cert, Imported(PrivateKeyObject(slotId, key.scalar, keymode))])
  }

  /** GetECDSAKey: the public key of the first public-key object with the slot's CKA_ID, always with role root. */
  function PublicKeyOf(crypto: Crypto, st: TokenState, slotId: Bytes): (r: Result<PublicKeyInfo, Error>)
    ensures r.Ok? ==> r.value.role == CanonicalRootRole
    ensures r.Ok? ==> exists k :: crypto.marshalPkix(k) == Some(r.value.pkix)
    ensures r.Ok? ==> MatchingHandles(st.objects, PublicKeyTemplate(slotId)) != []
  {
    match FindFirst(st, PublicKeyTemplate(slotId))
    case Err(e) => Err(e)
    case Ok(None) => Err(NoMatchingKeys)
    case Ok(Some(h)) =>
      if !Readable(st, h) then Err(AttributeReadFailed)
      else
        var raw := LastOfType(Attributes(st.objects[h], PublicKeyAttributes), CkaEcPoint).GetOr([]);
        match DecodePoint(raw)
        case None => Err(SliceOutOfRange)
        case Some(k) =>
          match crypto.marshalPkix(k)
          case None => Err(MarshalFailed)
          case Some(pub) => Ok(PublicKeyInfo(pub, CanonicalRootRole))
  }

  /** Sign: as user, sign the SHA-256 digest of the payload with the first private key of the slot. */
  function Signature(crypto: Crypto, mechanism: (Bytes, Bytes) -> Option<Bytes>, st: TokenState,
                     slotId: Bytes, pin: string, payload: Bytes): (r: Result<Bytes, Error>)
    ensures r.Ok? ==> LoginAccepted(st, CKU_USER, pin)
    ensures r.Err? && LoginAccepted(st, CKU_USER, pin) ==> r.error != LoginFailed
  {
    if !LoginAccepted(st, CKU_USER, pin) then Err(LoginFailed)
    else SignSteps(crypto, mechanism, st, slotId, payload)
  }

  /** What Sign does once logged in. */
  function SignSteps(crypto: Crypto, mechanism: (Bytes, Bytes) -> Option<Bytes>, st: TokenState,
                     slotId: Bytes, payload: Bytes): (r: Result<Bytes, Error>)
    ensures r.Err? ==> r.error != LoginFailed
    ensures r.Ok? ==> var found := FindFirst(st, PrivateKeyTemplate(slotId));
      && found.Ok? && found.value.Some?
      && mechanism(st.objects[found.value.value].value, crypto.sha256(payload)) == Some(r.value)
    ensures r == Err(NotOneObject) <==> FindFirst(st, PrivateKeyTemplate(slotId)) == Ok(None)
  {
    match FindFirst(st, PrivateKeyTemplate(slotId))
    case Err(e) => Err(e)
    case Ok(None) => Err(NotOneObject)
    case Ok(Some(h)) =>
      if SignInitFault in st.faults then Err(SignInitFailed)
      else if SignFault in st.faults then Err(SignFailed)
      else
        match mechanism(st.objects[h].value, crypto.sha256(payload))
        case None => Err(NoSignature)
        case Some(sig) => Ok(sig)
  }

  /**
   * HardwareRemoveKey: as security officer, destroy the first certificate
   * with the slot's CKA_ID. The private key is not destroyed, and finding no
   * certificate is not an error.
   */
  function Removal(st: TokenState, slotId: Bytes, pin: string): (e: Effect)
    ensures e.objects != st.objects ==> e.err.None? && LoginAccepted(st, CKU_SO, pin)
    ensures |e.objects| >= |st.objects| - 1 && |e.objects| <= |st.objects|
  {
    if !LoginAccepted(st, CKU_SO, pin) then Effect(Some(LoginFailed), st.objects)
    else RemovalSteps(st, slotId)
  }

  /** What HardwareRemoveKey does once logged in. */
  function RemovalSteps(st: TokenState, slotId: Bytes): (e: Effect)
    ensures e.objects != st.objects ==> e.err.None?
    ensures |e.objects| >= |st.objects| - 1 && |e.objects| <= |st.objects|
    ensures e.err.Some? ==> e.err.value in {FindInitFailed, FindFailed, FindFinalFailed, DestroyFailed}
  {
    match FindFirst(st, CertificateTemplate(slotId))
    case Err(e) => Effect(Some(e), st.objects)
    case Ok(None) => Effect(None, st.objects)  // the nil error of the C_FindObjects call
    case Ok(Some(h)) =>
      if DestroyFault in st.faults then Effect(Some(DestroyFailed), st.objects)
      else Effect(None, st.objects[..h] + st.objects[h + 1..])
  }

  // ---------------------------------------------------------------------------
  // AddECDSAKey

  /** A failing private-key import leaves the freshly imported certificate on the token. */
  lemma ImportLeavesCertificateOnKeyFailure(crypto: Crypto, st: TokenState, keymode: int, slotId: Bytes,
                                            privateKey: Bytes, pin: string, role: string, key: EcPrivateKey, der: Bytes)
    requires LoginAccepted(st, CKU_SO, pin)
    requires crypto.parseEcPrivateKey(privateKey) == Some(key) && crypto.createCertificate(role, key) == Some(der)
    requires CreateFault(CkoCertificate) !in st.faults && CreateFault(CkoPrivateKey) in st.faults
    ensures var e := Import(crypto, st, keymode, slotId, privateKey, pin, role);
      && e.err == Some(ImportFailed)
      && e.objects == st.objects + [Imported(CertificateObject(slotId, der))]
      && Matches(e.objects[|st.objects|], CertificateTemplate(slotId))
  {
  }

  /** Import checks nothing about the slot: whether it is occupied does not change the outcome. */
  lemma ImportIgnoresOccupancy(crypto: Crypto, st: TokenState, others: seq<TokenObject>, keymode: int,
                               slotId: Bytes, privateKey: Bytes, pin: string, role: string)
    ensures Import(crypto, st, keymode, slotId, privateKey, pin, role).err
         == Import(crypto, st.(objects := others), keymode, slotId, privateKey, pin, role).err
  {
  }

  /** The objects of a successful import: the certificate and then the private key, both at the end. */
  lemma ImportedObjects(crypto: Crypto, st: TokenState, keymode: int, slotId: Bytes, privateKey: Bytes,
                        pin: string, role: string) returns (key: EcPrivateKey, der: Bytes)
    requires Import(crypto, st, keymode, slotId, privateKey, pin, role).err.None?
    ensures crypto.parseEcPrivateKey(privateKey) == Some(key) && crypto.createCertificate(role, key) == Some(der)
    ensures Import(crypto, st, keymode, slotId, privateKey, pin, role).objects
         == st.objects + [Imported(CertificateObject(slotId, der)), Imported(PrivateKeyObject(slotId, key.scalar, keymode))]
  {
    key := crypto.parseEcPrivateKey(privateKey).value;
    der := crypto.createCertificate(role, key).value;
  }

  /**
   * A successful import appends the certificate and then the private key, so
   * a search afterwards finds the earlier matches, then whichever of the two
   * match its template.
   */
  lemma ImportedHandles(crypto: Crypto, st: TokenState, keymode: int, slotId: Bytes, privateKey: Bytes,
                        pin: string, role: string, t: Template) returns (key: EcPrivateKey, der: Bytes)
    requires Import(crypto, st, keymode, slotId, privateKey, pin, role).err.None?
    ensures crypto.parseEcPrivateKey(privateKey) == Some(key) && crypto.createCertificate(role, key) == Some(der)
    ensures var after := Import(crypto, st, keymode, slotId, privateKey, pin, role).objects;
      var cert := Imported(CertificateObject(slotId, der));
      var priv := Imported(PrivateKeyObject(slotId, key.scalar, keymode));
      && after == st.objects + [cert, priv]
      && MatchingHandles(after, t)
         == MatchingHandles(st.objects, t)
            + (if Matches(cert, t) then [|st.objects|] else [])
            + (if Matches(priv, t) then [|st.objects| + 1] else [])
  {
    key, der := ImportedObjects(crypto, st, keymode, slotId, privateKey, pin, role);
    var cert := Imported(CertificateObject(slotId, der));
    var priv := Imported(PrivateKeyObject(slotId, key.scalar, keymode));
    MatchingHandlesAppend(st.objects, cert, t);
    MatchingHandlesAppend(st.objects + [cert], priv, t);
    assert st.objects + [cert] + [priv] == st.objects + [cert, priv];
  }

  /**
   * After a successful import, the certificate is the last one on the token,
   * so a listing without token failures reports the imported key under its
   * fingerprint with the role and slot it was imported with.
   */
  lemma ImportThenList(crypto: Crypto, st: TokenState, keymode: int, slotId: Bytes, privateKey: Bytes,
                       pin: string, role: string, key: EcPrivateKey, pub: Bytes)
    requires CertificatesRoundTrip(crypto)
    requires Import(crypto, st, keymode, slotId, privateKey, pin, role).err.None?
    requires crypto.parseEcPrivateKey(privateKey) == Some(key) && crypto.marshalPkix(key.publicKey) == Some(pub)
    requires FindInitAccepted(st) && NoFindFaults(st.faults) && FindFinalFault !in st.faults
    requires GetAttributeFault(|st.objects|) !in st.faults
    ensures var after := st.(objects := Import(crypto, st, keymode, slotId, privateKey, pin, role).objects);
      && Listing(crypto, after).Ok?
      && crypto.keyId(pub) in Listing(crypto, after).value
      && Listing(crypto, after).value[crypto.keyId(pub)] == HardwareSlot(role, slotId, "")
  {
    var k, der := ImportedHandles(crypto, st, keymode, slotId, privateKey, pin, role, TokenCertificates);
    var after := st.(objects := Import(crypto, st, keymode, slotId, privateKey, pin, role).objects);
    var hs := MatchingHandles(after.objects, TokenCertificates);
    assert hs == MatchingHandles(st.objects, TokenCertificates) + [|st.objects|];
    var cert := Certificate(role, Ecdsa, key.publicKey);
    assert crypto.parseCertificate(after.objects[|st.objects|].value) == Some(cert);
    LastCertificateListed(crypto, after, cert, pub);
  }

  /**
   * After a successful import into slot s, the allocator does not hand out
   * s again, as long as the imported certificate's CKA_ID can be read.
   */
  lemma ImportedSlotIsTaken(crypto: Crypto, st: TokenState, keymode: int, s: nat, privateKey: Bytes,
                            pin: string, role: string)
    requires s < NumSlots
    requires Import(crypto, st, keymode, [s], privateKey, pin, role).err.None?
    requires GetAttributeFault(|st.objects|) !in st.faults
    ensures Allocate(st.(objects := Import(crypto, st, keymode, [s], privateKey, pin, role).objects)) != Ok([s])
  {
    var key, der := ImportedObjects(crypto, st, keymode, [s], privateKey, pin, role);
    var after := st.(objects := Import(crypto, st, keymode, [s], privateKey, pin, role).objects);
    var h := |st.objects|;
    assert after.objects[h] == Imported(CertificateObject([s], der));
    if Allocate(after).Ok? {
      AllocatedSlotIsFree(after);
      assert after.objects[h].onToken && Readable(after, h) && |after.objects[h].id| >= 1;
    }
  }

  // ---------------------------------------------------------------------------
  // GetECDSAKey

  /**
   * GetECDSAKey returns the point the first matching public key encodes,
   * whether or not other public keys share the slot's CKA_ID.
   */
  lemma PublicKeyOfEncodedPoint(crypto: Crypto, st: TokenState, slotId: Bytes, k: EcPublicKey, pub: Bytes)
    requires FindFirst(st, PublicKeyTemplate(slotId)).Ok?
    requires MatchingHandles(st.objects, PublicKeyTemplate(slotId)) != []
    requires var h := MatchingHandles(st.objects, PublicKeyTemplate(slotId))[0];
      Readable(st, h) && Encodable(k) && st.objects[h].ecPoint == EncodePoint(k)
    requires crypto.marshalPkix(k) == Some(pub)
    ensures PublicKeyOf(crypto, st, slotId) == Ok(PublicKeyInfo(pub, CanonicalRootRole))
  {
    var h := MatchingHandles(st.objects, PublicKeyTemplate(slotId))[0];
    LastOfTypeAttributes(st.objects[h], PublicKeyAttributes, CkaEcPoint);
    DecodeEncoded(k);
  }

  /** A CKA_EC_POINT shorter than 35 bytes makes the coordinate slicing fail. */
  lemma ShortPointFails(crypto: Crypto, st: TokenState, slotId: Bytes)
    requires FindFirst(st, PublicKeyTemplate(slotId)).Ok?
    requires MatchingHandles(st.objects, PublicKeyTemplate(slotId)) != []
    requires var h := MatchingHandles(st.objects, PublicKeyTemplate(slotId))[0];
      Readable(st, h) && |st.objects[h].ecPoint| < 35
    ensures PublicKeyOf(crypto, st, slotId) == Err(SliceOutOfRange)
  {
    var h := MatchingHandles(st.objects, PublicKeyTemplate(slotId))[0];
    LastOfTypeAttributes(st.objects[h], PublicKeyAttributes, CkaEcPoint);
  }

  /** Without a public-key object for the slot, the read fails with "no matching keys". */
  lemma NoPublicKeyFails(crypto: Crypto, st: TokenState, slotId: Bytes)
    requires FindFirst(st, PublicKeyTemplate(slotId)).Ok?
    requires forall h :: 0 <= h < |st.objects| ==> !Matches(st.objects[h], PublicKeyTemplate(slotId))
    ensures PublicKeyOf(crypto, st, slotId) == Err(NoMatchingKeys)
  {
  }


  // ---------------------------------------------------------------------------
  // Sign

  /**
   * Signing after a successful import into a slot that held no private key
   * uses the imported scalar.
   */
  lemma SignAfterImport(crypto: Crypto, mechanism: (Bytes, Bytes) -> Option<Bytes>, st: TokenState, keymode: int,
                        slotId: Bytes, privateKey: Bytes, soPin: string, role: string, pin: string, payload: Bytes,
                        key: EcPrivateKey)
    requires Import(crypto, st, keymode, slotId, privateKey, soPin, role).err.None?
    requires crypto.parseEcPrivateKey(privateKey) == Some(key)
    requires MatchingHandles(st.objects, PrivateKeyTemplate(slotId)) == []
    requires var after := st.(objects := Import(crypto, st, keymode, slotId, privateKey, soPin, role).objects);
      && LoginAccepted(after, CKU_USER, pin) && FindInitAccepted(after)
      && FindFault(0) !in st.faults && FindFinalFault !in st.faults
      && SignInitFault !in st.faults && SignFault !in st.faults
    ensures var after := st.(objects := Import(crypto, st, keymode, slotId, privateKey, soPin, role).objects);
      Signature(crypto, mechanism, after, slotId, pin, payload)
      == (match mechanism(key.scalar, crypto.sha256(payload))
          case None => Err(NoSignature)
          case Some(sig) => Ok(sig))
  {
    var t := PrivateKeyTemplate(slotId);
    var k, der := ImportedHandles(crypto, st, keymode, slotId, privateKey, soPin, role, t);
    var after := st.(objects := Import(crypto, st, keymode, slotId, privateKey, soPin, role).objects);
    var h := |st.objects| + 1;
    assert MatchingHandles(after.objects, t) == [h];
    assert FindFirst(after, t) == Ok(Some(h));
    assert after.objects[h].value == key.scalar;
  }

  /**
   * On a token that keeps several objects per CKA_ID, importing into a slot
   * that already holds a private key does not change which key signs: the
   * search takes the first matching handle, which is the older key. A PIV
   * slot holds one key, so on a YubiKey the import replaces it instead.
   */
  lemma ImportOverOccupiedSlotKeepsSigningKey(crypto: Crypto, mechanism: (Bytes, Bytes) -> Option<Bytes>, st: TokenState,
                                              keymode: int, slotId: Bytes, privateKey: Bytes, soPin: string, role: string,
                                              pin: string, payload: Bytes)
    requires Import(crypto, st, keymode, slotId, privateKey, soPin, role).err.None?
    requires MatchingHandles(st.objects, PrivateKeyTemplate(slotId)) != []
    ensures Signature(crypto, mechanism, st.(objects := Import(crypto, st, keymode, slotId, privateKey, soPin, role).objects),
                      slotId, pin, payload)
         == Signature(crypto, mechanism, st, slotId, pin, payload)
  {
    var t := PrivateKeyTemplate(slotId);
    var key, der := ImportedHandles(crypto, st, keymode, slotId, privateKey, soPin, role, t);
    var after := st.(objects := Import(crypto, st, keymode, slotId, privateKey, soPin, role).objects);
    var h := MatchingHandles(st.objects, t)[0];
    assert MatchingHandles(after.objects, t)[0] == h;
    assert after.objects[h] == st.objects[h];
    assert FindFirst(after, t) == FindFirst(st, t);
    assert SignSteps(crypto, mechanism, after, slotId, payload) == SignSteps(crypto, mechanism, st, slotId, payload);
  }

  /** A signature is the mechanism's output for a private EC key of the slot and the payload's digest. */
  lemma SignatureUsesSlotKey(crypto: Crypto, mechanism: (Bytes, Bytes) -> Option<Bytes>, st: TokenState,
                             slotId: Bytes, pin: string, payload: Bytes)
    requires Signature(crypto, mechanism, st, slotId, pin, payload).Ok?
    ensures exists h :: 0 <= h < |st.objects| && Matches(st.objects[h], PrivateKeyTemplate(slotId)) &&
                        mechanism(st.objects[h].value, crypto.sha256(payload))
                        == Some(Signature(crypto, mechanism, st, slotId, pin, payload).value)
  {
    var h := FindFirst(st, PrivateKeyTemplate(slotId)).value.value;
    assert 0 <= h < |st.objects| && Matches(st.objects[h], PrivateKeyTemplate(slotId));
  }

  /**
   * On a token that keeps several objects per CKA_ID, several private keys
   * with the slot's CKA_ID are not detected: the
   * search asks for one handle, so Sign never reports "not one object" when
   * there are two or more, and signs with the first.
   */
  lemma SeveralKeysNotDetected(crypto: Crypto, mechanism: (Bytes, Bytes) -> Option<Bytes>, st: TokenState,
                               slotId: Bytes, pin: string, payload: Bytes)
    requires |MatchingHandles(st.objects, PrivateKeyTemplate(slotId))| >= 2
    ensures Signature(crypto, mechanism, st, slotId, pin, payload) != Err(NotOneObject)
    ensures FindFirst(st, PrivateKeyTemplate(slotId)).Ok? ==>
      FindFirst(st, PrivateKeyTemplate(slotId)).value == Some(MatchingHandles(st.objects, PrivateKeyTemplate(slotId))[0])
  {
  }

  // ---------------------------------------------------------------------------
  // HardwareRemoveKey

  /** Removal either changes nothing or destroys exactly one certificate with the slot's CKA_ID. */
  lemma RemovalDestroysOneCertificate(st: TokenState, slotId: Bytes, pin: string) returns (h: nat)
    requires Removal(st, slotId, pin).objects != st.objects
    ensures h < |st.objects| && Matches(st.objects[h], CertificateTemplate(slotId))
    ensures Removal(st, slotId, pin).objects == st.objects[..h] + st.objects[h + 1..]
  {
    h := FindFirst(st, CertificateTemplate(slotId)).value.value;
  }

  /** Removing from a slot without a certificate succeeds and changes nothing. */
  lemma RemovalOfMissingKeySucceeds(st: TokenState, slotId: Bytes, pin: string)
    requires LoginAccepted(st, CKU_SO, pin) && FindFirst(st, CertificateTemplate(slotId)).Ok?
    requires forall h :: 0 <= h < |st.objects| ==> !Matches(st.objects[h], CertificateTemplate(slotId))
    ensures Removal(st, slotId, pin) == Effect(None, st.objects)
  {
  }

  /** Removal destroys no object other than a certificate: private and public keys survive. */
  lemma RemovalKeepsOtherObjects(st: TokenState, slotId: Bytes, pin: string)
    ensures forall o :: o in st.objects && o.objectClass != CkoCertificate ==> o in Removal(st, slotId, pin).objects
  {
    var e := Removal(st, slotId, pin);
    if e.objects != st.objects {
      var h := RemovalDestroysOneCertificate(st, slotId, pin);
      forall o | o in st.objects && o.objectClass != CkoCertificate ensures o in e.objects {
        var i :| 0 <= i < |st.objects| && st.objects[i] == o;
        if i < h {
          assert e.objects[i] == o;
        } else {
          assert i > h;
          assert e.objects[i - 1] == o;
        }
      }
    }
  }

  /** Removing the only certificate of a slot leaves no certificate of that slot on the token. */
  lemma RemovalOfOnlyCertificate(st: TokenState, slotId: Bytes, pin: string)
    requires |MatchingHandles(st.objects, CertificateTemplate(slotId))| == 1
    requires Removal(st, slotId, pin).err.None? && LoginAccepted(st, CKU_SO, pin)
    ensures forall h :: 0 <= h < |Removal(st, slotId, pin).objects| ==>
      !Matches(Removal(st, slotId, pin).objects[h], CertificateTemplate(slotId))
  {
    var t := CertificateTemplate(slotId);
    var hs := MatchingHandles(st.objects, t);
    var only := hs[0];
    assert FindFirst(st, t) == Ok(Some(only));
    var rest := Removal(st, slotId, pin).objects;
    assert rest == st.objects[..only] + st.objects[only + 1..];
    forall h | 0 <= h < |rest| ensures !Matches(rest[h], t) {
      var i := if h < only then h else h + 1;
      assert rest[h] == st.objects[i];
    }
  }

  /**
   * When a slot holds a single certificate, a successful removal destroys
   * it, and a listing afterwards has no key in that slot.
   */
  lemma RemovalThenList(crypto: Crypto, st: TokenState, slotId: Bytes, pin: string, id: string)
    requires |MatchingHandles(st.objects, CertificateTemplate(slotId))| == 1
    requires Removal(st, slotId, pin).err.None? && LoginAccepted(st, CKU_SO, pin)
    requires var after := st.(objects := Removal(st, slotId, pin).objects);
      Listing(crypto, after).Ok? && id in Listing(crypto, after).value
    ensures Listing(crypto, st.(objects := Removal(st, slotId, pin).objects)).value[id].slotId != slotId
  {
    var after := st.(objects := Removal(st, slotId, pin).objects);
    RemovalOfOnlyCertificate(st, slotId, pin);
    ListingSound(crypto, after, id);
    var h: Handle, cert: Certificate, pub: Bytes :|
      && h < |after.objects| && Readable(after, h)
      && Matches(after.objects[h], TokenCertificates)
      && crypto.parseCertificate(after.objects[h].value) == Some(cert)
      && cert.algorithm == Ecdsa
      && crypto.marshalPkix(cert.ecKey) == Some(pub)
      && id == crypto.keyId(pub)
      && Listing(crypto, after).value[id] == HardwareSlot(cert.commonName, after.objects[h].id, "");
    assert !Matches(after.objects[h], CertificateTemplate(slotId));
  }
}
