/**
 * The yubikey key store: the package-level key mode and the PKCS#11 context
 * it drives, with one method per operation of the store. Each method is
 * proved to return what the matching function of KeyOperations,
 * KeyListing or SlotAllocator says for the token state it started from.
 */
module Yubikey {
  import opened Wrappers
  import opened Pkcs11
  import opened Paging
  import opened Policy
  import opened Crypto
  import opened EcPoint
  import opened SlotAllocator
  import opened KeyListing
  import opened KeyOperations

  /** The user types of the successful logins an operation adds to the token's record. */
  function LoginRecord(f: FunctionId, accepted: bool): seq<nat> {
    if accepted then [NeedLogin(f).userType] else []
  }

  class KeyStore {
    var keymode: int     // the key mode new keys are imported with
    const token: Token   // the PKCS#11 context and its session
    const crypto: Crypto

    /** Between operations nobody is logged in and no signing operation is pending. */
    ghost predicate Valid()
      reads this, token
    {
      && token.Valid()
      && token.loggedIn.None?
      && token.signKey.None?
      && ValidKeyMode(keymode)
    }

    constructor (token: Token, crypto: Crypto)
      requires token.Valid() && token.loggedIn.None? && token.signKey.None?
      ensures Valid()
      ensures this.token == token && this.crypto == crypto
      ensures keymode == DefaultKeymode
    {
      this.token := token;
      this.crypto := crypto;
      keymode := DefaultKeymode;
    }

    /** Key modes 0 to 5 are accepted; anything else is refused and the mode is kept. */
    method SetYubikeyKeyMode(mode: int) returns (err: Option<Error>)
      requires Valid()
      modifies this`keymode
      ensures Valid()
      ensures err.None? <==> ValidKeyMode(mode)
      ensures err.Some? ==> err.value == InvalidKeyMode
      ensures keymode == if ValidKeyMode(mode) then mode else old(keymode)
    {
      if mode < 0 || mode > 5 {
        return Some(InvalidKeyMode);
      }
      keymode := mode;
      return None;
    }

    /**
     * The C_FindObjects loop of GetNextEmptySlot and listObjects after a
     * successful C_FindObjectsInit: a first call, then further calls until
     * one fails or returns an empty batch.
     */
    method FindPages() returns (handles: seq<Handle>, failed: bool)
      requires token.Valid() && token.findActive && token.findCalls == 0
      modifies token`cursor, token`findCalls
      ensures token.Valid() && token.findActive
      ensures Paged(handles, failed) == FindAll(old(token.cursor), NumSlots, token.faults)
    {
      ghost var spec := FindAll(token.cursor, NumSlots, token.faults);
      var ok, batch := FirstPage();
      handles, failed := batch, !ok;
      while !failed
        invariant token.Valid() && token.findActive
        invariant !failed ==>
          var tail := PageLoop(token.cursor, token.findCalls, NumSlots, token.faults);
          handles + tail.handles == spec.handles && tail.failed == spec.failed
        invariant failed ==> handles == spec.handles && spec.failed
        decreases |token.cursor|, if failed then 0 else 1
      {
        var more;
        ok, more := NextPage();
        if !ok {
          failed := true;
          continue;
        }
        if |more| == 0 {
          break;
        }
        handles := handles + more;
      }
    }

    /** The first C_FindObjects call of a search, and what it contributes to the search's result. */
    method FirstPage() returns (ok: bool, batch: seq<Handle>)
      requires token.Valid() && token.findActive && token.findCalls == 0
      modifies token`cursor, token`findCalls
      ensures token.Valid() && token.findActive
      ensures var spec := FindAll(old(token.cursor), NumSlots, token.faults);
        && (!ok ==> spec == Paged(batch, true))
        && (ok ==> var tail := PageLoop(token.cursor, token.findCalls, NumSlots, token.faults);
                   spec == Paged(batch + tail.handles, tail.failed))
    {
      ok, batch := token.FindObjects(NumSlots);
    }

    /** One further C_FindObjects call of the loop, and what it contributes to the search's result. */
    method NextPage() returns (ok: bool, batch: seq<Handle>)
      requires token.Valid() && token.findActive
      modifies token`cursor, token`findCalls
      ensures token.Valid() && token.findActive
      ensures var before := PageLoop(old(token.cursor), old(token.findCalls), NumSlots, token.faults);
        var after := PageLoop(token.cursor, token.findCalls, NumSlots, token.faults);
        && (!ok ==> before == Paged([], true) && token.cursor == old(token.cursor))
        && (ok && batch == [] ==> before == Paged([], false))
        && (ok && batch != [] ==> before == Paged(batch + after.handles, after.failed) && |token.cursor| < |old(token.cursor)|)
    {
      ok, batch := token.FindObjects(NumSlots);
    }

    /** GetNextEmptySlot: the first slot in the order 2, 1, 3, 0 that no stored object's CKA_ID marks. */
    method GetNextEmptySlot() returns (r: Result<Bytes, Error>)
      requires Valid()
      modifies token`findActive, token`cursor, token`findCalls
      ensures Valid()
      ensures r == Allocate(old(token.State()))
      ensures token.findActive == (old(token.findActive) || LeavesSearchOpen(r))
    {
      ghost var st := token.State();
      var ok := token.FindObjectsInit(PersistentObjects);
      if !ok {
        return Err(FindInitFailed);
      }
      var objs, failed := FindPages();
      if failed {
        return Err(FindFailed);
      }
      ok := token.FindObjectsFinal();
      if !ok {
        return Err(FindFinalFailed);
      }
      assert objs == Enumerated(st).handles;
      var taken := MarkTakenSlots(st, objs);
      r := PickFreeSlot(taken);
    }

    /** The preference loop of GetNextEmptySlot. */
    method PickFreeSlot(taken: set<nat>) returns (r: Result<Bytes, Error>)
      ensures r == FirstFreeSlot(taken)
    {
      for k := 0 to |SlotIds|
        invariant forall j :: 0 <= j < k ==> SlotIds[j] in taken
      {
        if SlotIds[k] !in taken {
          return Ok([SlotIds[k]]);
        }
      }
      return Err(NoAvailableSlots);
    }

    /** The marking loop of GetNextEmptySlot: every readable CKA_ID below NumSlots marks its slot as taken. */
    method MarkTakenSlots(ghost st: TokenState, objs: seq<Handle>) returns (taken: set<nat>)
      requires token.Agrees(st)
      ensures taken == TakenSlots(st, objs)
    {
      taken := {};
      for i := 0 to |objs|
        invariant taken == TakenSlots(st, objs[..i])
      {
        assert objs[..i + 1][..i] == objs[..i];
        var found, attrs := token.GetAttributeValue(objs[i], [CkaId]);
        if !found {
          continue;
        }
        for j := 0 to |attrs|
          invariant taken == TakenSlots(st, objs[..i]) + MarkedBy(attrs[..j])
        {
          assert attrs[..j + 1][..j] == attrs[..j];
          var a := attrs[j];
          if a.attrType == CkaId {
            if |a.value| < 1 {
              continue;
            }
            var slotNum := a.value[0];
            if slotNum >= NumSlots {
              continue;
            }
            taken := taken + {slotNum};
          }
        }
        assert attrs[..|attrs|] == attrs;
        MarkedByIdAttribute(token.objects[objs[i]]);
      }
      assert objs[..|objs|] == objs;
    }

    /** listObjects: the handles of the certificates stored on the token. */
    method ListObjects() returns (r: Result<seq<Handle>, Error>)
      requires Valid()
      modifies token`findActive, token`cursor, token`findCalls
      ensures Valid()
      ensures r == CertificateHandles(old(token.State()))
      ensures token.findActive == (old(token.findActive) || LeavesSearchOpen(r))
    {
      var ok := token.FindObjectsInit(TokenCertificates);
      if !ok {
        return Err(FindInitFailed);
      }
      var objs, failed := FindPages();
      if failed && |objs| == 0 {
        return Err(FindFailed);
      }
      ok := token.FindObjectsFinal();
      if !ok {
        return Err(FindFinalFailed);
      }
      return Ok(objs);
    }

    /** HardwareListKeys: the ECDSA keys of the stored certificates, by key fingerprint. */
    method HardwareListKeys() returns (r: Result<map<string, HardwareSlot>, Error>)
      requires Valid()
      modifies token`findActive, token`cursor, token`findCalls
      ensures Valid()
      ensures r == Listing(crypto, old(token.State()))
      ensures token.findActive == (old(token.findActive) || LeavesSearchOpen(r))
    {
      ghost var st := token.State();
      var listed := ListObjects();
      if listed.Err? {
        return Err(listed.error);
      }
      var objs := listed.value;
      if |objs| == 0 {
        return Err(NoKeysFound);
      }
      var keys := CollectKeys(st, objs);
      return Ok(keys);
    }

    /** The loop of HardwareListKeys over the certificate handles. */
    method CollectKeys(ghost st: TokenState, objs: seq<Handle>) returns (keys: map<string, HardwareSlot>)
      requires token.Agrees(st)
      ensures keys == Collect(crypto, st, objs)
    {
      keys := map[];
      for i := 0 to |objs|
        invariant keys == Collect(crypto, st, objs[..i])
      {
        assert objs[..i + 1][..i] == objs[..i];
        var found, attrs := token.GetAttributeValue(objs[i], ListedAttributes);
        if !found {
          continue;
        }
        var cert: Option<Certificate> := None;
        var slot: Bytes := [];
        for j := 0 to |attrs|
          invariant cert == CertOf(crypto, attrs[..j])
          invariant slot == LastOfType(attrs[..j], CkaId).GetOr([])
        {
          assert attrs[..j + 1][..j] == attrs[..j];
          if attrs[j].attrType == CkaId {
            slot := attrs[j].value;
          }
          if attrs[j].attrType == CkaValue {
            cert := crypto.parseCertificate(attrs[j].value);
            if cert.None? {
              continue;
            }
            if !crypto.validRole(cert.value.commonName) {
              continue;
            }
          }
        }
        assert attrs[..|attrs|] == attrs;
        if cert.None? {
          continue;
        }
        if cert.value.algorithm != Ecdsa {
          continue;
        }
        var pub := crypto.marshalPkix(cert.value.ecKey);
        if pub.None? {
          continue;
        }
        keys := keys[crypto.keyId(pub.value) := HardwareSlot(cert.value.commonName, slot, "")];
      }
      assert objs[..|objs|] == objs;
    }

    /**
     * The search of GetECDSAKey, Sign and HardwareRemoveKey: C_FindObjects
     * asks for one handle, and the search is finalized before the count is
     * looked at.
     */
    method FindOne(ghost st: TokenState, t: Template) returns (r: Result<Option<Handle>, Error>)
      requires token.Valid() && token.Agrees(st)
      modifies token`findActive, token`cursor, token`findCalls
      ensures token.Valid()
      ensures r == FindFirst(st, t)
      ensures token.findActive == (old(token.findActive) || LeavesSearchOpen(r))
    {
      var ok := token.FindObjectsInit(t);
      if !ok {
        return Err(FindInitFailed);
      }
      var batch;
      ok, batch := token.FindObjects(1);
      if !ok {
        return Err(FindFailed);
      }
      ok := token.FindObjectsFinal();
      if !ok {
        return Err(FindFinalFailed);
      }
      if |batch| != 1 {
        return Ok(None);
      }
      return Ok(Some(batch[0]));
    }

    /** AddECDSAKey: logs in as security officer, imports the key, and logs out again. */
    method AddECDSAKey(slot: HardwareSlot, privateKey: Bytes, pin: string, role: string) returns (err: Option<Error>)
      requires Valid()
      modifies token`loggedIn, token`logins, token`objects
      ensures Valid()
      ensures err == Import(crypto, old(token.State()), keymode, slot.slotId, privateKey, pin, role).err
      ensures token.objects == Import(crypto, old(token.State()), keymode, slot.slotId, privateKey, pin, role).objects
      ensures token.logins
           == old(token.logins) + LoginRecord(FunctionAddEcdsaKey, LoginAccepted(old(token.State()), CKU_SO, pin))
    {
      var ok := token.Login(CKU_SO, pin);
      if !ok {
        return Some(LoginFailed);
      }
      err := ImportAsSecurityOfficer(old(token.State()), slot, privateKey, role);
      token.Logout();
    }

    /** The body of AddECDSAKey between login and the deferred logout. */
    method ImportAsSecurityOfficer(ghost st: TokenState, slot: HardwareSlot, privateKey: Bytes, role: string)
      returns (err: Option<Error>)
      requires token.Valid() && token.loggedIn == Some(CKU_SO) && token.Agrees(st)
      modifies token`objects
      ensures token.Valid()
      ensures var e := ImportSteps(crypto, st, keymode, slot.slotId, privateKey, role);
        err == e.err && token.objects == e.objects
    {
      var key := crypto.parseEcPrivateKey(privateKey);
      if key.None? {
        return Some(KeyParseFailed);
      }
      var der := crypto.createCertificate(role, key.value);
      if der.None? {
        return Some(CertificateFailed);
      }
      var ok := token.CreateObject(CertificateObject(slot.slotId, der.value));
      if !ok {
        return Some(ImportFailed);
      }
      ok := token.CreateObject(PrivateKeyObject(slot.slotId, key.value.scalar, keymode));
      if !ok {
        return Some(ImportFailed);
      }
      return None;
    }

    /** GetECDSAKey: reads the slot's public key from its CKA_EC_POINT, without logging in. */
    method GetECDSAKey(slot: HardwareSlot) returns (r: Result<PublicKeyInfo, Error>)
      requires Valid()
      modifies token`findActive, token`cursor, token`findCalls
      ensures Valid()
      ensures r == PublicKeyOf(crypto, old(token.State()), slot.slotId)
      ensures token.findActive == (old(token.findActive) || LeavesSearchOpen(r))
    {
      var found := FindOne(token.State(), PublicKeyTemplate(slot.slotId));
      if found.Err? {
        return Err(found.error);
      }
      if found.value.None? {
        return Err(NoMatchingKeys);
      }
      var ok, attrs := token.GetAttributeValue(found.value.value, PublicKeyAttributes);
      if !ok {
        return Err(AttributeReadFailed);
      }
      var raw: Bytes := [];
      for j := 0 to |attrs|
        invariant raw == LastOfType(attrs[..j], CkaEcPoint).GetOr([])
      {
        assert attrs[..j + 1][..j] == attrs[..j];
        if attrs[j].attrType == CkaEcPoint {
          raw := attrs[j].value;
        }
      }
      assert attrs[..|attrs|] == attrs;
      var point := DecodePoint(raw);
      if point.None? {
        return Err(SliceOutOfRange);
      }
      var pub := crypto.marshalPkix(point.value);
      if pub.None? {
        return Err(MarshalFailed);
      }
      return Ok(PublicKeyInfo(pub.value, CanonicalRootRole));
    }

    /** Sign: logs in as user, signs the SHA-256 digest of the payload, and logs out again. */
    method Sign(slot: HardwareSlot, pin: string, payload: Bytes) returns (r: Result<Bytes, Error>)
      requires Valid()
      modifies token`loggedIn, token`logins, token`findActive, token`cursor, token`findCalls, token`signKey
      ensures Valid()
      ensures r == Signature(crypto, token.mechanism, old(token.State()), slot.slotId, pin, payload)
      ensures token.findActive == (old(token.findActive) || LeavesSearchOpen(r))
      ensures token.logins
           == old(token.logins) + LoginRecord(FunctionSign, LoginAccepted(old(token.State()), CKU_USER, pin))
    {
      var ok := token.Login(CKU_USER, pin);
      if !ok {
        return Err(LoginFailed);
      }
      r := SignAsUser(old(token.State()), slot, payload);
      token.Logout();
    }

    /** The body of Sign between login and the deferred logout. */
    method SignAsUser(ghost st: TokenState, slot: HardwareSlot, payload: Bytes) returns (r: Result<Bytes, Error>)
      requires token.Valid() && token.loggedIn == Some(CKU_USER) && token.signKey.None? && token.Agrees(st)
      modifies token`findActive, token`cursor, token`findCalls, token`signKey
      ensures token.Valid() && token.signKey.None?
      ensures r == SignSteps(crypto, token.mechanism, st, slot.slotId, payload)
      ensures token.findActive == (old(token.findActive) || LeavesSearchOpen(r))
    {
      var found := FindOne(st, PrivateKeyTemplate(slot.slotId));
      if found.Err? {
        return Err(found.error);
      }
      if found.value.None? {
        return Err(NotOneObject);
      }
      var ok := token.SignInit(found.value.value);
      if !ok {
        return Err(SignInitFailed);
      }
      var digest := crypto.sha256(payload);
      var sig;
      ok, sig := token.Sign(digest);
      if !ok {
        return Err(SignFailed);
      }
      if sig.None? {
        return Err(NoSignature);
      }
      return Ok(sig.value);
    }

    /** HardwareRemoveKey: logs in as security officer, destroys the slot's certificate, and logs out again. */
    method HardwareRemoveKey(slot: HardwareSlot, pin: string) returns (err: Option<Error>)
      requires Valid()
      modifies token`loggedIn, token`logins, token`findActive, token`cursor, token`findCalls, token`objects
      ensures Valid()
      ensures err == Removal(old(token.State()), slot.slotId, pin).err
      ensures token.objects == Removal(old(token.State()), slot.slotId, pin).objects
      ensures token.findActive == (old(token.findActive) || (err.Some? && err.value in {FindFailed, FindFinalFailed}))
      ensures token.logins
           == old(token.logins) + LoginRecord(FunctionHardwareRemoveKey, LoginAccepted(old(token.State()), CKU_SO, pin))
    {
      var ok := token.Login(CKU_SO, pin);
      if !ok {
        return Some(LoginFailed);
      }
      err := RemoveAsSecurityOfficer(old(token.State()), slot);
      token.Logout();
    }

    /** The body of HardwareRemoveKey between login and the deferred logout. */
    method RemoveAsSecurityOfficer(ghost st: TokenState, slot: HardwareSlot) returns (err: Option<Error>)
      requires token.Valid() && token.loggedIn == Some(CKU_SO) && token.Agrees(st)
      modifies token`findActive, token`cursor, token`findCalls, token`objects
      ensures token.Valid()
      ensures var e := RemovalSteps(st, slot.slotId);
        err == e.err && token.objects == e.objects
      ensures token.findActive == (old(token.findActive) || (err.Some? && err.value in {FindFailed, FindFinalFailed}))
    {
      var found := FindOne(st, CertificateTemplate(slot.slotId));
      if found.Err? {
        return Some(found.error);
      }
      if found.value.None? {
        return None;  // the nil error of the C_FindObjects call
      }
      var ok := token.DestroyObject(found.value.value);
      if !ok {
        return Some(DestroyFailed);
      }
      return None;
    }
  }
}
