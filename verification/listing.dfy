/**
 * HardwareListKeys and listObjects: every certificate stored on the token
 * that carries an ECDSA public key is listed under the fingerprint of that
 * key, with the certificate's common name as role and the object's CKA_ID
 * as slot.
 */
module KeyListing {
  import opened Wrappers
  import opened Pkcs11
  import opened Paging
  import opened Policy
  import opened Crypto

  /** The search template of listObjects: certificates stored on the token. */
  const TokenCertificates: Template := Template(Some(true), Some(CkoCertificate), None, None)

  /** The attributes HardwareListKeys reads from each certificate object. */
  const ListedAttributes: seq<AttributeType> := [CkaId, CkaValue]

  /**
   * listObjects' outcome. A C_FindObjects failure is an error only when no
   * handle was collected before it; otherwise the handles collected so far
   * are returned.
   */
  function CertificateHandles(st: TokenState): (r: Result<seq<Handle>, Error>)
    ensures r.Ok? ==> r.value <= MatchingHandles(st.objects, TokenCertificates)
    ensures r.Err? ==> r.error in {FindInitFailed, FindFailed, FindFinalFailed}
  {
    if !FindInitAccepted(st) then Err(FindInitFailed)
    else
      var p := FindAll(MatchingHandles(st.objects, TokenCertificates), NumSlots, st.faults);
      if p.failed && p.handles == [] then Err(FindFailed)
      else if FindFinalFault in st.faults then Err(FindFinalFailed)
      else Ok(p.handles)
  }

  /** The certificate the attribute loop ends with: the parse of the last CKA_VALUE read, nil if there is none. */
  function CertOf(crypto: Crypto, attrs: seq<Attribute>): Option<Certificate> {
    match LastOfType(attrs, CkaValue)
    case None => None
    case Some(der) => crypto.parseCertificate(der)
  }

  /** The map entry the attributes of one certificate object produce, if any. */
  function Entry(crypto: Crypto, attrs: seq<Attribute>): Option<(string, HardwareSlot)> {
    match CertOf(crypto, attrs)
    case None => None
    case Some(cert) =>
      if cert.algorithm != Ecdsa then None
      else
        match crypto.marshalPkix(cert.ecKey)
        case None => None
        case Some(pub) =>
          Some((crypto.keyId(pub), HardwareSlot(cert.commonName, LastOfType(attrs, CkaId).GetOr([]), "")))
  }

  /** The map entry of the object `h`; objects whose attributes cannot be read are skipped. */
  function ListEntry(crypto: Crypto, st: TokenState, h: Handle): Option<(string, HardwareSlot)> {
    if Readable(st, h) then Entry(crypto, Attributes(st.objects[h], ListedAttributes)) else None
  }

  /** The map the listing loop builds over `hs`; a later entry for the same key replaces an earlier one. */
  function Collect(crypto: Crypto, st: TokenState, hs: seq<Handle>): (keys: map<string, HardwareSlot>)
    ensures |keys| <= |hs|
  {
    if hs == [] then map[]
    else
      var keys := Collect(crypto, st, hs[..|hs| - 1]);
      match ListEntry(crypto, st, hs[|hs| - 1])
      case None => keys
      case Some(entry) => keys[entry.0 := entry.1]
  }

  /** HardwareListKeys' outcome; finding no certificate at all is an error. */
  function Listing(crypto: Crypto, st: TokenState): (r: Result<map<string, HardwareSlot>, Error>)
    ensures r.Err? ==> r.error in {FindInitFailed, FindFailed, FindFinalFailed, NoKeysFound}
    ensures r.Ok? ==> |r.value| <= |MatchingHandles(st.objects, TokenCertificates)|
  {
    match CertificateHandles(st)
    case Err(e) => Err(e)
    case Ok(hs) => if hs == [] then Err(NoKeysFound) else Ok(Collect(crypto, st, hs))
  }

  /**
   * An object yields an entry exactly when its CKA_VALUE parses as a
   * certificate with an ECDSA key that can be marshalled; the entry is keyed
   * by that key's fingerprint and records the common name and CKA_ID.
   */
  lemma EntryOfObject(crypto: Crypto, o: TokenObject, id: string, slot: HardwareSlot)
    ensures Entry(crypto, Attributes(o, ListedAttributes)) == Some((id, slot)) <==>
      exists cert: Certificate, pub: Bytes ::
        && crypto.parseCertificate(o.value) == Some(cert)
        && cert.algorithm == Ecdsa
        && crypto.marshalPkix(cert.ecKey) == Some(pub)
        && id == crypto.keyId(pub)
        && slot == HardwareSlot(cert.commonName, o.id, "")
  {
    LastOfTypeAttributes(o, ListedAttributes, CkaValue);
    LastOfTypeAttributes(o, ListedAttributes, CkaId);
  }

  /** Every listed key comes from one of the enumerated objects, with the entry that object produces. */
  lemma {:induction false} CollectSound(crypto: Crypto, st: TokenState, hs: seq<Handle>, id: string)
    requires id in Collect(crypto, st, hs)
    ensures exists k :: 0 <= k < |hs| && ListEntry(crypto, st, hs[k]) == Some((id, Collect(crypto, st, hs)[id]))
  {
    var n := |hs| - 1;
    var keys := Collect(crypto, st, hs[..n]);
    if ListEntry(crypto, st, hs[n]).Some? && ListEntry(crypto, st, hs[n]).value.0 == id {
      assert ListEntry(crypto, st, hs[n]) == Some((id, Collect(crypto, st, hs)[id]));
    } else {
      assert Collect(crypto, st, hs)[id] == keys[id];
      CollectSound(crypto, st, hs[..n], id);
      var k :| 0 <= k < n && ListEntry(crypto, st, hs[..n][k]) == Some((id, keys[id]));
      assert hs[..n][k] == hs[k];
    }
  }

  /** Every enumerated object that produces an entry has its key listed. */
  lemma {:induction false} CollectComplete(crypto: Crypto, st: TokenState, hs: seq<Handle>, k: nat)
    requires k < |hs| && ListEntry(crypto, st, hs[k]).Some?
    ensures ListEntry(crypto, st, hs[k]).value.0 in Collect(crypto, st, hs)
  {
    var n := |hs| - 1;
    if k < n {
      assert hs[..n][k] == hs[k];
      CollectComplete(crypto, st, hs[..n], k);
    }
  }

  /** The entry of the last object producing a given key is the one listed. */
  lemma {:induction false} CollectLastWins(crypto: Crypto, st: TokenState, hs: seq<Handle>, k: nat, id: string, slot: HardwareSlot)
    requires k < |hs| && ListEntry(crypto, st, hs[k]) == Some((id, slot))
    requires forall j :: k < j < |hs| && ListEntry(crypto, st, hs[j]).Some? ==> ListEntry(crypto, st, hs[j]).value.0 != id
    ensures id in Collect(crypto, st, hs) && Collect(crypto, st, hs)[id] == slot
  {
    var n := |hs| - 1;
    if k < n {
      assert forall j :: k < j < n ==> hs[..n][j] == hs[j];
      assert hs[..n][k] == hs[k];
      CollectLastWins(crypto, st, hs[..n], k, id, slot);
      assert ListEntry(crypto, st, hs[n]).None? || ListEntry(crypto, st, hs[n]).value.0 != id;
    }
  }

  /** Without token failures, listObjects returns every certificate stored on the token. */
  lemma ReliableCertificateHandles(st: TokenState)
    requires FindInitAccepted(st) && NoFindFaults(st.faults) && FindFinalFault !in st.faults
    ensures CertificateHandles(st) == Ok(MatchingHandles(st.objects, TokenCertificates))
  {
    ReliableSearch(MatchingHandles(st.objects, TokenCertificates), NumSlots, st.faults);
  }

  /**
   * Once the first C_FindObjects call succeeds, a later failing call does
   * not make listObjects fail: it returns, with no error, what it gathered,
   * which includes the whole first batch.
   */
  lemma PartialCertificateHandles(st: TokenState)
    requires FindInitAccepted(st) && FindFault(0) !in st.faults && FindFinalFault !in st.faults
    requires MatchingHandles(st.objects, TokenCertificates) != []
    ensures CertificateHandles(st).Ok? && CertificateHandles(st).value != []
    ensures var hs := MatchingHandles(st.objects, TokenCertificates);
      hs[..Min(NumSlots, |hs|)] <= CertificateHandles(st).value
  {
    var hs := MatchingHandles(st.objects, TokenCertificates);
    var p := FindAll(hs, NumSlots, st.faults);
    assert hs[..Min(NumSlots, |hs|)] <= p.handles;
  }

  /**
   * When the second C_FindObjects call fails and there are more than
   * NumSlots certificates, listObjects returns exactly the first batch and
   * no error: the certificates after it are silently dropped.
   */
  lemma SecondPageFailure(st: TokenState)
    requires FindInitAccepted(st) && FindFault(0) !in st.faults && FindFinalFault !in st.faults
    requires FindFault(1) in st.faults
    requires |MatchingHandles(st.objects, TokenCertificates)| > NumSlots
    ensures CertificateHandles(st) == Ok(MatchingHandles(st.objects, TokenCertificates)[..NumSlots])
  {
    var hs := MatchingHandles(st.objects, TokenCertificates);
    assert Min(NumSlots, |hs|) == NumSlots;
    assert PageLoop(hs[NumSlots..], 1, NumSlots, st.faults) == Paged([], true);
    assert FindAll(hs, NumSlots, st.faults) == Paged(hs[..NumSlots], true);
  }

  /**
   * With no certificate stored, the first C_FindObjects call returns an
   * empty batch; a failing second call then reaches listObjects with
   * nothing gathered, so its error is returned.
   */
  lemma EmptySecondPageFailure(st: TokenState)
    requires FindInitAccepted(st) && FindFault(0) !in st.faults
    requires FindFault(1) in st.faults
    requires MatchingHandles(st.objects, TokenCertificates) == []
    ensures CertificateHandles(st) == Err(FindFailed)
  {
    var hs := MatchingHandles(st.objects, TokenCertificates);
    assert PageLoop(hs[0..], 1, NumSlots, st.faults) == Paged([], true);
    assert FindAll(hs, NumSlots, st.faults) == Paged([], true);
  }

  /**
   * Without token failures, listing fails exactly when the token holds no
   * certificate, and then with "no keys found"; a token whose certificates
   * yield no entry gives an empty map, not an error.
   */
  lemma ListingFailsOnlyWithoutCertificates(crypto: Crypto, st: TokenState)
    requires FindInitAccepted(st) && NoFindFaults(st.faults) && FindFinalFault !in st.faults
    ensures Listing(crypto, st).Err? <==> MatchingHandles(st.objects, TokenCertificates) == []
    ensures Listing(crypto, st).Err? ==> Listing(crypto, st).error == NoKeysFound
  {
    ReliableCertificateHandles(st);
  }

  /**
   * Without token failures, the key of the last certificate on the token is
   * listed with that certificate's common name and CKA_ID: no later entry
   * can replace it.
   */
  lemma LastCertificateListed(crypto: Crypto, st: TokenState, cert: Certificate, pub: Bytes)
    requires FindInitAccepted(st) && NoFindFaults(st.faults) && FindFinalFault !in st.faults
    requires MatchingHandles(st.objects, TokenCertificates) != []
    requires var hs := MatchingHandles(st.objects, TokenCertificates);
      var h := hs[|hs| - 1];
      && Readable(st, h)
      && crypto.parseCertificate(st.objects[h].value) == Some(cert)
      && cert.algorithm == Ecdsa && crypto.marshalPkix(cert.ecKey) == Some(pub)
    ensures var hs := MatchingHandles(st.objects, TokenCertificates);
      && Listing(crypto, st).Ok?
      && crypto.keyId(pub) in Listing(crypto, st).value
      && Listing(crypto, st).value[crypto.keyId(pub)]
         == HardwareSlot(cert.commonName, st.objects[hs[|hs| - 1]].id, "")
  {
    var hs := MatchingHandles(st.objects, TokenCertificates);
    var o := st.objects[hs[|hs| - 1]];
    var slot := HardwareSlot(cert.commonName, o.id, "");
    ReliableCertificateHandles(st);
    EntryOfObject(crypto, o, crypto.keyId(pub), slot);
    CollectLastWins(crypto, st, hs, |hs| - 1, crypto.keyId(pub), slot);
  }

  /**
   * Every listed key names a readable certificate stored on the token whose
   * CKA_ID is the listed slot and whose ECDSA key has the listed fingerprint.
   */
  lemma ListingSound(crypto: Crypto, st: TokenState, id: string)
    requires Listing(crypto, st).Ok? && id in Listing(crypto, st).value
    ensures exists h: Handle, cert: Certificate, pub: Bytes ::
      && h < |st.objects| && Readable(st, h)
      && Matches(st.objects[h], TokenCertificates)
      && crypto.parseCertificate(st.objects[h].value) == Some(cert)
      && cert.algorithm == Ecdsa
      && crypto.marshalPkix(cert.ecKey) == Some(pub)
      && id == crypto.keyId(pub)
      && Listing(crypto, st).value[id] == HardwareSlot(cert.commonName, st.objects[h].id, "")
  {
    var hs := CertificateHandles(st).value;
    var slot := Listing(crypto, st).value[id];
    CollectSound(crypto, st, hs, id);
    var k :| 0 <= k < |hs| && ListEntry(crypto, st, hs[k]) == Some((id, slot));
    var h := hs[k];
    assert h in MatchingHandles(st.objects, TokenCertificates);
    EntryOfObject(crypto, st.objects[h], id, slot);
  }

  /** Every readable certificate the listing enumerated whose ECDSA key can be marshalled is listed. */
  lemma ListingComplete(crypto: Crypto, st: TokenState, k: nat, cert: Certificate, pub: Bytes)
    requires Listing(crypto, st).Ok?
    requires k < |CertificateHandles(st).value|
    requires Readable(st, CertificateHandles(st).value[k])
    requires crypto.parseCertificate(st.objects[CertificateHandles(st).value[k]].value) == Some(cert)
    requires cert.algorithm == Ecdsa && crypto.marshalPkix(cert.ecKey) == Some(pub)
    ensures crypto.keyId(pub) in Listing(crypto, st).value
  {
    var hs := CertificateHandles(st).value;
    var o := st.objects[hs[k]];
    EntryOfObject(crypto, o, crypto.keyId(pub), HardwareSlot(cert.commonName, o.id, ""));
    CollectComplete(crypto, st, hs, k);
  }
  /**
   * Without token failures, the key of every readable ECDSA certificate
   * stored on the token is listed.
   */
  lemma ReliableListingComplete(crypto: Crypto, st: TokenState, h: Handle, cert: Certificate, pub: Bytes)
    requires FindInitAccepted(st) && NoFindFaults(st.faults) && FindFinalFault !in st.faults
    requires h < |st.objects| && Matches(st.objects[h], TokenCertificates) && Readable(st, h)
    requires crypto.parseCertificate(st.objects[h].value) == Some(cert)
    requires cert.algorithm == Ecdsa && crypto.marshalPkix(cert.ecKey) == Some(pub)
    ensures Listing(crypto, st).Ok? && crypto.keyId(pub) in Listing(crypto, st).value
  {
    var hs := MatchingHandles(st.objects, TokenCertificates);
    ReliableCertificateHandles(st);
    ListingFailsOnlyWithoutCertificates(crypto, st);
    var k :| 0 <= k < |hs| && hs[k] == h;
    ListingComplete(crypto, st, k, cert, pub);
  }


  /**
   * The role-name check of the attribute loop only skips to the next
   * attribute, so it filters nothing: the listing is the same whatever the
   * check answers. Collect is written without the check, so this lemma only
   * records the fact; the evidence is the loop of Yubikey.KeyStore.CollectKeys,
   * which does call the check and is proved to build Collect's map.
   */
  lemma {:induction false} RoleCheckFiltersNothing(crypto: Crypto, st: TokenState, hs: seq<Handle>, validRole: string -> bool)
    ensures Collect(crypto, st, hs) == Collect(crypto.(validRole := validRole), st, hs)
  {
    if hs != [] {
      RoleCheckFiltersNothing(crypto, st, hs[..|hs| - 1], validRole);
    }
  }
}
