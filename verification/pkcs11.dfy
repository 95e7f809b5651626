/**
 * The token interface the key store drives: an abstract PKCS#11 object store.
 *
 * Objects live in a sequence and an object handle is its index. Whether a
 * command fails is decided by the token's fixed set of faults, so every
 * outcome of an engine operation is a function of the token's state.
 */
module Pkcs11 {
  import opened Wrappers

  type Byte = x: int | 0 <= x < 256
  type Bytes = seq<Byte>
  type Handle = nat

  // CK_USER_TYPE values passed to C_Login
  const CKU_SO: nat := 0
  const CKU_USER: nat := 1
  const CKU_CONTEXT_SPECIFIC: nat := 2

  // CKK_EC, the key type of elliptic-curve keys
  const CKK_EC: Byte := 3

  datatype ObjectClass = CkoCertificate | CkoPublicKey | CkoPrivateKey

  datatype KeyType = EcKey | OtherKey

  /** One token object with the attributes the key store reads or writes. */
  datatype TokenObject = TokenObject(
    objectClass: ObjectClass,  // CKA_CLASS
    onToken: bool,             // CKA_TOKEN
    keyType: Option<KeyType>,  // CKA_KEY_TYPE, absent on certificates
    id: Bytes,                 // CKA_ID
    value: Bytes,              // CKA_VALUE: certificate DER or private scalar
    ecParams: Bytes,           // CKA_EC_PARAMS
    ecPoint: Bytes,            // CKA_EC_POINT
    keyMode: int)              // CKA_VENDOR_DEFINED: touch and PIN policy

  datatype AttributeType = CkaId | CkaValue | CkaKeyType | CkaEcParams | CkaEcPoint

  datatype Attribute = Attribute(attrType: AttributeType, value: Bytes)

  function AttributeValue(o: TokenObject, t: AttributeType): Bytes {
    match t
    case CkaId => o.id
    case CkaValue => o.value
    case CkaKeyType =>
      (match o.keyType
       case None => []
       case Some(EcKey) => [CKK_EC]
       case Some(OtherKey) => [0])
    case CkaEcParams => o.ecParams
    case CkaEcPoint => o.ecPoint
  }

  /** A search template: every attribute that is set must be equal. */
  datatype Template = Template(
    onToken: Option<bool>,
    objectClass: Option<ObjectClass>,
    keyType: Option<KeyType>,
    id: Option<Bytes>)

  predicate Matches(o: TokenObject, t: Template) {
    && (t.onToken.Some? ==> o.onToken == t.onToken.value)
    && (t.objectClass.Some? ==> o.objectClass == t.objectClass.value)
    && (t.keyType.Some? ==> o.keyType == t.keyType)
    && (t.id.Some? ==> o.id == t.id.value)
  }

  /** The handles C_FindObjectsInit selects, in store order. */
  function MatchingHandles(objects: seq<TokenObject>, t: Template): (hs: seq<Handle>)
    ensures forall k :: 0 <= k < |hs| ==> hs[k] < |objects| && Matches(objects[hs[k]], t)
    ensures forall h :: 0 <= h < |objects| && Matches(objects[h], t) ==> h in hs
    ensures forall j, k :: 0 <= j < k < |hs| ==> hs[j] < hs[k]
  {
    if objects == [] then []
    else
      var n := |objects| - 1;
      var front := MatchingHandles(objects[..n], t);
      assert forall h :: 0 <= h < n ==> objects[..n][h] == objects[h];
      front + (if Matches(objects[n], t) then [n] else [])
  }

  /** Appending an object extends the selection by its handle exactly when it matches. */
  lemma MatchingHandlesAppend(objects: seq<TokenObject>, o: TokenObject, t: Template)
    ensures MatchingHandles(objects + [o], t)
            == MatchingHandles(objects, t) + (if Matches(o, t) then [|objects|] else [])
  {
    assert (objects + [o])[..|objects|] == objects;
  }

  /** Token commands that fail. FindFault(k) fails the k-th C_FindObjects call of a search. */
  datatype Fault =
    | LoginFault
    | FindInitFault
    | FindFault(call: nat)
    | FindFinalFault
    | GetAttributeFault(handle: Handle)
    | CreateFault(objectClass: ObjectClass)
    | DestroyFault
    | SignInitFault
    | SignFault

  /** What the key store's policy depends on, as one value. */
  datatype TokenState = TokenState(
    objects: seq<TokenObject>,
    loggedIn: Option<nat>,
    findActive: bool,
    faults: set<Fault>,
    soPin: string,
    userPin: string)

  predicate LoginAccepted(st: TokenState, userType: nat, pin: string) {
    && st.loggedIn.None?
    && LoginFault !in st.faults
    && ((userType == CKU_SO && pin == st.soPin) || (userType == CKU_USER && pin == st.userPin))
  }

  predicate FindInitAccepted(st: TokenState) {
    !st.findActive && FindInitFault !in st.faults
  }

  predicate Readable(st: TokenState, h: Handle) {
    h < |st.objects| && GetAttributeFault(h) !in st.faults
  }

  /** The attributes C_GetAttributeValue returns for object `o` and the requested types. */
  function Attributes(o: TokenObject, types: seq<AttributeType>): (attrs: seq<Attribute>)
    ensures |attrs| == |types|
    ensures forall k :: 0 <= k < |types| ==> attrs[k] == Attribute(types[k], AttributeValue(o, types[k]))
  {
    if types == [] then [] else [Attribute(types[0], AttributeValue(o, types[0]))] + Attributes(o, types[1..])
  }

  /**
   * The value the key store's attribute loops keep for type `t`: the value of
   * the last attribute of that type, or None when there is none.
   */
  function LastOfType(attrs: seq<Attribute>, t: AttributeType): (v: Option<Bytes>)
    ensures v.Some? <==> exists k :: 0 <= k < |attrs| && attrs[k].attrType == t
  {
    if attrs == [] then None
    else if attrs[|attrs| - 1].attrType == t then Some(attrs[|attrs| - 1].value)
    else
      var front := attrs[..|attrs| - 1];
      assert forall k :: 0 <= k < |front| ==> front[k] == attrs[k];
      LastOfType(front, t)
  }

  /** Reading an attribute type that was requested yields the object's value for it. */
  lemma {:induction false} LastOfTypeAttributes(o: TokenObject, types: seq<AttributeType>, t: AttributeType)
    requires t in types
    ensures LastOfType(Attributes(o, types), t) == Some(AttributeValue(o, t))
  {
    var attrs := Attributes(o, types);
    var n := |types| - 1;
    if types[n] != t {
      assert t in types[..n];
      assert Attributes(o, types[..n]) == attrs[..n];
      LastOfTypeAttributes(o, types[..n], t);
    }
  }

  /** The object C_CreateObject stores: the PIV applet keeps every object it imports on the token. */
  function Imported(o: TokenObject): (stored: TokenObject)
    ensures stored.onToken
    ensures stored.(onToken := o.onToken) == o
  {
    o.(onToken := true)
  }

  /** The process-wide PKCS#11 context with its one session. */
  class Token {
    var objects: seq<TokenObject>
    var loggedIn: Option<nat>
    var findActive: bool
    var cursor: seq<Handle>
    var findCalls: nat
    var signKey: Option<Bytes>
    ghost var logins: seq<nat>  // every user type a successful C_Login used, in order
    const faults: set<Fault>
    const soPin: string
    const userPin: string
    const mechanism: (Bytes, Bytes) -> Option<Bytes>  // CKM_ECDSA: scalar, digest -> signature or nil

    ghost predicate Valid()
      reads this
    {
      && (forall h :: h in cursor ==> h < |objects|)
      && (!findActive ==> cursor == [])
    }

    function State(): TokenState
      reads this
    {
      TokenState(objects, loggedIn, findActive, faults, soPin, userPin)
    }

    /** `st` describes this token's objects, search state and faults, whoever is logged in. */
    ghost predicate Agrees(st: TokenState)
      reads this
    {
      st.objects == objects && st.findActive == findActive && st.faults == faults
    }

    constructor (objects: seq<TokenObject>, faults: set<Fault>, soPin: string, userPin: string,
                 mechanism: (Bytes, Bytes) -> Option<Bytes>)
      ensures Valid()
      ensures this.objects == objects && this.faults == faults
      ensures this.soPin == soPin && this.userPin == userPin && this.mechanism == mechanism
      ensures loggedIn == None && !findActive && signKey == None && logins == []
    {
      this.objects := objects;
      this.faults := faults;
      this.soPin := soPin;
      this.userPin := userPin;
      this.mechanism := mechanism;
      loggedIn := None;
      findActive := false;
      cursor := [];
      findCalls := 0;
      signKey := None;
      logins := [];
    }

    method Login(userType: nat, pin: string) returns (ok: bool)
      modifies this`loggedIn, this`logins
      ensures ok == LoginAccepted(old(State()), userType, pin)
      ensures loggedIn == (if ok then Some(userType) else old(loggedIn))
      ensures logins == old(logins) + (if ok then [userType] else [])
    {
      ok := LoginAccepted(State(), userType, pin);
      if ok {
        loggedIn := Some(userType);
        logins := logins + [userType];
      }
    }

    method Logout()
      modifies this`loggedIn
      ensures loggedIn == None
    {
      loggedIn := None;
    }

    method FindObjectsInit(t: Template) returns (ok: bool)
      requires Valid()
      modifies this`findActive, this`cursor, this`findCalls
      ensures Valid()
      ensures ok == FindInitAccepted(old(State()))
      ensures ok ==> findActive && cursor == MatchingHandles(objects, t) && findCalls == 0
      ensures !ok ==> findActive == old(findActive) && cursor == old(cursor) && findCalls == old(findCalls)
    {
      ok := FindInitAccepted(State());
      if ok {
        findActive := true;
        cursor := MatchingHandles(objects, t);
        findCalls := 0;
      }
    }

    /** C_FindObjects: the next batch of at most `max` handles. */
    method FindObjects(max: nat) returns (ok: bool, batch: seq<Handle>)
      requires Valid()
      modifies this`cursor, this`findCalls
      ensures Valid()
      ensures ok == (findActive && FindFault(old(findCalls)) !in faults)
      ensures ok ==> batch == old(cursor)[..Min(max, |old(cursor)|)]
      ensures ok ==> cursor == old(cursor)[|batch|..] && findCalls == old(findCalls) + 1
      ensures !ok ==> batch == [] && cursor == old(cursor) && findCalls == old(findCalls)
    {
      ok := findActive && FindFault(findCalls) !in faults;
      batch := [];
      if ok {
        var n := Min(max, |cursor|);
        batch := cursor[..n];
        assert forall h :: h in cursor[n..] ==> h in cursor;
        cursor := cursor[n..];
        findCalls := findCalls + 1;
      }
    }

    method FindObjectsFinal() returns (ok: bool)
      requires Valid()
      modifies this`findActive, this`cursor
      ensures Valid()
      ensures ok == (old(findActive) && FindFinalFault !in faults)
      ensures findActive == (old(findActive) && !ok)
      ensures ok ==> cursor == []
      ensures !ok ==> cursor == old(cursor)
    {
      ok := findActive && FindFinalFault !in faults;
      if ok {
        findActive := false;
        cursor := [];
      }
    }

    method GetAttributeValue(h: Handle, types: seq<AttributeType>) returns (ok: bool, attrs: seq<Attribute>)
      ensures ok == Readable(State(), h)
      ensures ok ==> attrs == Attributes(objects[h], types)
      ensures !ok ==> attrs == []
    {
      ok := Readable(State(), h);
      attrs := if ok then Attributes(objects[h], types) else [];
    }

    /** C_CreateObject. */
    method CreateObject(o: TokenObject) returns (ok: bool)
      requires Valid()
      requires loggedIn == Some(CKU_SO)
      modifies this`objects
      ensures Valid()
      ensures ok == (CreateFault(o.objectClass) !in faults)
      ensures objects == old(objects) + (if ok then [Imported(o)] else [])
    {
      ok := CreateFault(o.objectClass) !in faults;
      if ok {
        objects := objects + [Imported(o)];
      }
    }

    method DestroyObject(h: Handle) returns (ok: bool)
      requires Valid()
      requires loggedIn == Some(CKU_SO)
      requires !findActive && h < |objects|
      modifies this`objects
      ensures Valid()
      ensures ok == (DestroyFault !in faults)
      ensures objects == if ok then old(objects[..h] + objects[h + 1..]) else old(objects)
    {
      ok := DestroyFault !in faults;
      if ok {
        objects := objects[..h] + objects[h + 1..];
      }
    }

    /** C_SignInit with CKM_ECDSA on the private key `h`. */
    method SignInit(h: Handle) returns (ok: bool)
      requires loggedIn == Some(CKU_USER)
      modifies this`signKey
      ensures ok == (old(signKey).None? && h < |objects| && SignInitFault !in faults)
      ensures signKey == if ok then Some(objects[h].value) else old(signKey)
    {
      ok := signKey.None? && h < |objects| && SignInitFault !in faults;
      if ok {
        signKey := Some(objects[h].value);
      }
    }

    /** C_Sign; it ends the signing operation whether or not it succeeds. */
    method Sign(data: Bytes) returns (ok: bool, signature: Option<Bytes>)
      requires loggedIn == Some(CKU_USER)
      modifies this`signKey
      ensures ok == (old(signKey).Some? && SignFault !in faults)
      ensures signature == if ok then mechanism(old(signKey).value, data) else None
      ensures signKey == None
    {
      ok := signKey.Some? && SignFault !in faults;
      signature := if ok then mechanism(signKey.value, data) else None;
      signKey := None;
    }
  }
}
