/**
 * Constants, errors and the authentication policy of the yubikey key store.
 */
module Policy {
  import opened Wrappers
  import opened Pkcs11

  const NumSlots: nat := 4  // key slots of the yubikey

  const KEYMODE_NONE: nat := 0
  const KEYMODE_TOUCH: nat := 1
  const KEYMODE_PIN_ONCE: nat := 2
  const KEYMODE_PIN_ALWAYS: nat := 4

  /** Preferred order of the token locations 9c, 9e, 9d, 9a. */
  const SlotIds: seq<nat> := [2, 1, 3, 0]

  const CanonicalRootRole: string := "root"

  /** CKA_EC_PARAMS of the imported private keys: the DER object identifier of P-256. */
  const P256Params: Bytes := [0x06, 0x08, 0x2a, 0x86, 0x48, 0xce, 0x3d, 0x03, 0x01, 0x07]

  /** Go's `|` on the small non-negative integers key modes are. */
  function BitOr(a: nat, b: nat): nat
    requires a < 256 && b < 256
  {
    ((a as bv8) | (b as bv8)) as nat
  }

  /** The key mode the package starts with: touch and PIN once. */
  const DefaultKeymode: nat := BitOr(KEYMODE_TOUCH, KEYMODE_PIN_ONCE)

  /** The key modes SetYubikeyKeyMode accepts. */
  predicate ValidKeyMode(k: int) {
    0 <= k <= 5
  }

  datatype Error =
    | LoginFailed             // C_Login refused
    | FindInitFailed          // C_FindObjectsInit failed
    | FindFailed              // C_FindObjects failed
    | FindFinalFailed         // C_FindObjectsFinal failed
    | AttributeReadFailed     // C_GetAttributeValue failed
    | NoMatchingKeys          // "no matching keys found inside of yubikey"
    | NotOneObject            // "length of objects found not 1"
    | NoKeysFound             // "no keys found in yubikey"
    | NoAvailableSlots        // "yubikey has no available slots"
    | KeyParseFailed          // the private key does not parse
    | CertificateFailed       // the certificate template or certificate could not be built
    | ImportFailed            // C_CreateObject failed
    | DestroyFailed           // C_DestroyObject failed
    | SignInitFailed          // C_SignInit failed
    | SignFailed              // C_Sign failed
    | NoSignature             // "Failed to create signature"
    | MarshalFailed           // the public key could not be marshalled
    | SliceOutOfRange         // runtime panic: CKA_EC_POINT shorter than 35 bytes
    | InvalidKeyMode          // "Invalid key mode"
    | UnknownFunction         // "Unknown Function"

  /**
   * The failures after which the key store returns without C_FindObjectsFinal,
   * leaving the search operation of the session open.
   */
  predicate LeavesSearchOpen<T>(r: Result<T, Error>) {
    r.Err? && r.error in {FindFailed, FindFinalFailed}
  }

  /** One key on the token as the signing application sees it. */
  datatype HardwareSlot = HardwareSlot(role: string, slotId: Bytes, keyId: string)

  /** The operations the remote store can ask the login policy about. */
  datatype FunctionId =
    | FunctionAddEcdsaKey
    | FunctionGetEcdsaKey
    | FunctionSign
    | FunctionHardwareRemoveKey
    | FunctionOther(code: nat)

  /** NeedLogin's three results: whether to log in, as which user type, and the error. */
  datatype LoginPolicy = LoginPolicy(required: bool, userType: nat, err: Option<Error>)

  /**
   * Which credential an operation needs: the security officer provisions and
   * removes keys, the user signs, reading a public key needs no login, and
   * every other operation is an error.
   */
  function NeedLogin(f: FunctionId): (p: LoginPolicy)
    ensures p.err.Some? <==> f.FunctionOther?
    ensures p.err.Some? ==> p.err == Some(UnknownFunction) && p.required && p.userType == CKU_CONTEXT_SPECIFIC
    ensures p.err.None? ==> (p.required <==> f != FunctionGetEcdsaKey)
    ensures p.err.None? && p.required ==>
      && (p.userType == CKU_SO <==> f in {FunctionAddEcdsaKey, FunctionHardwareRemoveKey})
      && (p.userType == CKU_USER <==> f == FunctionSign)
    ensures !p.required ==> p.userType == 0
  {
    match f
    case FunctionAddEcdsaKey => LoginPolicy(true, CKU_SO, None)
    case FunctionGetEcdsaKey => LoginPolicy(false, 0, None)
    case FunctionSign => LoginPolicy(true, CKU_USER, None)
    case FunctionHardwareRemoveKey => LoginPolicy(true, CKU_SO, None)
    case FunctionOther(_) => LoginPolicy(true, CKU_CONTEXT_SPECIFIC, Some(UnknownFunction))
  }
}
