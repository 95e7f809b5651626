# notary yubikey adapter — a Dafny model of the key store

This project models the yubikey key store of the notary yubikey adapter.
The key store keeps notary signing keys on a YubiKey through PKCS#11.
It imports an ECDSA P-256 private key together with a self-signed certificate
into one of four key slots. It finds the next free slot, lists the stored keys
and reads a slot's public key back. It signs the SHA-256 digest of a payload
and removes a key. The model also covers the small part of the daemon's
`main.go` that turns the command line into a key mode and a log level.

The parts of the model:

- `Pkcs11` (pkcs11.dfy) models the token as a class `Token`. Its state is a
  sequence of objects; a handle is an index into that sequence, so
  destroying an object renumbers the handles after it (real PKCS#11 handles
  are stable, but the key store never keeps a handle across a destroy). Its
  methods are the PKCS#11 calls the key store makes: C_Login, C_Logout,
  C_FindObjectsInit/C_FindObjects/C_FindObjectsFinal, C_GetAttributeValue,
  C_CreateObject, C_DestroyObject, C_SignInit and C_Sign. Whether a call fails
  is decided by the token's fixed `faults` set, not by chance. This makes every
  error path of the key store reachable and still lets the result be stated as
  a function of the token's state. Login is checked: a command that needs the
  security officer or the user can only be issued after that login has been accepted.
- `Paging` models the C_FindObjects pagination loop that GetNextEmptySlot and
  listObjects share.
- `EcPoint` models the CKA_EC_POINT encoding of a P-256 point and the byte
  slicing GetECDSAKey applies to it.
- `Crypto` holds the x509, ECDSA and SHA-256 collaborators. They are
  uninterpreted functions, so every property holds for any choice of them
  (`KeyOperations.ImportThenList` assumes the certificate round trip).
- `Policy` holds the constants, the error kinds and NeedLogin.
- `SlotAllocator`, `KeyListing` and `KeyOperations` state what each key store
  operation returns and does to the token, as pure functions of the token's
  state, and prove the properties of those functions.
- `Yubikey` is the key store itself. `KeyStore` is a class whose methods drive
  the `Token` call by call, with the same loops, branches and early returns as
  the Go code. Each method is proved equal to its specifying function. The
  three operations that log in also prove which login they made.
- `Daemon` models `setLogLevel` and the key-mode part of `parseFlags` from
  `main.go`, as a class `Settings` over the program's global variables.

The model follows the code where the code differs from what its comments and
messages suggest:

- HardwareRemoveKey's message speaks of "exactly one object". But all three
  single-object searches ask C_FindObjects for at most one handle. So they
  only detect that nothing matches. When several objects match, the first one
  is used (`KeyOperations.SeveralKeysNotDetected`).
- HardwareRemoveKey returns nil when nothing matches, because it returns the
  nil `err` of the preceding call. It destroys only the certificate; the
  private key stays.
- A failing C_FindObjects, or a failing C_FindObjectsFinal, returns without
  finishing the search. The session's search is then left open. Every method
  states this in its `findActive` postcondition. The one exception is
  listObjects when a C_FindObjects call fails after at least one certificate
  handle has been collected: it goes on to C_FindObjectsFinal.
- When a later C_FindObjects call fails after at least one certificate
  handle has been collected, listObjects drops the error and returns the
  handles collected so far, with no error. The certificates after the
  failing page are then silently missing from HardwareListKeys
  (`KeyListing.SecondPageFailure`). With nothing collected, the error is
  returned (`KeyListing.EmptySecondPageFailure`).
- The `data.ValidRole` check in HardwareListKeys only continues the inner
  attribute loop. It therefore filters nothing
  (`KeyListing.RoleCheckFiltersNothing`).
- GetECDSAKey always returns the role "root" and does not log in. A
  CKA_EC_POINT shorter than 35 bytes makes its slice expression panic. The
  model returns the `SliceOutOfRange` error there.
- AddECDSAKey does not check whether the slot is occupied. If the private
  key cannot be created, the certificate it has already created stays on
  the token.
- Without flags the daemon's key mode is 2 (PIN once, no touch), not the
  package default 3. A `-touch` flag sets the touch bit whatever its value,
  even `-touch=false`.

## Model

| member | source | states |
|---|---|---|
| Pkcs11.MatchingHandles | yubikey/yubikey.go:439-456 | the handles a search template selects: exactly the indices of the matching objects, in increasing order |
| Pkcs11.MatchingHandlesAppend | yubikey/yubikey.go:151-159 | a created object is found by a later search exactly when it matches the template, after all earlier matches |
| Pkcs11.Attributes | yubikey/yubikey.go:197-210 | C_GetAttributeValue answers with one attribute per requested type, in the order requested |
| Pkcs11.LastOfType | yubikey/yubikey.go:204-210 | the attribute loop keeps a value exactly when some attribute of that type was returned |
| Pkcs11.LastOfTypeAttributes | yubikey/yubikey.go:204-210 | reading back a requested attribute type yields the object's own value for it |
| Pkcs11.Imported | yubikey/yubikey.go:151-159 | a created object is stored as a token object and otherwise unchanged |
| Pkcs11.Token.constructor | yubikey/yubikey.go:501-533 | a fresh session: nobody logged in, no search or signing operation active |
| Pkcs11.Token.Login | yubikey/yubikey.go:110-114 | the login succeeds exactly when no one is logged in, the PIN matches the security officer's or user's PIN for that user type and no fault is injected; a success is recorded |
| Pkcs11.Token.Logout | yubikey/yubikey.go:114 | the deferred logout leaves nobody logged in and nothing else changed |
| Pkcs11.Token.FindObjectsInit | yubikey/yubikey.go:439-441 | a search starts only when none is active; its cursor holds exactly the matching handles |
| Pkcs11.Token.FindObjects | yubikey/yubikey.go:443-456 | one call hands out at most `max` handles from the front of the cursor, or fails |
| Pkcs11.Token.FindObjectsFinal | yubikey/yubikey.go:462-465 | ends the active search, or fails and leaves it open |
| Pkcs11.Token.GetAttributeValue | yubikey/yubikey.go:468-471 | returns the requested attributes of a readable object, or fails |
| Pkcs11.Token.CreateObject | yubikey/yubikey.go:151-159 | on success appends the template's object to the token; otherwise the token is unchanged |
| Pkcs11.Token.DestroyObject | yubikey/yubikey.go:312-316 | on success removes exactly the given object; otherwise the token is unchanged |
| Pkcs11.Token.SignInit | yubikey/yubikey.go:256-260 | callable only by the logged-in user; arms a signing operation with the handle's key when none is pending, or fails and changes nothing |
| Pkcs11.Token.Sign | yubikey/yubikey.go:265-270 | the signature is the mechanism's output for the armed key and data, and the operation is cleared whether or not it fails |
| Paging.PageLoop | yubikey/yubikey.go:444-456 | the loop collects a prefix of the remaining handles, and all of them unless a call failed |
| Paging.FindAll | yubikey/yubikey.go:443-456 | the whole search collects a prefix of the matching handles, and all of them unless a call failed |
| Paging.LoopCalls | yubikey/yubikey.go:446-456 | the loop makes at least one C_FindObjects call |
| Paging.SearchCalls | yubikey/yubikey.go:443-456 | a search makes at least two C_FindObjects calls |
| Paging.PageLoopFails | yubikey/yubikey.go:446-456 | the loop stops on a failure exactly when one of the calls it makes fails |
| Paging.SearchFails | yubikey/yubikey.go:443-456 | a search fails exactly when one of the calls a fault-free search makes fails |
| Paging.ReliableSearch | yubikey/yubikey.go:443-456 | with no failing C_FindObjects call, the search returns every matching handle |
| EcPoint.BigEndian | yubikey/yubikey.go:212 | big.Int.SetBytes of n bytes is below 256^n |
| EcPoint.ToBigEndian | yubikey/yubikey.go:212 | the n-byte encoding of a value has exactly n bytes |
| EcPoint.BigEndianOfEncoding | yubikey/yubikey.go:212 | decoding the n-byte encoding of a value gives the value back |
| EcPoint.EncodingOfBigEndian | yubikey/yubikey.go:212 | encoding the value of n bytes gives the bytes back |
| EcPoint.EncodePoint | yubikey/yubikey.go:212 | a P-256 point is stored as 67 bytes starting with the DER and uncompressed-point header |
| EcPoint.DecodePoint | yubikey/yubikey.go:212 | the coordinate slicing succeeds exactly when the value has at least 35 bytes |
| EcPoint.DecodeEncoded | yubikey/yubikey.go:212 | slicing a stored point recovers its coordinates |
| EcPoint.EncodeDecoded | yubikey/yubikey.go:212 | every well-formed 67-byte value is the encoding of the point sliced from it |
| Policy.NeedLogin | yubikey/yubikey.go:544-556 | adding and removing keys need the security officer, signing needs the user, reading a key needs no login, and any other function is an error |
| SlotAllocator.MarkedByIdAttribute | yubikey/yubikey.go:474-487 | the attribute loop marks the slot named by the first byte of the object's CKA_ID |
| SlotAllocator.TakenSlots | yubikey/yubikey.go:466-489 | the marking loop only marks slots below four |
| SlotAllocator.TakenSlotsMembers | yubikey/yubikey.go:466-489 | a slot is marked taken exactly when it is below four and a readable listed object's CKA_ID starts with it |
| SlotAllocator.FirstFreeIndex | yubikey/yubikey.go:492-497 | the index found is of the first untaken slot in the preference order, and none before it is free |
| SlotAllocator.FirstFreeSlot | yubikey/yubikey.go:492-497 | the preference loop returns a one-byte slot of the order 2, 1, 3, 0 that is not taken, and "no available slots" exactly when all four are taken |
| SlotAllocator.Allocate | yubikey/yubikey.go:431-498 | GetNextEmptySlot returns a single byte below four, or a search error, or "no available slots" |
| SlotAllocator.TakenSlotIsHeld | yubikey/yubikey.go:466-489 | a slot marked taken is held by a stored object |
| SlotAllocator.HeldSlotIsTaken | yubikey/yubikey.go:466-489 | a slot held by a readable stored object is marked taken |
| SlotAllocator.TakenIsHeld | yubikey/yubikey.go:466-489 | with every object readable, taken and held are the same for each slot |
| SlotAllocator.AllocatedSlotInRange | yubikey/yubikey.go:492-495 | an allocated slot is a single byte below four |
| SlotAllocator.AllocatedSlotIsFree | yubikey/yubikey.go:466-495 | no readable stored object holds the allocated slot |
| SlotAllocator.AllocationFollowsPreference | yubikey/yubikey.go:492-495 | every slot earlier in the order 2, 1, 3, 0 is taken |
| SlotAllocator.NoSlotsOnlyWhenAllHeld | yubikey/yubikey.go:492-497 | "no available slots" is returned exactly when all four slots are taken |
| SlotAllocator.PreferenceOrder | yubikey/yubikey.go:492-497 | without faults the slot allocated (slot order 2, 1, 3, 0) is 2, else 1, else 3, else 0, whichever is first not held |
| SlotAllocator.EmptyTokenGetsSlot2 | yubikey/yubikey.go:48 | an empty token gets slot 2 |
| SlotAllocator.FindFaultAbortsAllocation | yubikey/yubikey.go:443-460 | a failing C_FindObjects makes allocation fail with that error |
| KeyListing.CertificateHandles | yubikey/yubikey.go:394-428 | listObjects returns a prefix of the stored certificate handles, possibly a strict one with no error after a later page fails, or one of its three search errors |
| KeyListing.Collect | yubikey/yubikey.go:338-389 | the per-certificate loop adds at most one key per handle |
| KeyListing.Listing | yubikey/yubikey.go:321-392 | HardwareListKeys fails only with a search error or "no keys found", and lists at most one key per stored certificate |
| KeyListing.EntryOfObject | yubikey/yubikey.go:338-389 | a certificate yields an entry exactly when it parses to an ECDSA key that marshals; the entry is keyed by that key's ID and carries the common name and CKA_ID |
| KeyListing.CollectSound | yubikey/yubikey.go:338-389 | every listed key comes from one of the handles |
| KeyListing.CollectComplete | yubikey/yubikey.go:338-389 | every handle that yields an entry is listed under its key ID |
| KeyListing.CollectLastWins | yubikey/yubikey.go:386-389 | when two certificates hold the same key, the later one's entry is kept |
| KeyListing.ReliableCertificateHandles | yubikey/yubikey.go:394-428 | without faults listObjects returns every stored certificate |
| KeyListing.PartialCertificateHandles | yubikey/yubikey.go:405-421 | when at least one certificate is stored and the first C_FindObjects call succeeds, a later failing call does not make listObjects fail; it returns, with no error, the handles gathered so far, which include the whole first batch |
| KeyListing.SecondPageFailure | yubikey/yubikey.go:405-427 | when the second C_FindObjects call fails and more than four certificates are stored, listObjects returns exactly the first four handles and no error (four is the batch size of the modelled token, which always fills a batch) |
| KeyListing.EmptySecondPageFailure | yubikey/yubikey.go:405-420 | when no certificate is stored, the first C_FindObjects call succeeds and the second fails, listObjects returns that C_FindObjects error |
| KeyListing.ListingFailsOnlyWithoutCertificates | yubikey/yubikey.go:334-336 | "no keys found" is returned exactly when the search succeeded and found no certificate |
| KeyListing.ListingSound | yubikey/yubikey.go:338-389 | every listed key is the key of a stored, readable ECDSA certificate, with that certificate's role and slot |
| KeyListing.ListingComplete | yubikey/yubikey.go:338-389 | every readable ECDSA certificate among the handles listObjects enumerated is listed |
| KeyListing.ReliableListingComplete | yubikey/yubikey.go:321-392 | without faults, every readable ECDSA certificate stored on the token is listed |
| KeyListing.LastCertificateListed | yubikey/yubikey.go:338-389 | without faults, the key of the last stored certificate is listed with that certificate's common name and CKA_ID |
| KeyListing.RoleCheckFiltersNothing | yubikey/yubikey.go:360-362 | the listing does not depend on the role check |
| KeyOperations.FindFirst | yubikey/yubikey.go:178-194 | a single-object search returns the first matching handle, none exactly when nothing matches, or a search error |
| KeyOperations.Import | yubikey/yubikey.go:101-162 | an import only appends to the token; it succeeds exactly when it adds two objects, and only after a security officer login |
| KeyOperations.ImportSteps | yubikey/yubikey.go:116-161 | after login the import only appends to the token, at most two objects, and succeeds exactly when it appends both; a parse or certificate failure changes nothing |
| KeyOperations.PublicKeyOf | yubikey/yubikey.go:165-220 | a public key read succeeds only when a public-key object matches the slot; it is a marshalled key and always has the role root |
| KeyOperations.Signature | yubikey/yubikey.go:223-276 | a signature exists only after a user login, and an accepted login never reports a login error |
| KeyOperations.SignSteps | yubikey/yubikey.go:230-275 | after login a signature is the mechanism's output for the first private EC key the slot's search finds, over the payload's digest, and "not one object" is returned exactly when the search finds nothing |
| KeyOperations.Removal | yubikey/yubikey.go:279-318 | removal changes the token only on success after a security officer login, and removes at most one object |
| KeyOperations.RemovalSteps | yubikey/yubikey.go:286-317 | after login removal changes the token only on success, removes at most one object, and fails only with a search or destroy error |
| KeyOperations.ImportLeavesCertificateOnKeyFailure | yubikey/yubikey.go:151-159 | when the private key cannot be created, the import fails and the certificate stays on the token |
| KeyOperations.ImportIgnoresOccupancy | yubikey/yubikey.go:101-162 | whether the slot already holds objects does not change whether the import succeeds |
| KeyOperations.ImportedHandles | yubikey/yubikey.go:136-159 | after a successful import, a search finds the earlier matches, then the certificate and then the private key where they match |
| KeyOperations.ImportedObjects | yubikey/yubikey.go:136-159 | a successful import appends the certificate and then the private key with the key mode, both carrying the slot's CKA_ID |
| KeyOperations.ImportThenList | yubikey/yubikey.go:101-162 | after an import the listing holds the imported key under its ID, with the role and slot |
| KeyOperations.ImportedSlotIsTaken | yubikey/yubikey.go:101-162 | after an import into a slot, GetNextEmptySlot no longer allocates that slot |
| KeyOperations.PublicKeyOfEncodedPoint | yubikey/yubikey.go:165-220 | a stored encoded point is read back as that public key, with the role root |
| KeyOperations.ShortPointFails | yubikey/yubikey.go:212 | a CKA_EC_POINT shorter than 35 bytes makes the read fail |
| KeyOperations.NoPublicKeyFails | yubikey/yubikey.go:191-194 | when no public-key object matches the slot, the read fails with "no matching keys" |
| KeyOperations.SignAfterImport | yubikey/yubikey.go:223-276 | after importing into an empty slot, signing uses the imported key on the payload's digest |
| KeyOperations.ImportOverOccupiedSlotKeepsSigningKey | yubikey/yubikey.go:238-253 | on a token that keeps several objects per CKA_ID, importing into an occupied slot does not change what signing with it returns, because the search takes the first matching handle, the older key |
| KeyOperations.SignatureUsesSlotKey | yubikey/yubikey.go:232-270 | every signature is made with a private EC key of the slot over SHA-256 of the payload |
| KeyOperations.SeveralKeysNotDetected | yubikey/yubikey.go:242-253 | on a token that keeps several objects per CKA_ID, several private keys in one slot are not reported as an error; the first matching handle is used |
| KeyOperations.RemovalDestroysOneCertificate | yubikey/yubikey.go:286-316 | a removal that changes the token removes exactly one certificate of the slot |
| KeyOperations.RemovalOfMissingKeySucceeds | yubikey/yubikey.go:306-309 | removing from a slot with no certificate succeeds and changes nothing |
| KeyOperations.RemovalKeepsOtherObjects | yubikey/yubikey.go:286-316 | removal leaves every key object on the token |
| KeyOperations.RemovalOfOnlyCertificate | yubikey/yubikey.go:279-318 | removing a slot's only certificate leaves no certificate of that slot |
| KeyOperations.RemovalThenList | yubikey/yubikey.go:279-318 | after removing a slot's only certificate, no key HardwareListKeys returns names that slot |
| Yubikey.KeyStore.constructor | yubikey/yubikey.go:45 | the key store starts with key mode touch and PIN once |
| Yubikey.KeyStore.SetYubikeyKeyMode | yubikey/yubikey.go:55-63 | key modes 0 to 5 are accepted and stored; others are refused and the mode is kept |
| Yubikey.KeyStore.FindPages | yubikey/yubikey.go:443-456 | the pagination loop returns what the specified search returns |
| Yubikey.KeyStore.FirstPage | yubikey/yubikey.go:443 | the first C_FindObjects call starts the specified search |
| Yubikey.KeyStore.NextPage | yubikey/yubikey.go:447-455 | one step of the loop advances the specified search by one call |
| Yubikey.KeyStore.GetNextEmptySlot | yubikey/yubikey.go:431-498 | the slot returned is the one the allocation function chooses, and the search is left open exactly on a find or finalize error |
| Yubikey.KeyStore.PickFreeSlot | yubikey/yubikey.go:492-497 | the preference loop returns the first untaken slot or "no available slots" |
| Yubikey.KeyStore.MarkTakenSlots | yubikey/yubikey.go:466-489 | the marking loop marks exactly the slots named by the readable CKA_IDs |
| Yubikey.KeyStore.ListObjects | yubikey/yubikey.go:394-428 | listObjects returns the specified certificate handles |
| Yubikey.KeyStore.HardwareListKeys | yubikey/yubikey.go:321-392 | the listing returned is the specified listing of the token |
| Yubikey.KeyStore.CollectKeys | yubikey/yubikey.go:338-389 | the per-certificate loop builds the specified map |
| Yubikey.KeyStore.FindOne | yubikey/yubikey.go:178-194 | the single-object search returns the first matching handle or the search error |
| Yubikey.KeyStore.AddECDSAKey | yubikey/yubikey.go:101-162 | the error and the token's new objects are those the import function specifies, and the only login recorded is the security officer's |
| Yubikey.KeyStore.ImportAsSecurityOfficer | yubikey/yubikey.go:116-161 | the steps after login do what the import function specifies |
| Yubikey.KeyStore.GetECDSAKey | yubikey/yubikey.go:165-220 | the result is the specified public key read, with no login |
| Yubikey.KeyStore.Sign | yubikey/yubikey.go:223-276 | the result is the specified signature, and the only login recorded is the user's |
| Yubikey.KeyStore.SignAsUser | yubikey/yubikey.go:230-275 | the steps after login return the specified signature and leave no signing operation armed |
| Yubikey.KeyStore.HardwareRemoveKey | yubikey/yubikey.go:279-318 | the error and the token's new objects are those removal specifies, and the only login recorded is the security officer's |
| Yubikey.KeyStore.RemoveAsSecurityOfficer | yubikey/yubikey.go:286-317 | the steps after login do what removal specifies |
| Daemon.LevelNamesRoundTrip | main.go:36-55 | every log level is selected by its own name |
| Daemon.LevelNamesExact | main.go:36-55 | only the seven level names select a level |
| Daemon.LevelNamed | main.go:36-55 | a -log value selects a level only when it is that level's name |
| Daemon.GivenFlagsMembers | main.go:78 | the visited flags are exactly those given on the command line |
| Daemon.PinKeymode | main.go:85-95 | exactly the values "none", "once" and "always" are accepted, and an accepted value yields one of the PIN modes 0, 2 and 4 |
| Daemon.KeymodeOf | main.go:84-101 | a key mode is derived exactly when -pin is absent or one of "none", "once" and "always" |
| Daemon.TouchBit | main.go:99-101 | or-ing in the touch bit sets bit 0 and keeps the PIN bits |
| Daemon.KeymodeBits | main.go:84-101 | the derived mode's touch bit is set exactly when the touch flag was given, and its PIN bits come from the pin flag, or PIN once without it |
| Daemon.NoFlagsKeymode | main.go:96-98 | with no flags the mode is PIN once, which is not the package default |
| Daemon.DerivedKeymodeAccepted | main.go:127-130 | every key mode parseFlags derives is one SetYubikeyKeyMode accepts, so the worker never stops on it |
| Daemon.Settings.constructor | main.go:25-35 | the program starts with no flags recorded, no log level set and not exited |
| Daemon.Settings.SetLogLevel | main.go:36-55 | a known level name selects that level; any other name exits |
| Daemon.Settings.ParseFlags | main.go:71-104 | the settings take the given flag values, the key mode is the derived one, and an invalid pin value exits |

## Left out

- `server.go`, the RPC server, the Unix socket, signal handling and the worker's daemon lifecycle in `main.go`: they are I/O and concurrency around the key store.
- NewKeyStore, Name, Cleanup, SetupHSMEnv, CloseSession and initializeLib: they load the PKCS#11 library and open sessions. The model starts from an open session (`Pkcs11.Token.constructor`).
- Session handles: the model has one session, the `Token` object.
- Pkcs11.Token.CreateObject: the modelled token keeps every imported object side by side, so two imports into one slot leave two keys and two certificates with that CKA_ID. A PIV slot (9c, 9e, 9d, 9a) holds one key and one certificate, and an import replaces them. `KeyOperations.ImportOverOccupiedSlotKeepsSigningKey` and `KeyOperations.SeveralKeysNotDetected` therefore describe the code on such a token, not the YubiKey's replace-on-import behaviour.
- Private-object visibility: a real token hides private objects before login. The model's searches see every object.
- The PIV applet derives a public-key object when a private key is imported. The model's token does not do that. So the add-then-read round trip is stated only for a stored encoded point (`KeyOperations.PublicKeyOfEncodedPoint`).
- x509, ECDSA, SHA-256 and key IDs are uninterpreted functions. Certificate validity periods, the clock and the random source of certificate creation are parameters hidden inside `Crypto.createCertificate`.
- The default PIN constants and the prompting for PINs: the PIN is a parameter of each operation.
- Logging calls are left out; they do not affect results.
- The `flag` package's parsing of `os.Args`: the model takes the parsed `Daemon.CommandLine` as input. `invalidFlag`'s usage text and `os.Exit(1)` are modelled as the `exited` field.
- `hasUtilityFlag`, `checkRequiredFlags` and `appName` are left out: they have no effect on the modelled settings.
- KeyOperations.Import: the failures of the certificate template and of certificate creation are merged into one `CertificateFailed` error, because both come from the same uninterpreted collaborator.
- KeyOperations.PublicKeyOf: the runtime panic on a short CKA_EC_POINT is modelled as the error `SliceOutOfRange`, not as a crash of the process.
- Pkcs11.Token.FindObjects: the modelled token always returns a full batch (`max` handles, or all that remain). PKCS#11 allows a C_FindObjects call to return fewer while more remain; the Go loop handles that, but the model does not exercise it. The "four" handles of `KeyListing.SecondPageFailure` is the batch size of this token.
- Pkcs11.TokenObject: CKA_VENDOR_DEFINED (the key mode) is stored as an integer, not as the byte encoding the PKCS#11 wrapper sends.
