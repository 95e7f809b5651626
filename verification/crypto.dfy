/**
 * The cryptographic collaborators of the key store, as uninterpreted
 * functions: x509 certificate building and parsing, ECDSA key parsing,
 * PKIX marshalling, key fingerprints, role-name validation and SHA-256.
 * Every property proved over the key store holds for every choice of them
 * (ImportThenList assumes the certificate round trip).
 */
module Crypto {
  import opened Wrappers
  import opened Pkcs11
  import opened EcPoint

  datatype PublicKeyAlgorithm = UnknownPublicKeyAlgorithm | Rsa | Dsa | Ecdsa | Ed25519

  /** The parts of a parsed x509 certificate the key store reads. */
  datatype Certificate = Certificate(commonName: string, algorithm: PublicKeyAlgorithm, ecKey: EcPublicKey)

  /** A parsed ECDSA private key: its scalar D, already padded to the curve size, and its public half. */
  datatype EcPrivateKey = EcPrivateKey(scalar: Bytes, publicKey: EcPublicKey)

  datatype Crypto = Crypto(
    parseEcPrivateKey: Bytes -> Option<EcPrivateKey>,           // x509.ParseECPrivateKey, EnsurePrivateKeySize
    createCertificate: (string, EcPrivateKey) -> Option<Bytes>,  // self-signed certificate with the role as subject
    parseCertificate: Bytes -> Option<Certificate>,              // x509.ParseCertificate
    marshalPkix: EcPublicKey -> Option<Bytes>,                   // x509.MarshalPKIXPublicKey
    keyId: Bytes -> string,                                      // ID() of the public key with these PKIX bytes
    validRole: string -> bool,                                   // data.ValidRole
    sha256: Bytes -> Bytes)                                      // sha256.Sum256

  /**
   * The certificate codec recovers what it encoded: parsing a certificate the
   * key store created gives back the role as common name and the ECDSA public key.
   */
  ghost predicate CertificatesRoundTrip(c: Crypto) {
    forall role: string, k: EcPrivateKey ::
      c.createCertificate(role, k).Some? ==>
        c.parseCertificate(c.createCertificate(role, k).value) == Some(Certificate(role, Ecdsa, k.publicKey))
  }
}
