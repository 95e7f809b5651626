/**
 * The CKA_EC_POINT value of a P-256 public key: a DER OCTET STRING header
 * (tag 0x04, length 0x41) around the uncompressed point of section 2.3.3
 * of SEC 1 v2 (0x04, then X and Y as 32-byte big-endian integers).
 */
module EcPoint {
  import opened Wrappers
  import opened Pkcs11

  datatype EcPublicKey = EcPublicKey(x: nat, y: nat)

  const CoordinateSize: nat := 32
  const PointHeader: Bytes := [0x04, 0x41, 0x04]

  function Pow256(n: nat): (p: nat)
    ensures p >= 1
  {
    if n == 0 then 1 else 256 * Pow256(n - 1)
  }

  /** The unsigned big-endian value of `s`, as big.Int.SetBytes reads it. */
  function BigEndian(s: Bytes): (v: nat)
    ensures v < Pow256(|s|)
  {
    if s == [] then 0
    else
      var front := BigEndian(s[..|s| - 1]);
      assert front <= Pow256(|s| - 1) - 1;
      assert front * 256 <= (Pow256(|s| - 1) - 1) * 256;
      front * 256 + s[|s| - 1]
  }

  /** The `n`-byte big-endian encoding of `v`. */
  function ToBigEndian(v: nat, n: nat): (s: Bytes)
    requires v < Pow256(n)
    ensures |s| == n
  {
    if n == 0 then []
    else
      assert v / 256 < Pow256(n - 1) by {
        DivBound(v, Pow256(n - 1));
      }
      ToBigEndian(v / 256, n - 1) + [v % 256]
  }

  lemma DivBound(v: nat, p: nat)
    requires v < 256 * p
    ensures v / 256 < p
  {
  }

  lemma {:induction false} BigEndianOfEncoding(v: nat, n: nat)
    requires v < Pow256(n)
    ensures BigEndian(ToBigEndian(v, n)) == v
  {
    if n > 0 {
      var s := ToBigEndian(v, n);
      assert s[..n - 1] == ToBigEndian(v / 256, n - 1);
      BigEndianOfEncoding(v / 256, n - 1);
    }
  }

  lemma {:induction false} EncodingOfBigEndian(s: Bytes)
    ensures ToBigEndian(BigEndian(s), |s|) == s
  {
    if s != [] {
      var n := |s| - 1;
      var front := BigEndian(s[..n]);
      var v := BigEndian(s);
      assert v / 256 == front && v % 256 == s[n];
      EncodingOfBigEndian(s[..n]);
      assert s == s[..n] + [s[n]];
    }
  }

  predicate Encodable(k: EcPublicKey) {
    k.x < Pow256(CoordinateSize) && k.y < Pow256(CoordinateSize)
  }

  /** The 67-byte CKA_EC_POINT value of `k`. */
  function EncodePoint(k: EcPublicKey): (raw: Bytes)
    requires Encodable(k)
    ensures |raw| == 67 && raw[..3] == PointHeader
  {
    PointHeader + ToBigEndian(k.x, CoordinateSize) + ToBigEndian(k.y, CoordinateSize)
  }

  /**
   * The slicing GetECDSAKey does: X from bytes 3 to 34 and Y from byte 35 to
   * the end. The header bytes are not looked at. A value shorter than 35
   * bytes makes the Go slice expression panic, which is None here.
   */
  function DecodePoint(raw: Bytes): (r: Option<EcPublicKey>)
    ensures r.Some? <==> |raw| >= 35
  {
    if |raw| < 35 then None
    else Some(EcPublicKey(BigEndian(raw[3..35]), BigEndian(raw[35..])))
  }

  /** Decoding recovers every point the token can encode. */
  lemma DecodeEncoded(k: EcPublicKey)
    requires Encodable(k)
    ensures DecodePoint(EncodePoint(k)) == Some(k)
  {
    var raw := EncodePoint(k);
    assert raw[3..35] == ToBigEndian(k.x, CoordinateSize);
    assert raw[35..] == ToBigEndian(k.y, CoordinateSize);
    BigEndianOfEncoding(k.x, CoordinateSize);
    BigEndianOfEncoding(k.y, CoordinateSize);
  }

  /** A well-formed 67-byte value is the encoding of the point decoded from it. */
  lemma EncodeDecoded(raw: Bytes)
    requires |raw| == 67 && raw[..3] == PointHeader
    ensures DecodePoint(raw).Some? && Encodable(DecodePoint(raw).value)
    ensures EncodePoint(DecodePoint(raw).value) == raw
  {
    var k := DecodePoint(raw).value;
    assert |raw[3..35]| == CoordinateSize && |raw[35..]| == CoordinateSize;
    EncodingOfBigEndian(raw[3..35]);
    EncodingOfBigEndian(raw[35..]);
    assert raw == raw[..3] + raw[3..35] + raw[35..];
  }
}
