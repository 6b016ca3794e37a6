/**
 * Key handling of the domain layer: WireGuard keys travel as base64 text
 * inside a `KeyPair`, and the byte getters decode that text again.
 * Key generation, the Curve25519 public-key derivation and key parsing
 * belong to the WireGuard library; the model receives their outcomes as
 * parameters and states what the wrappers around them do.
 */
module DomainCrypto {
  import opened Wrappers
  import Base64

  type byte = Base64.byte

  /** A WireGuard key (`wgtypes.Key`) is 32 bytes. */
  const KeyLength: nat := 32

  type Key = k: seq<byte> | |k| == KeyLength witness seq(32, _ => 0 as byte)

  /** An error reported by the WireGuard library, passed on unchanged. */
  type Error = string

  datatype KeyPair = KeyPair(PrivateKey: string, PublicKey: string)

  type PreSharedKey = string

  /** Standard base64 with padding of a key of any length. */
  function KeyBytesToString(key: seq<byte>): (s: string)
    ensures |s| == 4 * ((|key| + 2) / 3)
    ensures forall i :: 0 <= i < |s| ==> Base64.IsAlphabetChar(s[i]) || s[i] == Base64.PadChar
  {
    Base64.EncodeShape(key);
    Base64.Encode(key)
  }

  /** The text form of a WireGuard key (`wgtypes.Key.String`): 44 characters. */
  function KeyString(k: Key): (s: string)
    ensures |s| == 44 && s[43] == Base64.PadChar
    ensures Base64.Decode(s) == Some(k)
  {
    Base64.KeyEncodingShape(k);
    Base64.DecodeEncode(k);
    KeyBytesToString(k)
  }

  /** The decoding error is discarded; invalid text yields no bytes. */
  function GetPrivateKeyBytes(p: KeyPair): (r: seq<byte>)
    ensures Base64.Decode(p.PrivateKey).None? ==> r == []
    ensures Base64.Decode(p.PrivateKey).Some? ==> |p.PrivateKey| == 4 * ((|r| + 2) / 3)
  {
    Base64.Decode(p.PrivateKey).GetOr([])
  }

  function GetPublicKeyBytes(p: KeyPair): (r: seq<byte>)
    ensures Base64.Decode(p.PublicKey).None? ==> r == []
    ensures Base64.Decode(p.PublicKey).Some? ==> |p.PublicKey| == 4 * ((|r| + 2) / 3)
  {
    Base64.Decode(p.PublicKey).GetOr([])
  }

  lemma PrivateKeyBytesRoundTrip(b: seq<byte>, publicKey: string)
    ensures GetPrivateKeyBytes(KeyPair(KeyBytesToString(b), publicKey)) == b
  {
    Base64.DecodeEncode(b);
  }

  lemma PublicKeyBytesRoundTrip(b: seq<byte>, privateKey: string)
    ensures GetPublicKeyBytes(KeyPair(privateKey, KeyBytesToString(b))) == b
  {
    Base64.DecodeEncode(b);
  }

  /**
   * `NewFreshKeypair`: `generated` is the outcome of private-key generation
   * and `publicKeyOf` the Curve25519 derivation.
   */
  function NewFreshKeypair(generated: Result<Key, Error>, publicKeyOf: Key -> Key): (r: (KeyPair, Option<Error>))
    ensures generated.Failure? ==> r == (KeyPair("", ""), Some(generated.error))
    ensures generated.Success? ==>
      && r.1 == None
      && |r.0.PrivateKey| == 44 && |r.0.PublicKey| == 44
      && GetPrivateKeyBytes(r.0) == generated.value
      && GetPublicKeyBytes(r.0) == publicKeyOf(generated.value)
  {
    match generated
    case Failure(err) => (KeyPair("", ""), Some(err))
    case Success(privateKey) =>
      (KeyPair(KeyString(privateKey), KeyString(publicKeyOf(privateKey))), None)
  }

  /** `NewPreSharedKey`: `generated` is the outcome of random key generation. */
  function NewPreSharedKey(generated: Result<Key, Error>): (r: (PreSharedKey, Option<Error>))
    ensures generated.Failure? ==> r == ("", Some(generated.error))
    ensures generated.Success? ==>
      r.1 == None && |r.0| == 44 && Base64.Decode(r.0) == Some(generated.value)
  {
    match generated
    case Failure(err) => ("", Some(err))
    case Success(key) => (KeyString(key), None)
  }

  /**
   * `PublicKeyFromPrivateKey`: `parseKey` is the library's key parser and
   * `publicKeyOf` the Curve25519 derivation; a parse error yields "".
   */
  function PublicKeyFromPrivateKey(key: string, parseKey: string -> Result<Key, Error>, publicKeyOf: Key -> Key): (r: string)
    ensures parseKey(key).Failure? ==> r == ""
    ensures parseKey(key).Success? ==>
      |r| == 44 && Base64.Decode(r) == Some(publicKeyOf(parseKey(key).value))
  {
    match parseKey(key)
    case Failure(_) => ""
    case Success(privKey) => KeyString(publicKeyOf(privKey))
  }
}
