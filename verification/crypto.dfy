/** Signed envelopes and keys (crypto/envelope.go, crypto/keys.go). Ed25519 (section 5.1 of RFC 8032)
    and the JSON form of a token are functions whose round trips are the stated hypothesis Sound. */
module Crypto {
  import opened Common
  import opened Models
  import Base64

  const SEED_SIZE: nat := 32
  const PUBLIC_KEY_SIZE: nat := 32

  datatype Primitives = Primitives(
    publicKey: seq<byte> -> seq<byte>,
    sign: (seq<byte>, seq<byte>) -> seq<byte>,
    verify: (seq<byte>, seq<byte>, seq<byte>) -> bool,
    marshal: Token -> Option<seq<byte>>,
    unmarshal: seq<byte> -> Option<Token>)

  /** What a seed signs verifies under its public key, and a marshalled token reads back. */
  ghost predicate Sound(c: Primitives) {
    && (forall seed :: |seed| == SEED_SIZE ==> |c.publicKey(seed)| == PUBLIC_KEY_SIZE)
    && (forall seed, data :: |seed| == SEED_SIZE ==> c.verify(c.publicKey(seed), data, c.sign(seed, data)))
    && (forall t :: c.marshal(t).Some? ==> c.unmarshal(c.marshal(t).value) == Some(t))
  }

  datatype Envelope = Envelope(payload: string, signature: string)

  datatype CryptoError = Unmarshallable | BadBase64 | InvalidSignature | BadJson | WrongLength

  function Sign(c: Primitives, seed: seq<byte>, token: Token): Result<Envelope, CryptoError> {
    match c.marshal(token)
    case None => Err(Unmarshallable)
    case Some(data) => Ok(Envelope(Base64.Encode(data), Base64.Encode(c.sign(seed, data))))
  }

  function Verify(c: Primitives, pub: seq<byte>, env: Envelope): Result<Token, CryptoError> {
    var data, sig := Base64.Decode(env.payload), Base64.Decode(env.signature);
    if data.None? || sig.None? then Err(BadBase64)
    else if !c.verify(pub, data.value, sig.value) then Err(InvalidSignature)
    else match c.unmarshal(data.value)
      case None => Err(BadJson)
      case Some(t) => Ok(t)
  }

  /** The token inside an envelope, read without checking the signature. */
  function Payload(c: Primitives, env: Envelope): Option<Token> {
    match Base64.Decode(env.payload)
    case None => None
    case Some(data) => c.unmarshal(data)
  }

  function KeypairFromSeed(c: Primitives, text: string): Result<(seq<byte>, seq<byte>), CryptoError> {
    match Base64.Decode(text)
    case None => Err(BadBase64)
    case Some(raw) => if |raw| != SEED_SIZE then Err(WrongLength) else Ok((raw, c.publicKey(raw)))
  }

  function EncodePublicKey(pub: seq<byte>): string {
    Base64.Encode(pub)
  }

  function DecodePublicKey(text: string): Result<seq<byte>, CryptoError> {
    match Base64.Decode(text)
    case None => Err(BadBase64)
    case Some(raw) => if |raw| != PUBLIC_KEY_SIZE then Err(WrongLength) else Ok(raw)
  }

  /** A signed token verifies under the signer's public key and reads back as itself, also
      without the check. */
  lemma SignThenVerify(c: Primitives, seed: seq<byte>, token: Token)
    requires Sound(c) && |seed| == SEED_SIZE
    ensures Sign(c, seed, token).Ok? ==>
      Verify(c, c.publicKey(seed), Sign(c, seed, token).value) == Ok(token) && Payload(c, Sign(c, seed, token).value) == Some(token)
    ensures Sign(c, seed, token).Ok? <==> c.marshal(token).Some?
  {
    if c.marshal(token).Some? {
      var data := c.marshal(token).value;
      Base64.RoundTrip(data);
      Base64.RoundTrip(c.sign(seed, data));
    }
  }

  /** An envelope that verifies carries a signature of the very bytes its token is read from. */
  lemma VerifiedBytes(c: Primitives, pub: seq<byte>, env: Envelope)
    requires Verify(c, pub, env).Ok?
    ensures Base64.Decode(env.payload).Some? && Base64.Decode(env.signature).Some?
    ensures c.verify(pub, Base64.Decode(env.payload).value, Base64.Decode(env.signature).value)
    ensures c.unmarshal(Base64.Decode(env.payload).value) == Some(Verify(c, pub, env).value)
    ensures Payload(c, env) == Some(Verify(c, pub, env).value)
  {
  }

  /** Exactly what verifies, and why the rest does not: texts that are not base64, then a signature that
      does not fit, then bytes that are no token. */
  lemma VerifiesExactly(c: Primitives, pub: seq<byte>, env: Envelope, t: Token)
    ensures var data, sig := Base64.Decode(env.payload), Base64.Decode(env.signature);
      var r := Verify(c, pub, env);
      && (r == Ok(t) <==> data.Some? && sig.Some? && c.verify(pub, data.value, sig.value) && Payload(c, env) == Some(t))
      && (r == Err(BadBase64) <==> data.None? || sig.None?)
      && (r == Err(InvalidSignature) <==> data.Some? && sig.Some? && !c.verify(pub, data.value, sig.value))
      && (r.Err? ==> r.error in {BadBase64, InvalidSignature, BadJson})
  {
    hide Base64.Decode;
  }

  /** Keys survive their text form exactly when they have the right length. */
  lemma KeysRoundTrip(c: Primitives, raw: seq<byte>)
    ensures KeypairFromSeed(c, Base64.Encode(raw)) == if |raw| == SEED_SIZE then Ok((raw, c.publicKey(raw))) else Err(WrongLength)
    ensures DecodePublicKey(EncodePublicKey(raw)) == if |raw| == PUBLIC_KEY_SIZE then Ok(raw) else Err(WrongLength)
  {
    Base64.RoundTrip(raw);
  }
}
