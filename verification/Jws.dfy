/**
 Signing and verifying of tokens: `sign_jws` and `public_jwk` of `src/utils/keys.rs` and
 `verify_jws` of `src/crypto.rs`. Signatures and the text form of JSON are parameters.
 */
module Jws {
  import opened Wrappers
  import opened Base64
  import opened Pem
  import opened SigningAlgorithms

  datatype Json =
    | Null
    | Bool(b: bool)
    | Number(n: int)
    | String(s: string)
    | Array(items: seq<Json>)
    | Object(fields: map<string, Json>)
  {
    /** `Value::get` with a name, then `Value::as_str` */
    function Text(name: string): Option<string> {
      if Object? && name in fields && fields[name].String? then Some(fields[name].s) else None
    }
  }

  /** The JSON library: a serializer and a parser. */
  datatype JsonCodec = JsonCodec(toBytes: Json -> seq<byte>, fromBytes: seq<byte> -> Option<Json>)
  {
    ghost predicate RoundTrips() { forall v: Json :: fromBytes(toBytes(v)) == Some(v) }
  }

  /** The cryptography library, for private keys of two types. */
  datatype Crypto<!E, !R> = Crypto(
    edPublic: E -> seq<byte>,
    edSign: (E, string) -> seq<byte>,
    edVerify: (seq<byte>, string, seq<byte>) -> bool,
    rsaModulus: R -> seq<byte>,
    rsaExponent: R -> seq<byte>,
    rsaSign: (R, string) -> Option<seq<byte>>,
    rsaVerify: (seq<byte>, seq<byte>, string, seq<byte>) -> bool)

  /** What is signed verifies with the public half of the key that signed it. */
  ghost predicate Sound<E(!new), R(!new)>(c: Crypto<E, R>) {
    && (forall k: E, m: string :: c.edVerify(c.edPublic(k), m, c.edSign(k, m)))
    && (forall k: R, m: string ::
          c.rsaSign(k, m).Some? ==> c.rsaVerify(c.rsaModulus(k), c.rsaExponent(k), m, c.rsaSign(k, m).value))
  }

  function SigningAlg<E, R>(key: ParsedKeyPair<E, R>): SigningAlgorithm {
    if key.Ed25519? then EdDsa else Rs256
  }

  // ---- Signing ----

  datatype SignError = Unspecified

  function Header(kid: string, alg: SigningAlgorithm): Json {
    Object(map["kid" := String(kid), "alg" := String(alg.AsStr())])
  }

  function Joined(a: string, b: string): string { a + "." + b }

  function SigningInput(j: JsonCodec, kid: string, alg: SigningAlgorithm, payload: Json): string {
    Joined(Encode(UrlSafe, j.toBytes(Header(kid, alg))), Encode(UrlSafe, j.toBytes(payload)))
  }

  function Signature<E, R>(c: Crypto<E, R>, key: ParsedKeyPair<E, R>, message: string): Option<seq<byte>> {
    match key
    case Ed25519(k) => Some(c.edSign(k, message))
    case Rsa(k) => c.rsaSign(k, message)
  }

  /** The compact serialization of section 7.1 of RFC 7515. */
  function Token<E, R>(c: Crypto<E, R>, j: JsonCodec, key: ParsedKeyPair<E, R>, kid: string, payload: Json)
    : Result<string, SignError>
  {
    var message := SigningInput(j, kid, SigningAlg(key), payload);
    var signature := Signature(c, key, message);
    if signature.None? then Err(Unspecified) else Ok(Joined(message, Encode(UrlSafe, signature.value)))
  }

  /** `sign_jws` for both key types */
  method SignJws<E, R>(c: Crypto<E, R>, j: JsonCodec, key: ParsedKeyPair<E, R>, kid: string, payload: Json)
    returns (r: Result<string, SignError>)
    ensures r == Token(c, j, key, kid, payload)
  {
    var data := "";
    assert Header(kid, EdDsa) == Object(map["kid" := String(kid), "alg" := String("EdDSA")]);
    assert Header(kid, Rs256) == Object(map["kid" := String(kid), "alg" := String("RS256")]);
    match key {
      case Ed25519(k) =>
        var header := j.toBytes(Object(map["kid" := String(kid), "alg" := String("EdDSA")]));
        assert data + Encode(UrlSafe, header) == Encode(UrlSafe, header);
        data := data + Encode(UrlSafe, header);
        data := data + ".";
        data := data + Encode(UrlSafe, j.toBytes(payload));
        var sig := c.edSign(k, data);
        data := data + ".";
        data := data + Encode(UrlSafe, sig);
      case Rsa(k) =>
        var header := j.toBytes(Object(map["kid" := String(kid), "alg" := String("RS256")]));
        assert data + Encode(UrlSafe, header) == Encode(UrlSafe, header);
        data := data + Encode(UrlSafe, header);
        data := data + ".";
        data := data + Encode(UrlSafe, j.toBytes(payload));
        var sig := c.rsaSign(k, data);
        if sig.None? {
          return Err(Unspecified);
        }
        data := data + ".";
        data := data + Encode(UrlSafe, sig.value);
    }
    return Ok(data);
  }

  // ---- Public keys ----

  /** `public_jwk` for both key types */
  function PublicJwk<E, R>(c: Crypto<E, R>, key: ParsedKeyPair<E, R>, kid: string): Json {
    match key
    case Ed25519(k) =>
      Object(map["kty" := String("OKP"), "alg" := String("EdDSA"), "crv" := String("Ed25519"), "use" := String("sig"),
                 "kid" := String(kid), "x" := String(Encode(UrlSafe, c.edPublic(k)))])
    case Rsa(k) =>
      Object(map["kty" := String("RSA"), "alg" := String("RS256"), "use" := String("sig"), "kid" := String(kid),
                 "n" := String(Encode(UrlSafe, c.rsaModulus(k))), "e" := String(Encode(UrlSafe, c.rsaExponent(k)))])
  }

  datatype ProviderKey = ProviderKey(
    alg: string, crv: string, use_: string, kid: string, n: string, e: string, x: string)

  /** A field that defaults to the empty text; other JSON types are refused. */
  function TextField(v: Json, name: string): Option<string> {
    if v.Object? && name !in v.fields then Some("") else v.Text(name)
  }

  function ReadProviderKey(v: Json): Option<ProviderKey> {
    var alg, crv, use_, kid, n, e, x := TextField(v, "alg"), TextField(v, "crv"), TextField(v, "use"),
      TextField(v, "kid"), TextField(v, "n"), TextField(v, "e"), TextField(v, "x");
    if alg.None? || crv.None? || use_.None? || kid.None? || n.None? || e.None? || x.None? then None
    else Some(ProviderKey(alg.value, crv.value, use_.value, kid.value, n.value, e.value, x.value))
  }

  lemma ReadEd25519Jwk<E, R>(c: Crypto<E, R>, k: E, kid: string)
    ensures ReadProviderKey(PublicJwk(c, Ed25519(k), kid))
         == Some(ProviderKey("EdDSA", "Ed25519", "sig", kid, "", "", Encode(UrlSafe, c.edPublic(k))))
  {
  }

  lemma ReadRsaJwk<E, R>(c: Crypto<E, R>, k: R, kid: string)
    ensures ReadProviderKey(PublicJwk(c, Rsa(k), kid))
         == Some(ProviderKey("RS256", "", "sig", kid,
                             Encode(UrlSafe, c.rsaModulus(k)), Encode(UrlSafe, c.rsaExponent(k)), ""))
  {
  }

  // ---- Verifying ----

  datatype VerifyError =
    | IncorrectFormat
    | InvalidPartBase64(index: nat)
    | InvalidHeaderJson
    | KidMissing
    | KidNotMatched(kid: string)
    | InvalidJwkBase64(property: string)
    | UnsupportedKeyType
    | BadSignature
    | InvalidPayloadJson

  datatype SupportedPublicKey = Ed25519Public(x: seq<byte>) | RsaPublic(n: seq<byte>, e: seq<byte>)
  {
    function Verify<E, R>(c: Crypto<E, R>, message: string, signature: seq<byte>): bool {
      match this
      case Ed25519Public(x) => c.edVerify(x, message, signature)
      case RsaPublic(n, e) => c.rsaVerify(n, e, message, signature)
    }
  }

  function JoinDots(parts: seq<string>): string
    requires |parts| > 0
  {
    if |parts| == 1 then parts[0] else Joined(parts[0], JoinDots(parts[1..]))
  }

  predicate HasDot(text: string) { exists i :: 0 <= i < |text| && text[i] == '.' }

  /** `split('.')`: the parts of the text between its dots. */
  function SplitDots(text: string): (parts: seq<string>)
    ensures |parts| > 0 && JoinDots(parts) == text
    ensures forall i :: 0 <= i < |parts| ==> !HasDot(parts[i])
  {
    if text == "" then [""]
    else
      var rest := SplitDots(text[1..]);
      if text[0] == '.' then
        assert ([""] + rest)[1..] == rest;
        [""] + rest
      else
        assert ([[text[0]] + rest[0]] + rest[1..])[1..] == rest[1..];
        [[text[0]] + rest[0]] + rest[1..]
  }

  /** The parts decoded in order, up to the first that is no base64. Parts are counted from one. */
  function DecodeParts(parts: seq<string>, index: nat): (r: Result<seq<seq<byte>>, VerifyError>)
    ensures r.Ok? ==> |r.value| == |parts|
    ensures r.Ok? ==> forall i :: 0 <= i < |parts| ==> Decode(UrlSafe, parts[i]) == Some(r.value[i])
    ensures r.Err? ==>
              exists i :: 0 <= i < |parts| && Decode(UrlSafe, parts[i]).None? && r.error == InvalidPartBase64(index + i)
                         && forall m :: 0 <= m < i ==> Decode(UrlSafe, parts[m]).Some?
  {
    if parts == [] then Ok([])
    else
      var first := Decode(UrlSafe, parts[0]);
      if first.None? then Err(InvalidPartBase64(index))
      else
        var rest := DecodeParts(parts[1..], index + 1);
        if rest.Err? then rest else Ok([first.value] + rest.value)
  }

  predicate IsMatch(key: ProviderKey, kid: string) { key.use_ == "sig" && key.kid == kid }

  function Matching(keySet: seq<ProviderKey>, kid: string): seq<ProviderKey> {
    if keySet == [] then []
    else (if IsMatch(keySet[0], kid) then [keySet[0]] else []) + Matching(keySet[1..], kid)
  }

  function PublicKeyOf(key: ProviderKey, alg: SigningAlgorithm): Result<SupportedPublicKey, VerifyError> {
    if alg == EdDsa && key.alg == "EdDSA" && key.crv == "Ed25519" then
      var x := Decode(UrlSafe, key.x);
      if x.None? then Err(InvalidJwkBase64("x")) else Ok(Ed25519Public(x.value))
    else if alg == Rs256 && key.alg == "RS256" then
      var n := Decode(UrlSafe, key.n);
      if n.None? then Err(InvalidJwkBase64("n"))
      else
        var e := Decode(UrlSafe, key.e);
        if e.None? then Err(InvalidJwkBase64("e")) else Ok(RsaPublic(n.value, e.value))
    else Err(UnsupportedKeyType)
  }

  /** The part of `verify_jws` behind the splitting and decoding. */
  function VerifyParts<E, R>(
      c: Crypto<E, R>, j: JsonCodec, header: seq<byte>, payload: seq<byte>, signature: seq<byte>, message: string,
      keySet: seq<ProviderKey>, alg: SigningAlgorithm): Result<Json, VerifyError>
  {
    var parsed := j.fromBytes(header);
    if parsed.None? then Err(InvalidHeaderJson)
    else
      var kid := parsed.value.Text("kid");
      if kid.None? then Err(KidMissing)
      else
        var matched := Matching(keySet, kid.value);
        if |matched| != 1 then Err(KidNotMatched(kid.value))
        else
          var key := PublicKeyOf(matched[0], alg);
          if key.Err? then Err(key.error)
          else if !key.value.Verify(c, message, signature) then Err(BadSignature)
          else
            var v := j.fromBytes(payload);
            if v.None? then Err(InvalidPayloadJson) else Ok(v.value)
  }

  /** The parts are decoded; the first two and the dot between them are the signed message. */
  function VerifySplit<E, R>(c: Crypto<E, R>, j: JsonCodec, jws: string, parts: seq<string>, keySet: seq<ProviderKey>,
                             alg: SigningAlgorithm): Result<Json, VerifyError>
    requires |parts| > 0 && JoinDots(parts) == jws
  {
    if |parts| != 3 then Err(IncorrectFormat)
    else
      var decoded := DecodeParts(parts, 1);
      if decoded.Err? then Err(decoded.error)
      else
        assert JoinDots(parts[1..]) == Joined(parts[1], parts[2]);
        var length := |parts[0]| + |parts[1]| + 1;
        VerifyParts(c, j, decoded.value[0], decoded.value[1], decoded.value[2], jws[..length], keySet, alg)
  }

  /** `verify_jws` */
  function VerifyJws<E, R>(c: Crypto<E, R>, j: JsonCodec, jws: string, keySet: seq<ProviderKey>, alg: SigningAlgorithm)
    : Result<Json, VerifyError>
  {
    VerifySplit(c, j, jws, SplitDots(jws), keySet, alg)
  }
}
