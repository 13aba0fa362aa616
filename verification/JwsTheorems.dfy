/**
 What the verifier accepts, in terms of how a token is put together, and that it accepts the
 signer's own tokens. The declarative form never cuts a token up: it joins encoded parts.
 */
module JwsTheorems {
  import opened Wrappers
  import opened Base64
  import opened Pem
  import opened Jws
  import opened SigningAlgorithms

  // ---- Cutting and joining at dots ----

  lemma {:induction false} SplitNoDots(text: string)
    requires !HasDot(text)
    ensures SplitDots(text) == [text]
  {
    if text != "" {
      assert text[0] != '.';
      assert forall i :: 0 <= i < |text[1..]| ==> text[1..][i] == text[i + 1];
      SplitNoDots(text[1..]);
      assert [text[0]] + text[1..] == text;
    }
  }

  lemma {:induction false} SplitJoined(a: string, rest: string)
    requires !HasDot(a)
    ensures SplitDots(Joined(a, rest)) == [a] + SplitDots(rest)
  {
    var text := Joined(a, rest);
    if a == "" {
      assert text[0] == '.' && text[1..] == rest;
    } else {
      assert text[0] == a[0] != '.';
      assert text[1..] == Joined(a[1..], rest);
      assert forall i :: 0 <= i < |a[1..]| ==> a[1..][i] == a[i + 1];
      SplitJoined(a[1..], rest);
      assert [a[0]] + a[1..] == a;
      assert ([a[1..]] + SplitDots(rest))[1..] == SplitDots(rest);
    }
  }

  lemma EncodedHasNoDot(data: seq<byte>)
    ensures !HasDot(Encode(UrlSafe, data))
  {
    EncodedChars(UrlSafe, data);
  }

  lemma JoinedTwice(a: string, b: string, c: string)
    ensures Joined(a, Joined(b, c)) == Joined(Joined(a, b), c)
    ensures Joined(Joined(a, b), c)[..|a| + |b| + 1] == Joined(a, b)
  {
  }

  function Compact(header: seq<byte>, payload: seq<byte>, signature: seq<byte>): string {
    Joined(Joined(Encode(UrlSafe, header), Encode(UrlSafe, payload)), Encode(UrlSafe, signature))
  }

  /** Three parts are cut exactly where they were joined. */
  lemma SplitThree(a: string, b: string, c: string)
    requires !HasDot(a) && !HasDot(b) && !HasDot(c)
    ensures SplitDots(Joined(Joined(a, b), c)) == [a, b, c]
  {
    JoinedTwice(a, b, c);
    SplitJoined(a, Joined(b, c));
    SplitJoined(b, c);
    SplitNoDots(c);
  }

  lemma SplitCompact(header: seq<byte>, payload: seq<byte>, signature: seq<byte>)
    ensures SplitDots(Compact(header, payload, signature))
         == [Encode(UrlSafe, header), Encode(UrlSafe, payload), Encode(UrlSafe, signature)]
  {
    EncodedHasNoDot(header);
    EncodedHasNoDot(payload);
    EncodedHasNoDot(signature);
    SplitThree(Encode(UrlSafe, header), Encode(UrlSafe, payload), Encode(UrlSafe, signature));
  }

  lemma DecodeThree(header: seq<byte>, payload: seq<byte>, signature: seq<byte>)
    ensures DecodeParts([Encode(UrlSafe, header), Encode(UrlSafe, payload), Encode(UrlSafe, signature)], 1)
         == Ok([header, payload, signature])
  {
    DecodeEncode(UrlSafe, header);
    DecodeEncode(UrlSafe, payload);
    DecodeEncode(UrlSafe, signature);
    DecodeThreeParts(Encode(UrlSafe, header), Encode(UrlSafe, payload), Encode(UrlSafe, signature));
  }

  lemma DecodeThreeParts(a: string, b: string, c: string)
    requires Decode(UrlSafe, a).Some? && Decode(UrlSafe, b).Some? && Decode(UrlSafe, c).Some?
    ensures DecodeParts([a, b, c], 1)
         == Ok([Decode(UrlSafe, a).value, Decode(UrlSafe, b).value, Decode(UrlSafe, c).value])
  {
    var parts := [a, b, c];
    var r := DecodeParts(parts, 1);
    assert forall i :: 0 <= i < 3 ==> Decode(UrlSafe, parts[i]).Some?;
    assert parts[0] == a && parts[1] == b && parts[2] == c;
    assert r.Ok?;
    assert r.value == [Decode(UrlSafe, a).value, Decode(UrlSafe, b).value, Decode(UrlSafe, c).value];
  }

  /** The signer's token has three parts, and the verifier checks what the signer signed. */
  lemma TokenParts<E, R>(c: Crypto<E, R>, j: JsonCodec, key: ParsedKeyPair<E, R>, kid: string, payload: Json)
    requires Token(c, j, key, kid, payload).Ok?
    ensures var token := Token(c, j, key, kid, payload).value;
            var parts := SplitDots(token);
            && |parts| == 3
            && |parts[0]| + |parts[1]| + 1 <= |token|
            && token[..|parts[0]| + |parts[1]| + 1] == SigningInput(j, kid, SigningAlg(key), payload)
            && DecodeParts(parts, 1).Ok?
            && var d := DecodeParts(parts, 1).value;
               && d[0] == j.toBytes(Header(kid, SigningAlg(key)))
               && d[1] == j.toBytes(payload)
               && Some(d[2]) == Signature(c, key, SigningInput(j, kid, SigningAlg(key), payload))
  {
    var h, p := j.toBytes(Header(kid, SigningAlg(key))), j.toBytes(payload);
    var s := Signature(c, key, SigningInput(j, kid, SigningAlg(key), payload)).value;
    SplitCompact(h, p, s);
    JoinedTwice(Encode(UrlSafe, h), Encode(UrlSafe, p), Encode(UrlSafe, s));
    DecodeThree(h, p, s);
  }

  lemma VerifyCut<E, R>(
      c: Crypto<E, R>, j: JsonCodec, jws: string, message: string, parts: seq<string>, d: seq<seq<byte>>,
      keySet: seq<ProviderKey>, alg: SigningAlgorithm)
    requires |parts| == 3 && JoinDots(parts) == jws && DecodeParts(parts, 1) == Ok(d)
    requires |parts[0]| + |parts[1]| + 1 <= |jws| && jws[..|parts[0]| + |parts[1]| + 1] == message
    ensures VerifySplit(c, j, jws, parts, keySet, alg) == VerifyParts(c, j, d[0], d[1], d[2], message, keySet, alg)
  {
  }

  lemma VerifyCompact<E, R>(
      c: Crypto<E, R>, j: JsonCodec, h: seq<byte>, p: seq<byte>, s: seq<byte>,
      keySet: seq<ProviderKey>, alg: SigningAlgorithm)
    ensures VerifyJws(c, j, Compact(h, p, s), keySet, alg)
         == VerifyParts(c, j, h, p, s, Joined(Encode(UrlSafe, h), Encode(UrlSafe, p)), keySet, alg)
  {
    var parts := [Encode(UrlSafe, h), Encode(UrlSafe, p), Encode(UrlSafe, s)];
    SplitCompact(h, p, s);
    JoinedTwice(parts[0], parts[1], parts[2]);
    DecodeThree(h, p, s);
    VerifyCut(c, j, Compact(h, p, s), Joined(parts[0], parts[1]), parts, [h, p, s], keySet, alg);
  }

  // ---- The one matching key ----

  predicate OnlyMatch(keySet: seq<ProviderKey>, kid: string, i: nat) {
    && i < |keySet| && keySet[i].use_ == "sig" && keySet[i].kid == kid
    && forall m :: 0 <= m < |keySet| && m != i ==> !(keySet[m].use_ == "sig" && keySet[m].kid == kid)
  }

  lemma {:induction false} NoneMatching(keySet: seq<ProviderKey>, kid: string)
    ensures Matching(keySet, kid) == [] <==> forall m :: 0 <= m < |keySet| ==> !IsMatch(keySet[m], kid)
  {
    if keySet != [] {
      NoneMatching(keySet[1..], kid);
      assert forall m :: 0 < m < |keySet| ==> keySet[m] == keySet[1..][m - 1];
      assert forall m :: 0 <= m < |keySet[1..]| ==> keySet[1..][m] == keySet[m + 1];
    }
  }

  lemma {:induction false} OnlyMatchIsFound(keySet: seq<ProviderKey>, kid: string, i: nat)
    requires OnlyMatch(keySet, kid, i)
    ensures Matching(keySet, kid) == [keySet[i]]
  {
    assert forall m :: 0 <= m < |keySet[1..]| ==> keySet[1..][m] == keySet[m + 1];
    if i == 0 {
      NoneMatching(keySet[1..], kid);
    } else {
      assert !IsMatch(keySet[0], kid);
      OnlyMatchIsFound(keySet[1..], kid, i - 1);
    }
  }

  lemma {:induction false} FoundIsOnlyMatch(keySet: seq<ProviderKey>, kid: string) returns (i: nat)
    requires |Matching(keySet, kid)| == 1
    ensures OnlyMatch(keySet, kid, i) && Matching(keySet, kid) == [keySet[i]]
  {
    assert forall m :: 0 < m < |keySet| ==> keySet[m] == keySet[1..][m - 1];
    if IsMatch(keySet[0], kid) {
      NoneMatching(keySet[1..], kid);
      i := 0;
    } else {
      var k := FoundIsOnlyMatch(keySet[1..], kid);
      i := k + 1;
    }
  }

  // ---- What is accepted ----

  /** The key is of the type that the session asked for, and the signature is its own. */
  predicate Accepts<E, R>(c: Crypto<E, R>, key: ProviderKey, alg: SigningAlgorithm, message: string,
                          signature: seq<byte>) {
    match alg
    case EdDsa =>
      && key.alg == "EdDSA" && key.crv == "Ed25519"
      && Decode(UrlSafe, key.x).Some?
      && c.edVerify(Decode(UrlSafe, key.x).value, message, signature)
    case Rs256 =>
      && key.alg == "RS256"
      && Decode(UrlSafe, key.n).Some? && Decode(UrlSafe, key.e).Some?
      && c.rsaVerify(Decode(UrlSafe, key.n).value, Decode(UrlSafe, key.e).value, message, signature)
  }

  /**
   The token is three parts that decode, its header names the only signing key of that name, and that
   key accepts the signature of the first two parts as they stand in the token.
   */
  predicate Genuine<E, R>(
      c: Crypto<E, R>, j: JsonCodec, jws: string, keySet: seq<ProviderKey>, alg: SigningAlgorithm, v: Json,
      header: string, payload: string, signature: string, i: nat)
  {
    && jws == Joined(Joined(header, payload), signature)
    && !HasDot(header) && !HasDot(payload) && !HasDot(signature)
    && Decode(UrlSafe, header).Some? && Decode(UrlSafe, payload).Some? && Decode(UrlSafe, signature).Some?
    && var parsed := j.fromBytes(Decode(UrlSafe, header).value);
       && i < |keySet| && OnlyMatch(keySet, keySet[i].kid, i)
       && parsed.Some? && parsed.value.Text("kid") == Some(keySet[i].kid)
       && Accepts(c, keySet[i], alg, Joined(header, payload), Decode(UrlSafe, signature).value)
       && j.fromBytes(Decode(UrlSafe, payload).value) == Some(v)
  }

  lemma PartsAccepted<E, R>(
      c: Crypto<E, R>, j: JsonCodec, h: seq<byte>, p: seq<byte>, s: seq<byte>, message: string,
      keySet: seq<ProviderKey>, alg: SigningAlgorithm, v: Json) returns (i: nat)
    requires VerifyParts(c, j, h, p, s, message, keySet, alg) == Ok(v)
    ensures i < |keySet| && OnlyMatch(keySet, keySet[i].kid, i)
    ensures j.fromBytes(h).Some? && j.fromBytes(h).value.Text("kid") == Some(keySet[i].kid)
    ensures Accepts(c, keySet[i], alg, message, s) && j.fromBytes(p) == Some(v)
  {
    i := FoundIsOnlyMatch(keySet, j.fromBytes(h).value.Text("kid").value);
  }

  lemma AcceptedParts<E, R>(
      c: Crypto<E, R>, j: JsonCodec, h: seq<byte>, p: seq<byte>, s: seq<byte>, message: string,
      keySet: seq<ProviderKey>, alg: SigningAlgorithm, i: nat)
    requires i < |keySet| && OnlyMatch(keySet, keySet[i].kid, i)
    requires j.fromBytes(h).Some? && j.fromBytes(h).value.Text("kid") == Some(keySet[i].kid)
    requires Accepts(c, keySet[i], alg, message, s) && j.fromBytes(p).Some?
    ensures VerifyParts(c, j, h, p, s, message, keySet, alg) == Ok(j.fromBytes(p).value)
  {
    OnlyMatchIsFound(keySet, keySet[i].kid, i);
  }

  /** The verifier cuts a token at its two dots and decodes what is between them. */
  lemma VerifyThree<E, R>(
      c: Crypto<E, R>, j: JsonCodec, header: string, payload: string, signature: string,
      keySet: seq<ProviderKey>, alg: SigningAlgorithm)
    requires !HasDot(header) && !HasDot(payload) && !HasDot(signature)
    requires Decode(UrlSafe, header).Some? && Decode(UrlSafe, payload).Some? && Decode(UrlSafe, signature).Some?
    ensures VerifyJws(c, j, Joined(Joined(header, payload), signature), keySet, alg)
         == VerifyParts(c, j, Decode(UrlSafe, header).value, Decode(UrlSafe, payload).value,
                        Decode(UrlSafe, signature).value, Joined(header, payload), keySet, alg)
  {
    SplitThree(header, payload, signature);
    JoinedTwice(header, payload, signature);
    DecodeThreeParts(header, payload, signature);
    var d := [Decode(UrlSafe, header).value, Decode(UrlSafe, payload).value, Decode(UrlSafe, signature).value];
    VerifyCut(c, j, Joined(Joined(header, payload), signature), Joined(header, payload),
              [header, payload, signature], d, keySet, alg);
  }

  lemma AcceptedDecodes<E, R>(
      c: Crypto<E, R>, j: JsonCodec, jws: string, keySet: seq<ProviderKey>, alg: SigningAlgorithm)
    requires VerifyJws(c, j, jws, keySet, alg).Ok?
    ensures |SplitDots(jws)| == 3 && forall i :: 0 <= i < 3 ==> Decode(UrlSafe, SplitDots(jws)[i]).Some?
  {
    assert DecodeParts(SplitDots(jws), 1).Ok?;
  }

  /** A token is accepted if and only if it is genuine; the algorithm in its header plays no part. */
  lemma AcceptedIsGenuine<E, R>(
      c: Crypto<E, R>, j: JsonCodec, jws: string, keySet: seq<ProviderKey>, alg: SigningAlgorithm, v: Json)
    ensures VerifyJws(c, j, jws, keySet, alg) == Ok(v)
       <==> exists header, payload, signature, i ::
              Genuine(c, j, jws, keySet, alg, v, header, payload, signature, i)
  {
    if VerifyJws(c, j, jws, keySet, alg) == Ok(v) {
      var parts := SplitDots(jws);
      AcceptedDecodes(c, j, jws, keySet, alg);
      var h, p, s := parts[0], parts[1], parts[2];
      ThreeJoined(parts);
      VerifyThree(c, j, h, p, s, keySet, alg);
      var i := PartsAccepted(c, j, Decode(UrlSafe, h).value, Decode(UrlSafe, p).value, Decode(UrlSafe, s).value,
                             Joined(h, p), keySet, alg, v);
      assert Genuine(c, j, jws, keySet, alg, v, h, p, s, i);
    }
    if h, p, s, i :| Genuine(c, j, jws, keySet, alg, v, h, p, s, i) {
      VerifyThree(c, j, h, p, s, keySet, alg);
      AcceptedParts(c, j, Decode(UrlSafe, h).value, Decode(UrlSafe, p).value, Decode(UrlSafe, s).value,
                    Joined(h, p), keySet, alg, i);
    }
  }

  lemma ThreeJoined(parts: seq<string>)
    requires |parts| == 3
    ensures JoinDots(parts) == Joined(Joined(parts[0], parts[1]), parts[2])
  {
    JoinedTwice(parts[0], parts[1], parts[2]);
    assert JoinDots(parts[1..]) == Joined(parts[1], parts[2]);
  }

  // ---- The signer's own tokens ----

  /** The published form of a key accepts that key's signatures. */
  lemma JwkAccepts<E(!new), R(!new)>(c: Crypto<E, R>, key: ParsedKeyPair<E, R>, kid: string, message: string)
    requires Sound(c) && Signature(c, key, message).Some?
    ensures ReadProviderKey(PublicJwk(c, key, kid)).Some?
    ensures var jwk := ReadProviderKey(PublicJwk(c, key, kid)).value;
            IsMatch(jwk, kid) && Accepts(c, jwk, SigningAlg(key), message, Signature(c, key, message).value)
  {
    match key
    case Ed25519(k) =>
      ReadEd25519Jwk(c, k, kid);
      DecodeEncode(UrlSafe, c.edPublic(k));
    case Rsa(k) =>
      ReadRsaJwk(c, k, kid);
      DecodeEncode(UrlSafe, c.rsaModulus(k));
      DecodeEncode(UrlSafe, c.rsaExponent(k));
  }

  /** Against any key set that has the key's JWK and no other signing key of that name. */
  lemma RoundTrip<E(!new), R(!new)>(
      c: Crypto<E, R>, j: JsonCodec, key: ParsedKeyPair<E, R>, kid: string, payload: Json,
      keySet: seq<ProviderKey>, i: nat)
    requires Sound(c) && j.RoundTrips()
    requires OnlyMatch(keySet, kid, i) && ReadProviderKey(PublicJwk(c, key, kid)) == Some(keySet[i])
    requires Token(c, j, key, kid, payload).Ok?
    ensures VerifyJws(c, j, Token(c, j, key, kid, payload).value, keySet, SigningAlg(key)) == Ok(payload)
  {
    var message := SigningInput(j, kid, SigningAlg(key), payload);
    var h, p, s := j.toBytes(Header(kid, SigningAlg(key))), j.toBytes(payload), Signature(c, key, message).value;
    assert Header(kid, SigningAlg(key)).Text("kid") == Some(kid);
    JwkAccepts(c, key, kid, message);
    VerifyCompact(c, j, h, p, s, keySet, SigningAlg(key));
    AcceptedParts(c, j, h, p, s, message, keySet, SigningAlg(key), i);
  }

  /** Asking for the other algorithm refuses the token, whatever its header says. */
  lemma OtherAlgorithmIsRefused<E(!new), R(!new)>(
      c: Crypto<E, R>, j: JsonCodec, key: ParsedKeyPair<E, R>, kid: string, payload: Json,
      keySet: seq<ProviderKey>, i: nat,
      alg: SigningAlgorithm)
    requires Sound(c) && j.RoundTrips()
    requires OnlyMatch(keySet, kid, i) && ReadProviderKey(PublicJwk(c, key, kid)) == Some(keySet[i])
    requires Token(c, j, key, kid, payload).Ok? && alg != SigningAlg(key)
    ensures VerifyJws(c, j, Token(c, j, key, kid, payload).value, keySet, alg) == Err(UnsupportedKeyType)
  {
    var message := SigningInput(j, kid, SigningAlg(key), payload);
    var h, p, s := j.toBytes(Header(kid, SigningAlg(key))), j.toBytes(payload), Signature(c, key, message).value;
    assert Header(kid, SigningAlg(key)).Text("kid") == Some(kid);
    VerifyCompact(c, j, h, p, s, keySet, alg);
    OnlyMatchIsFound(keySet, kid, i);
    match key
    case Ed25519(k) => ReadEd25519Jwk(c, k, kid);
    case Rsa(k) => ReadRsaJwk(c, k, kid);
  }

  // ---- What is refused, and why ----

  function Dots(text: string): nat {
    if text == "" then 0 else (if text[0] == '.' then 1 else 0) + Dots(text[1..])
  }

  lemma {:induction false} PartsAreDots(text: string)
    ensures |SplitDots(text)| == Dots(text) + 1
  {
    if text != "" {
      PartsAreDots(text[1..]);
    }
  }

  /** The format is wrong if and only if the token does not have two dots. */
  lemma WrongFormatIff<E, R>(c: Crypto<E, R>, j: JsonCodec, jws: string, keySet: seq<ProviderKey>,
                             alg: SigningAlgorithm)
    ensures VerifyJws(c, j, jws, keySet, alg) == Err(IncorrectFormat) <==> Dots(jws) != 2
  {
    PartsAreDots(jws);
  }

  /** With a readable header, the key is not matched if and only if no key alone has its name. */
  lemma NotMatchedIff<E, R>(
      c: Crypto<E, R>, j: JsonCodec, h: seq<byte>, p: seq<byte>, s: seq<byte>, message: string,
      keySet: seq<ProviderKey>, alg: SigningAlgorithm, kid: string)
    requires j.fromBytes(h).Some? && j.fromBytes(h).value.Text("kid") == Some(kid)
    ensures VerifyParts(c, j, h, p, s, message, keySet, alg) == Err(KidNotMatched(kid))
       <==> forall i :: 0 <= i < |keySet| ==> !OnlyMatch(keySet, kid, i)
  {
    if |Matching(keySet, kid)| == 1 {
      var i := FoundIsOnlyMatch(keySet, kid);
      assert 0 <= i < |keySet| && OnlyMatch(keySet, kid, i);
    } else {
      forall i | 0 <= i < |keySet|
        ensures !OnlyMatch(keySet, kid, i)
      {
        if OnlyMatch(keySet, kid, i) {
          OnlyMatchIsFound(keySet, kid, i);
        }
      }
    }
  }

  /** With the one key of the asked type found, the signature is bad if and only if that key does not accept it. */
  lemma BadSignatureIff<E, R>(
      c: Crypto<E, R>, j: JsonCodec, h: seq<byte>, p: seq<byte>, s: seq<byte>, message: string,
      keySet: seq<ProviderKey>, alg: SigningAlgorithm, i: nat)
    requires i < |keySet| && OnlyMatch(keySet, keySet[i].kid, i)
    requires j.fromBytes(h).Some? && j.fromBytes(h).value.Text("kid") == Some(keySet[i].kid)
    requires PublicKeyOf(keySet[i], alg).Ok?
    ensures VerifyParts(c, j, h, p, s, message, keySet, alg) == Err(BadSignature)
       <==> !Accepts(c, keySet[i], alg, message, s)
  {
    OnlyMatchIsFound(keySet, keySet[i].kid, i);
  }

  // ---- What is written ----

  /** The header names the key and its algorithm, and nothing else. */
  lemma HeaderIs(kid: string, alg: SigningAlgorithm)
    ensures var header := Header(kid, alg);
            && header.Object? && header.fields.Keys == {"kid", "alg"}
            && header.Text("kid") == Some(kid)
            && header.Text("alg") == Some(if alg == EdDsa then "EdDSA" else "RS256")
  {
  }

  /** The type of a published key, by which relying parties tell the two apart. */
  lemma KeyTypeIs<E, R>(c: Crypto<E, R>, key: ParsedKeyPair<E, R>, kid: string)
    ensures PublicJwk(c, key, kid).Text("kty") == Some(if key.Ed25519? then "OKP" else "RSA")
    ensures PublicJwk(c, key, kid).Text("use") == Some("sig") && PublicJwk(c, key, kid).Text("kid") == Some(kid)
  {
  }
}
