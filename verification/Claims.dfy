/**
 The claims of identity tokens: those that `create_jwt` writes, and those that the OpenID Connect callback
 demands. A broker's token for another broker goes from the one to the other.
 */
module Claims {
  import opened Wrappers
  import opened SigningAlgorithms
  import opened Base64
  import opened Pem
  import opened Jws
  import opened JwsTheorems

  const LEEWAY: nat := 30
  const U64_MAX: nat := 0xFFFF_FFFF_FFFF_FFFF

  // ---- Written ----

  /** The payload of `create_jwt`; times are in seconds. */
  function Payload(publicUrl: string, email: string, emailAddr: string, aud: string, nonce: string, now: nat,
                   tokenTtl: nat)
    : Json
  {
    Object(map[
      "aud" := String(aud),
      "email" := String(emailAddr),
      "email_verified" := Bool(true),
      "email_original" := String(email),
      "exp" := Number(now + tokenTtl),
      "iat" := Number(now),
      "iss" := String(publicUrl),
      "sub" := String(emailAddr),
      "nonce" := String(nonce)])
  }

  // ---- Demanded ----

  /** `Value::get` with a name, then `Value::as_u64` */
  function Unsigned(v: Json, name: string): Option<nat> {
    if v.Object? && name in v.fields && v.fields[name].Number? && 0 <= v.fields[name].n <= U64_MAX
    then Some(v.fields[name].n) else None
  }

  datatype Relation = Portier | Google

  /** What the session holds to compare with: the provider's origin, our client there, nonce and address. */
  datatype Expected = Expected(rel: Relation, origin: string, clientId: string, nonce: string, emailAddr: string)

  /** The checks of `callback` behind the signature. `google` compares addresses in Google's normal form. */
  function ClaimsPass(v: Json, e: Expected, now: nat, google: string -> bool): bool {
    var iss, aud, email, nonce := v.Text("iss"), v.Text("aud"), v.Text("email"), v.Text("nonce");
    var iat, exp := Unsigned(v, "iat"), Unsigned(v, "exp");
    if iss.None? || aud.None? || email.None? || iat.None? || exp.None? || nonce.None? then false
    else if iss.value != e.origin || aud.value != e.clientId || nonce.value != e.nonce then false
    else
      var latest := if exp.value + LEEWAY <= U64_MAX then exp.value + LEEWAY else 0;
      var earliest := if iat.value >= LEEWAY then iat.value - LEEWAY else U64_MAX;
      if !(now < latest) || !(earliest <= now) then false
      else
        match e.rel
        case Portier =>
          var original := v.Text("email_original");
          email.value == e.emailAddr && (original.Some? ==> original.value == e.emailAddr)
        case Google => google(email.value)
  }

  /** The whole verdict of `callback` on a token. */
  function CallbackPasses<E, R>(c: Crypto<E, R>, j: JsonCodec, token: string, keySet: seq<ProviderKey>,
                                alg: SigningAlgorithm, e: Expected, now: nat, google: string -> bool): bool
  {
    var payload := VerifyJws(c, j, token, keySet, alg);
    payload.Ok? && ClaimsPass(payload.value, e, now, google)
  }

  // ---- From the one to the other ----

  /** The claims that are written are read back as they were meant. */
  lemma PayloadIs(publicUrl: string, email: string, emailAddr: string, aud: string, nonce: string, now: nat,
                  tokenTtl: nat)
    requires now + tokenTtl <= U64_MAX
    ensures var v := Payload(publicUrl, email, emailAddr, aud, nonce, now, tokenTtl);
            && v.Text("iss") == Some(publicUrl) && v.Text("aud") == Some(aud) && v.Text("nonce") == Some(nonce)
            && v.Text("email") == Some(emailAddr) && v.Text("sub") == Some(emailAddr)
            && v.Text("email_original") == Some(email)
            && v.Object? && "email_verified" in v.fields && v.fields["email_verified"] == Bool(true)
            && Unsigned(v, "iat") == Some(now) && Unsigned(v, "exp") == Some(now + tokenTtl)
  {
  }

  /**
   Claims of this form pass the checks if and only if they are from the right issuer to the right audience,
   for the right attempt and address, and within their time and thirty seconds.
   */
  lemma BrokerClaimsPassIff(publicUrl: string, email: string, emailAddr: string, aud: string, nonce: string,
                            iat: nat, tokenTtl: nat, e: Expected, now: nat, google: string -> bool)
    requires 30 <= iat && iat + tokenTtl + 30 <= U64_MAX
    ensures ClaimsPass(Payload(publicUrl, email, emailAddr, aud, nonce, iat, tokenTtl), e, now, google)
       <==> && publicUrl == e.origin && aud == e.clientId && nonce == e.nonce
            && (if e.rel.Portier? then emailAddr == e.emailAddr && email == e.emailAddr else google(emailAddr))
            && iat <= now + 30 && now < iat + tokenTtl + 30
  {
    PayloadIs(publicUrl, email, emailAddr, aud, nonce, iat, tokenTtl);
  }

  /**
   The whole way: a token that a broker signs for the address and the nonce it was asked for is accepted by
   the broker that asked, with the key set that publishes the signing key, for as long as it is valid.
   */
  lemma BrokerTokenPasses<E(!new), R(!new)>(
      c: Crypto<E, R>, j: JsonCodec, key: ParsedKeyPair<E, R>, kid: string, keySet: seq<ProviderKey>, i: nat,
      e: Expected, iat: nat, tokenTtl: nat, now: nat, google: string -> bool)
    requires Sound(c) && j.RoundTrips()
    requires OnlyMatch(keySet, kid, i) && ReadProviderKey(PublicJwk(c, key, kid)) == Some(keySet[i])
    requires e.rel.Portier? && 30 <= iat && iat + tokenTtl + 30 <= U64_MAX
    requires var payload := Payload(e.origin, e.emailAddr, e.emailAddr, e.clientId, e.nonce, iat, tokenTtl);
             Token(c, j, key, kid, payload).Ok?
    ensures var payload := Payload(e.origin, e.emailAddr, e.emailAddr, e.clientId, e.nonce, iat, tokenTtl);
            CallbackPasses(c, j, Token(c, j, key, kid, payload).value, keySet, SigningAlg(key), e, now, google)
            <==> iat <= now + 30 && now < iat + tokenTtl + 30
  {
    var payload := Payload(e.origin, e.emailAddr, e.emailAddr, e.clientId, e.nonce, iat, tokenTtl);
    RoundTrip(c, j, key, kid, payload, keySet, i);
    BrokerClaimsPassIff(e.origin, e.emailAddr, e.emailAddr, e.clientId, e.nonce, iat, tokenTtl, e, now, google);
  }

  /** What passes was issued by the provider to us for this attempt, whoever made it. */
  lemma PassedClaims(v: Json, e: Expected, now: nat, google: string -> bool)
    requires ClaimsPass(v, e, now, google)
    ensures v.Text("iss") == Some(e.origin) && v.Text("aud") == Some(e.clientId) && v.Text("nonce") == Some(e.nonce)
    ensures Unsigned(v, "exp").Some? && now < Unsigned(v, "exp").value + 30
    ensures Unsigned(v, "iat").Some? && Unsigned(v, "iat").value <= now + 30
    ensures e.rel.Portier? ==> v.Text("email") == Some(e.emailAddr)
    ensures e.rel.Google? ==> v.Text("email").Some? && google(v.Text("email").value)
  {
  }
}
