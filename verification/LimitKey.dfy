/**
 The string under which a rate limit counts: the limit's number followed by the selected fields of
 the request, each behind a separator. The fields may contain the separator, so that the key still
 identifies them has to be proved.
 */
module LimitKey {
  import opened EmailAddress

  /** Configuration of one limit; `window` is in seconds. */
  datatype LimitConfig = LimitConfig(
    id: nat,
    withEmailAddr: bool,
    withEmailDomain: bool,
    withOrigin: bool,
    withIp: bool,
    extendWindow: bool,
    decrComplete: bool,
    maxCount: nat,
    window: nat)

  /** Limits are numbered by their position, so no two share a number. */
  predicate HaveDistinctIds(limits: seq<LimitConfig>) {
    forall i, j :: 0 <= i < j < |limits| ==> limits[i].id != limits[j].id
  }

  /** The fields of a request a limit can select; `ip` is the printed form of the address. */
  datatype LimitInput = LimitInput(emailAddr: EmailAddress, origin: string, ip: string) {

    /** What the types of the fields and the checks on `client_id` establish. */
    predicate Valid() {
      IsOrigin(origin) && IsIpText(ip)
    }
  }

  /** IPv4 and IPv6 addresses print as hexadecimal digits, dots and colons. */
  predicate IsIpText(s: string) {
    forall i :: 0 <= i < |s| ==> s[i] in "0123456789abcdef.:"
  }

  predicate StartsWith(s: string, prefix: string) {
    |prefix| <= |s| && s[..|prefix|] == prefix
  }

  /** The serialized origin of an HTTP(S) URL without user information. */
  predicate IsOrigin(s: string) {
    (StartsWith(s, "http://") || StartsWith(s, "https://")) && HasNo(s, '@')
  }

  function Digit(n: nat): char
    requires n < 10
  {
    "0123456789"[n]
  }

  function Decimal(n: nat): (s: string)
    ensures s != [] && forall i :: 0 <= i < |s| ==> s[i] in "0123456789"
  {
    if n < 10 then [Digit(n)] else Decimal(n / 10) + [Digit(n % 10)]
  }

  function Part(selected: bool, sep: string, field: string): string {
    if selected then sep + field else ""
  }

  /** The fields behind the limit's number, in the order in which they are pushed. */
  function Fields(input: LimitInput, config: LimitConfig, sep: string): string
  {
    Part(config.withIp, sep, input.ip) + Rest(input, config, sep)
  }

  function Rest(input: LimitInput, config: LimitConfig, sep: string): string
  {
    Part(config.withEmailAddr, sep, input.emailAddr.serialization)
    + (Part(config.withEmailDomain, sep, input.emailAddr.Domain())
       + Part(config.withOrigin, sep, input.origin))
  }

  function Key(input: LimitInput, config: LimitConfig, prefix: string, sep: string): string
  {
    prefix + (Decimal(config.id) + Fields(input, config, sep))
  }

  /** Builds the key by pushing onto one string. */
  method BuildKey(input: LimitInput, config: LimitConfig, prefix: string, sep: string) returns (result: string)
    ensures result == Key(input, config, prefix, sep)
  {
    var email, domain := input.emailAddr.serialization, input.emailAddr.Domain();
    result := prefix + Decimal(config.id);
    if config.withIp {
      result := result + sep;
      result := result + input.ip;
    }
    PushedPart(prefix + Decimal(config.id), config.withIp, sep, input.ip, result);
    ghost var r1 := result;
    if config.withEmailAddr {
      result := result + sep;
      result := result + email;
    }
    PushedPart(r1, config.withEmailAddr, sep, email, result);
    ghost var r2 := result;
    if config.withEmailDomain {
      result := result + sep;
      result := result + domain;
    }
    PushedPart(r2, config.withEmailDomain, sep, domain, result);
    ghost var r3 := result;
    if config.withOrigin {
      result := result + sep;
      result := result + input.origin;
    }
    PushedPart(r3, config.withOrigin, sep, input.origin, result);
    Associate(prefix, Decimal(config.id), Part(config.withIp, sep, input.ip), Part(config.withEmailAddr, sep, email),
              Part(config.withEmailDomain, sep, domain), Part(config.withOrigin, sep, input.origin));
  }

  lemma PushedPart(before: string, selected: bool, sep: string, field: string, after: string)
    requires after == if selected then before + sep + field else before
    ensures after == before + Part(selected, sep, field)
  {
    assert before + sep + field == before + (sep + field);
    assert before + "" == before;
  }

  lemma Associate(a: string, b: string, c: string, d: string, e: string, f: string)
    ensures a + b + c + d + e + f == a + (b + (c + (d + (e + f))))
  {
    assert d + e + f == d + (e + f);
    assert b + c + (d + e + f) == b + (c + (d + e + f));
    assert a + b + c + d + e + f == a + (b + c + (d + e + f));
  }

  // ---- Decoding ----

  /** What precedes the first `c`, and what follows it, can be told apart. */
  lemma FirstSplit(a: string, r: string, b: string, t: string, c: char)
    requires HasNo(a, c) && HasNo(b, c)
    requires (r == [] || r[0] == c) && (t == [] || t[0] == c)
    requires a + r == b + t
    ensures a == b && r == t
  {
    var s := a + r;
    assert (forall i :: 0 <= i < |a| ==> s[i] == a[i]) && (forall i :: 0 <= i < |b| ==> s[i] == b[i]);
    assert (r != [] ==> s[|a|] == c) && (t != [] ==> s[|b|] == c);
    assert |a| == |b|;
    assert a == s[..|a|] && b == s[..|b|];
    assert r == s[|a|..] && t == s[|b|..];
  }

  /** What precedes the last `c`, and what follows it, can be told apart. */
  lemma LastSplit(a: string, r: string, b: string, t: string, c: char)
    requires HasNo(r, c) && HasNo(t, c)
    requires a + [c] + r == b + [c] + t
    ensures a == b && r == t
  {
    var s := a + [c] + r;
    assert s[|a|] == c && s[|b|] == c;
    assert forall i :: |a| < i < |s| ==> s[i] == r[i - |a| - 1];
    assert forall i :: |b| < i < |s| ==> s[i] == t[i - |b| - 1];
    assert |a| == |b|;
    assert a == s[..|a|] && b == s[..|b|];
    assert r == s[|a| + 1..] && t == s[|b| + 1..];
  }

  /** A domain repeated around a separator can be read from either half. */
  lemma HalvesSplit(d: string, e: string, sep: string)
    requires d + sep + d == e + sep + e
    ensures d == e
  {
    var s := d + sep + d;
    assert |d| == |e|;
    assert d == s[..|d|] && e == s[..|e|];
  }

  function Scheme(origin: string): string {
    if StartsWith(origin, "https://") then "https" else "http"
  }

  /** The scheme of an origin ends at its first colon. */
  lemma SchemeEndsAtColon(origin: string)
    requires IsOrigin(origin)
    ensures var n := |Scheme(origin)|;
            n < |origin| && origin[..n] == Scheme(origin) && origin[n] == ':' && HasNo(Scheme(origin), ':')
  {
    var n := |Scheme(origin)|;
    var full := if StartsWith(origin, "https://") then "https://" else "http://";
    assert full[..n] == Scheme(origin) && full[n] == ':';
    assert origin[..|full|][..n] == origin[..n] && origin[..|full|][n] == origin[n];
  }

  /** The two schemes end in different letters, so what precedes them can be told apart. */
  lemma SchemeSplit(d: string, s: string, e: string, t: string)
    requires s in {"http", "https"} && t in {"http", "https"}
    requires d + s == e + t
    ensures d == e && s == t
  {
    var u := d + s;
    assert u[|u| - 1] == s[|s| - 1] && u[|u| - 1] == t[|t| - 1];
    assert d == u[..|d|] && e == u[..|e|];
  }

  lemma BeforeColonSplit(d: string, sep: string, s: string, r: string, e: string, s': string, r': string)
    requires HasNo(d, ':') && HasNo(e, ':') && HasNo(sep, ':')
    requires s in {"http", "https"} && s' in {"http", "https"} && HasNo(s, ':') && HasNo(s', ':')
    requires r != [] && r[0] == ':' && r' != [] && r'[0] == ':'
    requires (d + sep + s) + r == (e + sep + s') + r'
    ensures d == e && s == s' && r == r'
  {
    FirstSplit(d + sep + s, r, e + sep + s', r', ':');
    SchemeSplit(d + sep, s, e + sep, s');
    assert d == (d + sep)[..|d|] && e == (e + sep)[..|e|];
  }

  lemma AtScheme(d: string, sep: string, origin: string)
    requires IsOrigin(origin)
    ensures |Scheme(origin)| <= |origin|
    ensures origin == Scheme(origin) + origin[|Scheme(origin)|..]
    ensures (d + sep + Scheme(origin)) + origin[|Scheme(origin)|..] == d + sep + origin
  {
    SchemeEndsAtColon(origin);
  }

  /** An origin behind a separator starts at its scheme, which ends at the first colon. */
  lemma OriginSplit(d: string, sep: string, origin: string, e: string, origin': string)
    requires HasNo(d, ':') && HasNo(e, ':') && HasNo(sep, ':') && IsOrigin(origin) && IsOrigin(origin')
    requires d + sep + origin == e + sep + origin'
    ensures d == e && origin == origin'
  {
    AtScheme(d, sep, origin);
    AtScheme(e, sep, origin');
    SchemeEndsAtColon(origin);
    SchemeEndsAtColon(origin');
    var s, s' := Scheme(origin), Scheme(origin');
    BeforeColonSplit(d, sep, s, origin[|s|..], e, s', origin'[|s'|..]);
  }

  // ---- The key identifies the selected fields ----

  /** The inputs agree on every field the limit selects. */
  predicate AgreeOnSelected(a: LimitInput, b: LimitInput, config: LimitConfig)
  {
    && (config.withIp ==> a.ip == b.ip)
    && (config.withEmailAddr ==> a.emailAddr.serialization == b.emailAddr.serialization)
    && (config.withEmailDomain ==> a.emailAddr.Domain() == b.emailAddr.Domain())
    && (config.withOrigin ==> a.origin == b.origin)
  }

  lemma SameEmailSameDomain(a: EmailAddress, b: EmailAddress)
    requires a.serialization == b.serialization
    ensures a == b
  {
    SeparatorIsLastAt(a);
    SeparatorIsLastAt(b);
  }

  /** Domain and origin, without the address before them. */
  lemma DomainOriginSplit(d: string, o: string, e: string, p: string, withDomain: bool, withOrigin: bool, sep: string)
    requires HasNo(d, ':') && HasNo(e, ':') && HasNo(sep, ':') && IsOrigin(o) && IsOrigin(p)
    requires Part(withDomain, sep, d) + Part(withOrigin, sep, o) == Part(withDomain, sep, e) + Part(withOrigin, sep, p)
    ensures (withDomain ==> d == e) && (withOrigin ==> o == p)
  {
    if withDomain && withOrigin {
      assert Part(true, sep, d) + Part(true, sep, o) == (sep + d) + sep + o;
      assert Part(true, sep, e) + Part(true, sep, p) == (sep + e) + sep + p;
      OriginSplit(sep + d, sep, o, sep + e, p);
      SamePrefix(sep, d, e);
    } else if withDomain {
      assert Part(true, sep, d) + "" == sep + d && Part(true, sep, e) + "" == sep + e;
      SamePrefix(sep, d, e);
    } else if withOrigin {
      assert "" + Part(true, sep, o) == sep + o && "" + Part(true, sep, p) == sep + p;
      SamePrefix(sep, o, p);
    }
  }

  lemma SamePrefix(a: string, x: string, y: string)
    requires a + x == a + y
    ensures x == y
  {
    assert x == (a + x)[|a|..] && y == (a + y)[|a|..];
  }

  /** What follows the last `@` of the fields that start with an address. */
  function AfterAt(d: string, o: string, withDomain: bool, withOrigin: bool, sep: string): string {
    d + (Part(withDomain, sep, d) + Part(withOrigin, sep, o))
  }

  function Doubled(d: string, withDomain: bool, sep: string): string {
    if withDomain then d + sep + d else d
  }

  lemma AfterAtIs(d: string, o: string, withDomain: bool, withOrigin: bool, sep: string)
    ensures AfterAt(d, o, withDomain, withOrigin, sep) ==
            if withOrigin then Doubled(d, withDomain, sep) + sep + o else Doubled(d, withDomain, sep)
  {
    var x := Part(withDomain, sep, d);
    assert d + x == Doubled(d, withDomain, sep);
    assert d + (x + Part(withOrigin, sep, o)) == (d + x) + Part(withOrigin, sep, o);
    assert (d + x) + (sep + o) == (d + x) + sep + o;
    assert (d + x) + "" == d + x;
  }

  lemma AfterAtSplit(d: string, o: string, e: string, p: string, withDomain: bool, withOrigin: bool, sep: string)
    requires HasNo(d, ':') && HasNo(e, ':') && HasNo(sep, ':') && IsOrigin(o) && IsOrigin(p)
    requires AfterAt(d, o, withDomain, withOrigin, sep) == AfterAt(e, p, withDomain, withOrigin, sep)
    ensures d == e && (withOrigin ==> o == p)
  {
    AfterAtIs(d, o, withDomain, withOrigin, sep);
    AfterAtIs(e, p, withDomain, withOrigin, sep);
    if withOrigin {
      OriginSplit(Doubled(d, withDomain, sep), sep, o, Doubled(e, withDomain, sep), p);
    }
    if withDomain {
      HalvesSplit(d, e, sep);
    }
  }

  function RestAfterAt(input: LimitInput, config: LimitConfig, sep: string): string
  {
    AfterAt(input.emailAddr.Domain(), input.origin, config.withEmailDomain, config.withOrigin, sep)
  }

  lemma RestHasAt(input: LimitInput, config: LimitConfig, sep: string)
    requires input.Valid() && config.withEmailAddr && HasNo(sep, '@')
    ensures Rest(input, config, sep) == (sep + input.emailAddr.Local()) + ['@'] + RestAfterAt(input, config, sep)
    ensures HasNo(RestAfterAt(input, config, sep), '@')
  {
    SeparatorIsLastAt(input.emailAddr);
    var l, d := input.emailAddr.Local(), input.emailAddr.Domain();
    var tail := Part(config.withEmailDomain, sep, d) + Part(config.withOrigin, sep, input.origin);
    assert (sep + (l + ['@'] + d)) + tail == (sep + l) + ['@'] + (d + tail);
  }

  /** The fields that start with an address: its local part may hold anything, even separators and `@`. */
  lemma EmailSplit(a: LimitInput, b: LimitInput, config: LimitConfig, sep: string)
    requires a.Valid() && b.Valid() && config.withEmailAddr && HasNo(sep, '@') && HasNo(sep, ':')
    requires Rest(a, config, sep) == Rest(b, config, sep)
    ensures a.emailAddr.serialization == b.emailAddr.serialization
    ensures config.withOrigin ==> a.origin == b.origin
  {
    SeparatorIsLastAt(a.emailAddr);
    SeparatorIsLastAt(b.emailAddr);
    RestHasAt(a, config, sep);
    RestHasAt(b, config, sep);
    LastSplit(sep + a.emailAddr.Local(), RestAfterAt(a, config, sep),
              sep + b.emailAddr.Local(), RestAfterAt(b, config, sep), '@');
    SamePrefix(sep, a.emailAddr.Local(), b.emailAddr.Local());
    AfterAtSplit(a.emailAddr.Domain(), a.origin, b.emailAddr.Domain(), b.origin,
                 config.withEmailDomain, config.withOrigin, sep);
  }

  lemma RestWithoutEmail(input: LimitInput, config: LimitConfig, sep: string)
    requires !config.withEmailAddr
    ensures Rest(input, config, sep) ==
            Part(config.withEmailDomain, sep, input.emailAddr.Domain()) + Part(config.withOrigin, sep, input.origin)
  {
  }

  lemma RestIdentifies(a: LimitInput, b: LimitInput, config: LimitConfig, sep: string)
    requires a.Valid() && b.Valid() && HasNo(sep, '@') && HasNo(sep, ':')
    requires Rest(a, config, sep) == Rest(b, config, sep)
    ensures AgreeOnSelected(a, b, config.(withIp := false))
  {
    if config.withEmailAddr {
      EmailSplit(a, b, config, sep);
      SameEmailSameDomain(a.emailAddr, b.emailAddr);
    } else {
      SeparatorIsLastAt(a.emailAddr);
      SeparatorIsLastAt(b.emailAddr);
      RestWithoutEmail(a, config, sep);
      RestWithoutEmail(b, config, sep);
      DomainOriginSplit(a.emailAddr.Domain(), a.origin, b.emailAddr.Domain(), b.origin,
                        config.withEmailDomain, config.withOrigin, sep);
    }
  }

  lemma IpHasNoSeparator(ip: string)
    requires IsIpText(ip)
    ensures HasNo(ip, '|')
  {
  }

  lemma RestStartsWithSeparator(input: LimitInput, config: LimitConfig)
    ensures Rest(input, config, "|") == "" || Rest(input, config, "|")[0] == '|'
  {
  }

  lemma IpTextSplit(a: string, r: string, b: string, t: string, c: char)
    requires HasNo(a, c) && HasNo(b, c) && (r == [] || r[0] == c) && (t == [] || t[0] == c)
    requires ([c] + a) + r == ([c] + b) + t
    ensures a == b && r == t
  {
    assert ([c] + a) + r == [c] + (a + r) && ([c] + b) + t == [c] + (b + t);
    SamePrefix([c], a + r, b + t);
    FirstSplit(a, r, b, t, c);
  }

  /** The fields behind the address of the user agent. */
  lemma IpSplit(a: LimitInput, b: LimitInput, config: LimitConfig)
    requires a.Valid() && b.Valid()
    requires Fields(a, config, "|") == Fields(b, config, "|")
    ensures config.withIp ==> a.ip == b.ip
    ensures Rest(a, config, "|") == Rest(b, config, "|")
  {
    var ra, rb := Rest(a, config, "|"), Rest(b, config, "|");
    if config.withIp {
      IpHasNoSeparator(a.ip);
      IpHasNoSeparator(b.ip);
      RestStartsWithSeparator(a, config);
      RestStartsWithSeparator(b, config);
      assert "|" == ['|'];
      IpTextSplit(a.ip, ra, b.ip, rb, '|');
    } else {
      SamePrefix("", ra, rb);
    }
  }

  lemma FieldsIdentify(a: LimitInput, b: LimitInput, config: LimitConfig)
    requires a.Valid() && b.Valid()
    requires Fields(a, config, "|") == Fields(b, config, "|")
    ensures AgreeOnSelected(a, b, config)
  {
    IpSplit(a, b, config);
    RestIdentifies(a, b, config, "|");
  }

  /**
   For one limit, two requests count under the same key if and only if they agree on every selected
   field, whatever the prefix and although fields may contain the separator.
   */
  lemma KeyIffSameFields(a: LimitInput, b: LimitInput, config: LimitConfig, prefix: string)
    requires a.Valid() && b.Valid()
    ensures Key(a, config, prefix, "|") == Key(b, config, prefix, "|") <==> AgreeOnSelected(a, b, config)
  {
    if Key(a, config, prefix, "|") == Key(b, config, prefix, "|") {
      SamePrefix(prefix, Decimal(config.id) + Fields(a, config, "|"), Decimal(config.id) + Fields(b, config, "|"));
      SamePrefix(Decimal(config.id), Fields(a, config, "|"), Fields(b, config, "|"));
      FieldsIdentify(a, b, config);
    }
  }

  lemma {:induction false} DecimalIsInjective(m: nat, n: nat)
    requires Decimal(m) == Decimal(n)
    ensures m == n
    decreases m
  {
    var s := Decimal(m);
    assert s[|s| - 1] == Digit(m % 10) && s[|s| - 1] == Digit(n % 10);
    if m >= 10 && n >= 10 {
      assert s[..|s| - 1] == Decimal(m / 10) && s[..|s| - 1] == Decimal(n / 10);
      DecimalIsInjective(m / 10, n / 10);
    }
  }

  /** Limits with different numbers never share a key, for any two requests at all. */
  lemma KeysOfLimitsDiffer(a: LimitInput, b: LimitInput, c: LimitConfig, d: LimitConfig, prefix: string)
    requires c.id != d.id
    ensures Key(a, c, prefix, "|") != Key(b, d, prefix, "|")
  {
    if Key(a, c, prefix, "|") == Key(b, d, prefix, "|") {
      var fa, fb := Fields(a, c, "|"), Fields(b, d, "|");
      SamePrefix(prefix, Decimal(c.id) + fa, Decimal(d.id) + fb);
      FirstSplit(Decimal(c.id), fa, Decimal(d.id), fb, '|');
      DecimalIsInjective(c.id, d.id);
    }
  }

  /** The namespace of a store is only put in front. */
  lemma PrefixIsNamespace(input: LimitInput, config: LimitConfig, prefix: string)
    ensures Key(input, config, prefix, "|") == prefix + Key(input, config, "", "|")
  {
  }

  /** The order of the fields: with all of them, and with none. */
  lemma KeyLooksLike(input: LimitInput, config: LimitConfig, prefix: string)
    ensures config.withIp && config.withEmailAddr && config.withEmailDomain && config.withOrigin ==>
              Key(input, config, prefix, "|")
              == prefix + Decimal(config.id) + ("|" + input.ip) + ("|" + input.emailAddr.serialization)
                 + ("|" + input.emailAddr.Domain()) + ("|" + input.origin)
    ensures !config.withIp && !config.withEmailAddr && !config.withEmailDomain && !config.withOrigin ==>
              Key(input, config, prefix, "|") == prefix + Decimal(config.id)
  {
    Associate(prefix, Decimal(config.id), Part(config.withIp, "|", input.ip),
              Part(config.withEmailAddr, "|", input.emailAddr.serialization),
              Part(config.withEmailDomain, "|", input.emailAddr.Domain()), Part(config.withOrigin, "|", input.origin));
    var none := "" + ("" + ("" + ""));
    assert none == "" && Decimal(config.id) + none == Decimal(config.id);
  }

  function ToNat(digits: string): nat
    requires forall i :: 0 <= i < |digits| ==> '0' <= digits[i] <= '9'
  {
    if digits == "" then 0
    else ToNat(digits[..|digits| - 1]) * 10 + (digits[|digits| - 1] as int - '0' as int)
  }

  /** The number of a limit is written in base ten. */
  lemma {:induction false} DecimalIsBaseTen(n: nat)
    ensures forall i :: 0 <= i < |Decimal(n)| ==> '0' <= Decimal(n)[i] <= '9'
    ensures ToNat(Decimal(n)) == n
  {
    var s := Decimal(n);
    if n >= 10 {
      DecimalIsBaseTen(n / 10);
      assert s[..|s| - 1] == Decimal(n / 10) && s[|s| - 1] == Digit(n % 10);
    } else {
      assert s[..0] == "";
    }
  }
}
