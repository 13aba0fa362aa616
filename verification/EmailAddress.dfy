/**
 Email addresses as the broker parses them: the domain is what follows the last `@`, and holds none
 of the characters that would make it ambiguous. Lower-casing, the ASCII form of a domain and the
 recognition of raw IPv4 addresses are parameters.
 */
module EmailAddress {
  import opened Wrappers

  datatype ParseEmailError =
    | NoSeparator
    | EmptyLocal
    | InvalidIdna
    | EmptyDomain
    | InvalidDomainChars
    | RawAddrNotAllowed

  predicate IsInvalidDomainChar(c: char) {
    c in ['\0', '\t', '\n', '\r', ' ', '#', '%', '/', ':', '?', '@', '[', '\\', ']']
  }

  predicate HasNo(s: string, c: char) {
    forall i :: 0 <= i < |s| ==> s[i] != c
  }

  /** The position of the last occurrence of a character. */
  function RFind(s: string, c: char): (r: Option<nat>)
    ensures r.None? ==> HasNo(s, c)
    ensures r.Some? ==> r.value < |s| && s[r.value] == c && HasNo(s[r.value + 1..], c)
  {
    if s == [] then None
    else if s[|s| - 1] == c then Some(|s| - 1)
    else
      var r := RFind(s[..|s| - 1], c);
      assert r.Some? ==> s[r.value + 1..] == s[..|s| - 1][r.value + 1..] + [s[|s| - 1]];
      r
  }

  datatype Address = Address(serialization: string, localEnd: nat) {

    /** What holds of every parsed address. */
    predicate Valid() {
      && 0 < localEnd && localEnd + 1 < |serialization|
      && serialization[localEnd] == '@'
      && forall i :: localEnd < i < |serialization| ==> !IsInvalidDomainChar(serialization[i])
    }

    function Local(): string
      requires Valid()
    {
      serialization[..localEnd]
    }

    function Domain(): string
      requires Valid()
    {
      serialization[localEnd + 1..]
    }
  }

  type EmailAddress = a: Address | a.Valid() witness Address("a@b", 1)

  function FromParts(local: string, domain: string): Address {
    Address(local + "@" + domain, |local|)
  }

  predicate IsLastAt(input: string, at: int) {
    0 <= at < |input| && input[at] == '@' && HasNo(input[at + 1..], '@')
  }

  predicate IsDomain(domain: string) {
    domain != [] && forall i :: 0 <= i < |domain| ==> !IsInvalidDomainChar(domain[i])
  }

  /** The code points that are forbidden in the host of a URL, so that a domain cannot be read as anything else. */
  lemma NoUrlDelimiters(domain: string)
    ensures IsDomain(domain) <==>
              domain != "" && forall i :: 0 <= i < |domain| ==> domain[i] !in "\0\t\n\r #%/:?@[\\]"
  {
    var delimiters := "\0\t\n\r #%/:?@[\\]";
    assert delimiters == ['\0', '\t', '\n', '\r', ' ', '#', '%', '/', ':', '?', '@', '[', '\\', ']'];
    forall i | 0 <= i < |domain|
      ensures IsInvalidDomainChar(domain[i]) <==> domain[i] in delimiters
    {
    }
  }

  function FromStr(input: string, toLower: string -> string, toAscii: string -> Option<string>, isIpv4: string -> bool)
    : (r: Result<EmailAddress, ParseEmailError>)
    ensures r == Err(NoSeparator) <==> HasNo(input, '@')
    ensures forall at :: IsLastAt(input, at) ==>
              var local, domain := toLower(input[..at]), toAscii(input[at + 1..]);
              && (r.Ok? <==> local != [] && domain.Some? && IsDomain(domain.value) && !isIpv4(domain.value))
              && (r.Ok? ==> r.value.Local() == local && r.value.Domain() == domain.value)
              && (r == Err(EmptyLocal) <==> local == [])
              && (r == Err(InvalidIdna) <==> local != [] && domain.None?)
              && (r == Err(EmptyDomain) <==> local != [] && domain == Some([]))
              && (r == Err(RawAddrNotAllowed) <==>
                    local != [] && domain.Some? && IsDomain(domain.value) && isIpv4(domain.value))
  {
    var at := RFind(input, '@');
    if at.None? then Err(NoSeparator) else
    var local := toLower(input[..at.value]);
    if local == [] then Err(EmptyLocal) else
    var domain := toAscii(input[at.value + 1..]);
    if domain.None? then Err(InvalidIdna) else
    if domain.value == [] then Err(EmptyDomain) else
    if exists i :: 0 <= i < |domain.value| && IsInvalidDomainChar(domain.value[i]) then Err(InvalidDomainChars) else
    if isIpv4(domain.value) then Err(RawAddrNotAllowed) else
    Ok(FromParts(local, domain.value))
  }

  /** The separator can be found again: it is the last `@` of the serialization. */
  lemma SeparatorIsLastAt(e: EmailAddress)
    ensures RFind(e.serialization, '@') == Some(e.localEnd)
    ensures e.serialization == e.Local() + "@" + e.Domain()
    ensures HasNo(e.Domain(), '@') && HasNo(e.Domain(), ':')
  {
    var r := RFind(e.serialization, '@');
    assert forall i :: r.Some? && r.value < i < |e.serialization| ==>
                         e.serialization[i] == e.serialization[r.value + 1..][i - r.value - 1];
  }
}
