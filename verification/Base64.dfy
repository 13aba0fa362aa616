/**
 Base64 as RFC 4648 defines it: the standard alphabet with padding (section 4) and the URL-safe
 alphabet without (section 5). Decoding is strict: it accepts exactly what encoding produces.
 */
module Base64 {
  import opened Wrappers

  type byte = b: int | 0 <= b < 256
  type Sextet = x: int | 0 <= x < 64

  datatype Alphabet = Standard | UrlSafe

  function Char(a: Alphabet, x: Sextet): char {
    if x < 26 then ('A' as int + x) as char
    else if x < 52 then ('a' as int + (x - 26)) as char
    else if x < 62 then ('0' as int + (x - 52)) as char
    else if x == 62 then (if a.Standard? then '+' else '-')
    else (if a.Standard? then '/' else '_')
  }

  function Value(a: Alphabet, c: char): Option<Sextet> {
    if 'A' <= c <= 'Z' then Some(c as int - 'A' as int)
    else if 'a' <= c <= 'z' then Some(c as int - 'a' as int + 26)
    else if '0' <= c <= '9' then Some(c as int - '0' as int + 52)
    else if c == (if a.Standard? then '+' else '-') then Some(62)
    else if c == (if a.Standard? then '/' else '_') then Some(63)
    else None
  }

  // ---- Bytes as groups of six bits ----

  /** Three bytes make four sextets; what is left at the end is filled up with zero bits. */
  function Split(data: seq<byte>): seq<Sextet> {
    if data == [] then []
    else if |data| == 1 then [data[0] / 4, data[0] % 4 * 16]
    else if |data| == 2 then [data[0] / 4, data[0] % 4 * 16 + data[1] / 16, data[1] % 16 * 4]
    else Group(data) + Split(data[3..])
  }

  function Group(data: seq<byte>): seq<Sextet>
    requires |data| >= 3
  {
    [data[0] / 4, data[0] % 4 * 16 + data[1] / 16, data[1] % 16 * 4 + data[2] / 64, data[2] % 64]
  }

  /** The bytes of `s`. A lone last sextet, or filling that is not zero, is refused. */
  function Join(s: seq<Sextet>): Option<seq<byte>> {
    if s == [] then Some([])
    else if |s| == 1 then None
    else if |s| == 2 then
      if s[1] % 16 != 0 then None else Some([First(s[0], s[1])])
    else if |s| == 3 then
      if s[2] % 4 != 0 then None else Some([First(s[0], s[1]), Second(s[1], s[2])])
    else
      var rest := Join(s[4..]);
      if rest.None? then None else
      Some([First(s[0], s[1]), Second(s[1], s[2]), Third(s[2], s[3])] + rest.value)
  }

  function First(w: Sextet, x: Sextet): byte { w * 4 + x / 16 }
  function Second(x: Sextet, y: Sextet): byte { x % 16 * 16 + y / 4 }
  function Third(y: Sextet, z: Sextet): byte { y % 4 * 64 + z }

  lemma BytesOfSextets(p: byte, q: byte, r: byte)
    ensures First(p / 4, p % 4 * 16 + q / 16) == p
    ensures Second(p % 4 * 16 + q / 16, q % 16 * 4 + r / 64) == q
    ensures Third(q % 16 * 4 + r / 64, r % 64) == r
  {
  }

  lemma SextetsOfBytes(w: Sextet, x: Sextet, y: Sextet, z: Sextet)
    ensures First(w, x) / 4 == w
    ensures First(w, x) % 4 * 16 + Second(x, y) / 16 == x
    ensures Second(x, y) % 16 * 4 + Third(y, z) / 64 == y
    ensures Third(y, z) % 64 == z
  {
  }

  lemma JoinSplitOne(p: byte)
    ensures Join(Split([p])) == Some([p])
  {
    BytesOfSextets(p, 0, 0);
    assert Split([p]) == [p / 4, p % 4 * 16];
  }

  lemma JoinSplitTwo(p: byte, q: byte)
    ensures Join(Split([p, q])) == Some([p, q])
  {
    BytesOfSextets(p, q, 0);
    assert Split([p, q]) == [p / 4, p % 4 * 16 + q / 16, q % 16 * 4];
  }

  lemma AsDisplay(data: seq<byte>)
    ensures |data| == 1 ==> data == [data[0]]
    ensures |data| == 2 ==> data == [data[0], data[1]]
  {
  }

  lemma FirstThree(data: seq<byte>)
    requires |data| >= 3
    ensures [data[0], data[1], data[2]] + data[3..] == data
    ensures Group([data[0], data[1], data[2]]) == Group(data)
  {
  }

  lemma JoinSplitEnd(data: seq<byte>)
    requires 1 <= |data| <= 2
    ensures Join(Split(data)) == Some(data)
  {
    AsDisplay(data);
    if |data| == 1 {
      JoinSplitOne(data[0]);
    } else {
      JoinSplitTwo(data[0], data[1]);
    }
  }

  lemma JoinGroup(p: byte, q: byte, r: byte, rest: seq<Sextet>)
    ensures Join(Group([p, q, r]) + rest)
         == if Join(rest).None? then None else Some([p, q, r] + Join(rest).value)
  {
    BytesOfSextets(p, q, r);
    assert (Group([p, q, r]) + rest)[4..] == rest;
  }

  lemma {:induction false} JoinSplit(data: seq<byte>)
    ensures Join(Split(data)) == Some(data)
  {
    if data == [] {
    } else if |data| <= 2 {
      JoinSplitEnd(data);
    } else {
      JoinSplit(data[3..]);
      JoinGroup(data[0], data[1], data[2], Split(data[3..]));
      FirstThree(data);
      assert Split(data) == Group(data) + Split(data[3..]);
    }
  }

  lemma SplitJoinEnd(s: seq<Sextet>)
    requires 2 <= |s| <= 3 && Join(s).Some?
    ensures Split(Join(s).value) == s
  {
    if |s| == 2 {
      SextetsOfBytes(s[0], s[1], 0, 0);
    } else {
      SextetsOfBytes(s[0], s[1], s[2], 0);
    }
  }

  lemma SplitGroup(w: Sextet, x: Sextet, y: Sextet, z: Sextet, rest: seq<byte>)
    ensures Split([First(w, x), Second(x, y), Third(y, z)] + rest) == [w, x, y, z] + Split(rest)
  {
    var d := [First(w, x), Second(x, y), Third(y, z)] + rest;
    SextetsOfBytes(w, x, y, z);
    assert d[3..] == rest && Group(d) == [w, x, y, z];
  }

  lemma {:induction false} SplitJoin(s: seq<Sextet>)
    requires Join(s).Some?
    ensures Split(Join(s).value) == s
    ensures |s| % 4 != 1
  {
    if s == [] {
    } else if |s| <= 3 {
      SplitJoinEnd(s);
    } else {
      SplitJoin(s[4..]);
      SplitGroup(s[0], s[1], s[2], s[3], Join(s[4..]).value);
      assert [s[0], s[1], s[2], s[3]] + s[4..] == s;
    }
  }

  lemma SplitSizes(data: seq<byte>)
    ensures |data| == 0 ==> |Split(data)| == 0
    ensures |data| == 1 ==> |Split(data)| == 2
    ensures |data| == 2 ==> |Split(data)| == 3
    ensures |data| >= 3 ==> |Split(data)| == 4 + |Split(data[3..])|
  {
  }

  /** How many sextets go into the last group of four. */
  function Remainder(n: nat): nat { if n % 3 == 0 then 0 else n % 3 + 1 }

  lemma RemainderStep(n: nat, m: nat)
    requires m % 4 == Remainder(n)
    ensures (4 + m) % 4 == Remainder(n + 3)
  {
  }

  lemma {:induction false} SplitRemainder(data: seq<byte>)
    ensures |Split(data)| % 4 == Remainder(|data|)
  {
    SplitSizes(data);
    if |data| >= 3 {
      SplitRemainder(data[3..]);
      RemainderStep(|data[3..]|, |Split(data[3..])|);
    }
  }

  lemma {:induction false} SplitConcat(d: seq<byte>, e: seq<byte>)
    requires |d| % 3 == 0
    ensures Split(d + e) == Split(d) + Split(e)
  {
    if d == [] {
      assert d + e == e;
    } else {
      SplitConcat(d[3..], e);
      assert (d + e)[3..] == d[3..] + e;
      assert Group(d + e) == Group(d);
      ConcatIsAssociative(Group(d), Split(d[3..]), Split(e));
    }
  }

  // ---- Groups of six bits as text ----

  function Text(a: Alphabet, s: seq<Sextet>): (t: string)
    ensures |t| == |s|
    ensures forall i :: 0 <= i < |s| ==> t[i] == Char(a, s[i])
  {
    seq(|s|, i requires 0 <= i < |s| => Char(a, s[i]))
  }

  predicate IsText(a: Alphabet, t: string) {
    forall i :: 0 <= i < |t| ==> Value(a, t[i]).Some?
  }

  function Values(a: Alphabet, t: string): (s: seq<Sextet>)
    requires IsText(a, t)
    ensures |s| == |t|
    ensures forall i :: 0 <= i < |t| ==> s[i] == Value(a, t[i]).value
  {
    seq(|t|, i requires 0 <= i < |t| => Value(a, t[i]).value)
  }

  lemma CharIsInverse(a: Alphabet, x: Sextet, c: char)
    ensures Value(a, Char(a, x)) == Some(x)
    ensures Value(a, c) == Some(x) ==> c == Char(a, x)
    ensures Char(a, x) != '='
  {
  }

  lemma ValuesOfText(a: Alphabet, s: seq<Sextet>)
    ensures IsText(a, Text(a, s)) && Values(a, Text(a, s)) == s
  {
    forall i | 0 <= i < |s|
      ensures Value(a, Text(a, s)[i]) == Some(s[i])
    {
      CharIsInverse(a, s[i], ' ');
    }
  }

  lemma TextOfValues(a: Alphabet, t: string)
    requires IsText(a, t)
    ensures Text(a, Values(a, t)) == t
  {
    var s := Values(a, t);
    forall i | 0 <= i < |t|
      ensures Text(a, s)[i] == t[i]
    {
      CharIsInverse(a, s[i], t[i]);
    }
  }

  // ---- The codec ----

  /** The standard form fills the last group of four characters up. */
  function Padding(a: Alphabet, n: nat): string {
    if a.UrlSafe? || n % 4 == 0 then "" else if n % 4 == 3 then "=" else "=="
  }

  function Encode(a: Alphabet, data: seq<byte>): string {
    var s := Split(data);
    Text(a, s) + Padding(a, |s|)
  }

  function Unpadded(a: Alphabet, t: string): Option<string> {
    var n := |t|;
    if a.UrlSafe? then Some(t)
    else if n % 4 != 0 then None
    else if n > 0 && t[n - 2] == '=' && t[n - 1] == '=' then Some(t[..n - 2])
    else if n > 0 && t[n - 1] == '=' then Some(t[..n - 1])
    else Some(t)
  }

  function Decode(a: Alphabet, t: string): Option<seq<byte>> {
    var body := Unpadded(a, t);
    if body.None? || !IsText(a, body.value) then None else Join(Values(a, body.value))
  }

  lemma UnpaddedText(a: Alphabet, t: string)
    requires IsText(a, t) && |t| % 4 != 1
    ensures Unpadded(a, t + Padding(a, |t|)) == Some(t)
  {
    var p := t + Padding(a, |t|);
    assert p[..|t|] == t;
    assert |t| % 4 == 0 || a.UrlSafe? ==> p == t;
    if t != [] {
      assert p[|t| - 1] == t[|t| - 1] != '=';
    }
  }

  lemma PaddedBody(a: Alphabet, t: string)
    requires Unpadded(a, t).Some? && |Unpadded(a, t).value| % 4 != 1 && IsText(a, Unpadded(a, t).value)
    ensures Unpadded(a, t).value + Padding(a, |Unpadded(a, t).value|) == t
  {
    var body, n := Unpadded(a, t).value, |t|;
    if a.Standard? && |body| == n - 2 {
      assert t == t[..n - 2] + [t[n - 2], t[n - 1]];
    } else if a.Standard? && |body| == n - 1 {
      assert t == t[..n - 1] + [t[n - 1]];
    }
  }

  /** Decoding undoes encoding, for every byte string and both alphabets. */
  lemma DecodeEncode(a: Alphabet, data: seq<byte>)
    ensures Decode(a, Encode(a, data)) == Some(data)
  {
    var s := Split(data);
    ValuesOfText(a, s);
    SplitRemainder(data);
    UnpaddedText(a, Text(a, s));
    JoinSplit(data);
  }

  /** Only encodings are accepted, so no two strings decode to the same bytes. */
  lemma EncodeDecode(a: Alphabet, t: string)
    requires Decode(a, t).Some?
    ensures Encode(a, Decode(a, t).value) == t
  {
    var body := Unpadded(a, t).value;
    var s := Values(a, body);
    SplitJoin(s);
    TextOfValues(a, body);
    PaddedBody(a, t);
  }

  predicate IsEncodedChar(a: Alphabet, c: char) {
    Value(a, c).Some? || (a.Standard? && c == '=')
  }

  /** Encoded text consists of the alphabet and, in the standard form, padding. */
  lemma EncodedChars(a: Alphabet, data: seq<byte>)
    ensures forall i :: 0 <= i < |Encode(a, data)| ==> IsEncodedChar(a, Encode(a, data)[i])
  {
    var s := Split(data);
    ValuesOfText(a, s);
    var t := Encode(a, data);
    forall i | 0 <= i < |t|
      ensures IsEncodedChar(a, t[i])
    {
      assert i < |s| ==> t[i] == Text(a, s)[i];
    }
  }

  lemma PaddingAfterGroups(a: Alphabet, m: nat, n: nat)
    requires m % 4 == 0
    ensures Padding(a, m) == "" && Padding(a, m + n) == Padding(a, n)
  {
    assert (m + n) % 4 == n % 4;
  }

  lemma TextConcat(a: Alphabet, s: seq<Sextet>, t: seq<Sextet>)
    ensures Text(a, s + t) == Text(a, s) + Text(a, t)
  {
  }

  /** Whole groups need no padding, and what follows them is encoded on its own. */
  lemma EncodeConcat(a: Alphabet, d: seq<byte>, e: seq<byte>)
    requires |d| % 3 == 0
    ensures Encode(a, d) + Encode(a, e) == Encode(a, d + e)
  {
    var s, t := Split(d), Split(e);
    SplitRemainder(d);
    SplitConcat(d, e);
    TextConcat(a, s, t);
    PaddingAfterGroups(a, |s|, |t|);
    ConcatThree(Text(a, s), Text(a, t), Padding(a, |t|));
  }

  lemma ConcatThree(x: string, y: string, z: string)
    ensures x + "" + (y + z) == x + y + z
  {
  }

  /** Encodings can be joined when the first carries no padding ... */
  lemma DecodeConcat(a: Alphabet, d: seq<byte>, e: seq<byte>)
    requires |d| % 3 == 0
    ensures Decode(a, Encode(a, d) + Encode(a, e)) == Some(d + e)
  {
    EncodeConcat(a, d, e);
    DecodeEncode(a, d + e);
  }

  lemma EndsInPadding(d: seq<byte>)
    requires |d| % 3 != 0
    ensures var s := Encode(Standard, d); s != "" && s[|s| - 1] == '='
  {
    SplitRemainder(d);
  }

  lemma PaddingOnlyAtEnd(s: string, k: nat)
    requires k + 2 < |s| && s[k] == '='
    ensures Decode(Standard, s) == None
  {
    var body := Unpadded(Standard, s);
    if body.Some? {
      assert k < |body.value| && body.value[k] == '=';
    }
  }

  /** ... and else not. */
  lemma PaddingInside(d: seq<byte>, t: string)
    requires |d| % 3 != 0 && |t| >= 2
    ensures Decode(Standard, Encode(Standard, d) + t) == None
  {
    EndsInPadding(d);
    PaddingOnlyAtEnd(Encode(Standard, d) + t, |Encode(Standard, d)| - 1);
  }

  /** A text of at least one group. */
  lemma EncodeIsLong(d: seq<byte>)
    requires d != []
    ensures |Encode(Standard, d)| >= 2
  {
    SplitSizes(d);
  }

  // ---- The tables of RFC 4648 ----

  const UPPER_CASE: string := "ABCDEFGHIJKLMNOPQRSTUVWXYZ"
  const LOWER_CASE: string := "abcdefghijklmnopqrstuvwxyz"
  const DIGITS: string := "0123456789"

  lemma UpperCase(x: nat)
    requires x < 26
    ensures UPPER_CASE[x] == ('A' as int + x) as char
  {
  }

  lemma LowerCase(x: nat)
    requires x < 26
    ensures LOWER_CASE[x] == ('a' as int + x) as char
  {
  }

  lemma Digits(x: nat)
    requires x < 10
    ensures DIGITS[x] == ('0' as int + x) as char
  {
  }

  /** The 64 characters, in order. */
  function Characters(a: Alphabet): string {
    UPPER_CASE + LOWER_CASE + DIGITS + if a.Standard? then "+/" else "-_"
  }

  lemma Alphabets(a: Alphabet, x: Sextet)
    ensures |Characters(a)| == 64 && Char(a, x) == Characters(a)[x]
  {
    if x < 26 {
      UpperCase(x);
    } else if x < 52 {
      LowerCase(x - 26);
    } else if x < 62 {
      Digits(x - 52);
    }
  }

  lemma PaddingIs(n: nat)
    ensures Padding(UrlSafe, n) == ""
    ensures n % 4 == 0 ==> Padding(Standard, n) == ""
    ensures n % 4 == 2 ==> Padding(Standard, n) == "=="
    ensures n % 4 == 3 ==> Padding(Standard, n) == "="
  {
  }

  function Number(w: int, x: int, y: int, z: int): int { w * 262144 + x * 4096 + y * 64 + z }

  /** Three bytes and four sextets, each as a number of 24 bits; a short end is filled with zero bits. */
  lemma GroupIsNumber(p: byte, q: byte, r: byte)
    ensures var s := Group([p, q, r]); Number(s[0], s[1], s[2], s[3]) == p * 65536 + q * 256 + r
    ensures var s := Split([p]); |s| == 2 && Number(s[0], s[1], 0, 0) == p * 65536
    ensures var s := Split([p, q]); |s| == 3 && Number(s[0], s[1], s[2], 0) == p * 65536 + q * 256
  {
    assert Split([p]) == [p / 4, p % 4 * 16];
    assert Split([p, q]) == [p / 4, p % 4 * 16 + q / 16, q % 16 * 4];
  }

  /** The groups follow one another: the `k`-th four sextets are the `k`-th three bytes. */
  lemma {:induction false} GroupsFollow(data: seq<byte>, k: nat)
    requires 3 * k + 3 <= |data|
    ensures 4 * k + 4 <= |Split(data)|
    ensures Split(data)[4 * k..4 * k + 4] == Group(data[3 * k..])
    ensures Split(data)[4 * k + 4..] == Split(data[3 * k + 3..])
  {
    var s := Split(data);
    assert s == Group(data) + Split(data[3..]);
    if k == 0 {
      assert data[0..] == data && s[0..4] == Group(data) && s[4..] == Split(data[3..]);
    } else {
      GroupsFollow(data[3..], k - 1);
      assert s[4..] == Split(data[3..]);
      assert s[4 * k..4 * k + 4] == s[4..][4 * (k - 1)..4 * (k - 1) + 4];
      assert s[4 * k + 4..] == s[4..][4 * (k - 1) + 4..];
      assert data[3 * k..] == data[3..][3 * (k - 1)..];
      assert data[3 * k + 3..] == data[3..][3 * (k - 1) + 3..];
    }
  }
}
