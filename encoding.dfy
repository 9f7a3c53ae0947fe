/**
 * The binary-to-text helpers of services/encoding.ts: `bufferToBase64` writes bytes as
 * unpadded base64url (section 5 of RFC 4648, padding omitted as section 3.2 permits) by
 * running the browser's `btoa` and rewriting its output; `base64ToBuffer` undoes the
 * rewriting, runs `atob` and copies the decoded characters into a fresh byte array.
 */
module Encoding {
  import opened Wrappers

  type byte = x: int | 0 <= x < 256
  type sextet = x: int | 0 <= x < 64

  // ---------------------------------------------------------------------------
  // Alphabets (sections 4 and 5 of RFC 4648)
  // ---------------------------------------------------------------------------

  /** The character that stands for `v` in the standard alphabet. */
  function StdChar(v: sextet): char {
    if v < 26 then (65 + v) as char
    else if v < 52 then (97 + v - 26) as char
    else if v < 62 then (48 + v - 52) as char
    else if v == 62 then '+'
    else '/'
  }

  /** The character that stands for `v` in the URL and filename safe alphabet. */
  function UrlChar(v: sextet): char {
    if v == 62 then '-' else if v == 63 then '_' else StdChar(v)
  }

  /** The value of a character of the standard alphabet; None for any other character. */
  function StdValue(c: char): Option<sextet> {
    if 'A' <= c <= 'Z' then Some(c as int - 65)
    else if 'a' <= c <= 'z' then Some(c as int - 97 + 26)
    else if '0' <= c <= '9' then Some(c as int - 48 + 52)
    else if c == '+' then Some(62)
    else if c == '/' then Some(63)
    else None
  }

  predicate IsUrlSafeChar(c: char) {
    'A' <= c <= 'Z' || 'a' <= c <= 'z' || '0' <= c <= '9' || c == '-' || c == '_'
  }

  // ---------------------------------------------------------------------------
  // Bits: three bytes make four sextets
  // ---------------------------------------------------------------------------

  /** The sextets of one group of one to three bytes; the last sextet is filled with zero bits. */
  function Group(b: seq<byte>): (r: seq<sextet>)
    requires 1 <= |b| <= 3
    ensures |r| == |b| + 1
  {
    var b1 := if |b| > 1 then b[1] else 0;
    var b2 := if |b| > 2 then b[2] else 0;
    var all: seq<sextet> := [b[0] / 4, (b[0] % 4) * 16 + b1 / 16, (b1 % 16) * 4 + b2 / 64, b2 % 64];
    all[..|b| + 1]
  }

  /** The bytes of one group of two to four sextets; leftover bits of a short group are dropped. */
  function Ungroup(v: seq<sextet>): (r: seq<byte>)
    requires 2 <= |v| <= 4
    ensures |r| == |v| - 1
  {
    var v2: int := if |v| > 2 then v[2] else 0;
    var v3: int := if |v| > 3 then v[3] else 0;
    var v0, v1 := v[0] as int, v[1] as int;
    var all: seq<byte> := [v0 * 4 + v1 / 16, (v1 % 16) * 16 + v2 / 4, (v2 % 4) * 64 + v3];
    all[..|v| - 1]
  }

  /** The sextets of a whole byte string, with no padding: ceil(4n/3) of them. */
  function SextetsOf(b: seq<byte>): (r: seq<sextet>)
    ensures |r| == (4 * |b| + 2) / 3
    decreases |b|
  {
    if |b| == 0 then []
    else
      var k := if |b| < 3 then |b| else 3;
      Group(b[..k]) + SextetsOf(b[k..])
  }

  /** The bytes a run of sextets encodes, four sextets at a time. */
  function DecodeSextets(v: seq<sextet>): (r: seq<byte>)
    requires |v| % 4 != 1
    decreases |v|
  {
    if |v| == 0 then []
    else if |v| < 4 then Ungroup(v)
    else Ungroup(v[..4]) + DecodeSextets(v[4..])
  }

  lemma UngroupGroup(b: seq<byte>)
    requires 1 <= |b| <= 3
    ensures Ungroup(Group(b)) == b
  {
    var g := Group(b);
    var g0, g1 := g[0] as int, g[1] as int;
    assert g0 * 4 + g1 / 16 == b[0];
    if |b| > 1 {
      var g2 := g[2] as int;
      assert (g1 % 16) * 16 + g2 / 4 == b[1];
    }
    if |b| > 2 {
      var g2, g3 := g[2] as int, g[3] as int;
      assert (g2 % 4) * 64 + g3 == b[2];
    }
  }

  lemma SextetsOfSplit(b: seq<byte>)
    requires |b| > 3
    ensures SextetsOf(b) == Group(b[..3]) + SextetsOf(b[3..])
  {
  }

  lemma DecodeSextetsSplit(g: seq<sextet>, rest: seq<sextet>)
    requires |g| == 4 && |rest| % 4 != 1
    ensures |g + rest| % 4 != 1
    ensures DecodeSextets(g + rest) == Ungroup(g) + DecodeSextets(rest)
  {
    var v := g + rest;
    assert v[..4] == g && v[4..] == rest;
  }

  lemma {:induction false} DecodeSextetsOf(b: seq<byte>)
    ensures |SextetsOf(b)| % 4 != 1
    ensures DecodeSextets(SextetsOf(b)) == b
    decreases |b|
  {
    if 0 < |b| <= 3 {
      assert b[..|b|] == b && b[|b|..] == [];
      assert SextetsOf(b) == Group(b);
      UngroupGroup(b);
    } else if |b| > 3 {
      SextetsOfSplit(b);
      DecodeSextetsOf(b[3..]);
      UngroupGroup(b[..3]);
      DecodeSextetsSplit(Group(b[..3]), SextetsOf(b[3..]));
      assert b == b[..3] + b[3..];
    }
  }

  // ---------------------------------------------------------------------------
  // Character rewriting used by both directions
  // ---------------------------------------------------------------------------

  /** `s.replace(/a/g, b)` for a one-character pattern. */
  function ReplaceChar(s: string, a: char, b: char): (r: string)
    ensures |r| == |s|
    ensures a != b ==> a !in r
  {
    seq(|s|, i requires 0 <= i < |s| => if s[i] == a then b else s[i])
  }

  /** `s.replace(/a/g, '')` for a one-character pattern. */
  function RemoveChar(s: string, a: char): (r: string)
    ensures a !in r
    ensures forall c :: c in r ==> c in s
  {
    if s == [] then [] else (if s[0] == a then [] else [s[0]]) + RemoveChar(s[1..], a)
  }

  lemma {:induction false} RemoveCharAbsent(s: string, a: char)
    requires a !in s
    ensures RemoveChar(s, a) == s
  {
    if s != [] {
      RemoveCharAbsent(s[1..], a);
    }
  }

  // ---------------------------------------------------------------------------
  // btoa and the encoder
  // ---------------------------------------------------------------------------

  /** `String.fromCharCode(...bytes)`: one character per byte, with that byte as its code. */
  function BinaryString(bytes: seq<byte>): (s: string)
    ensures |s| == |bytes|
  {
    seq(|bytes|, i requires 0 <= i < |bytes| => bytes[i] as char)
  }

  function StdString(v: seq<sextet>): (s: string)
    ensures |s| == |v|
  {
    seq(|v|, i requires 0 <= i < |v| => StdChar(v[i]))
  }

  function UrlString(v: seq<sextet>): (s: string)
    ensures |s| == |v|
  {
    seq(|v|, i requires 0 <= i < |v| => UrlChar(v[i]))
  }

  /** How many '=' standard Base64 appends to the encoding of n bytes. */
  function PadLength(n: nat): nat {
    if n % 3 == 0 then 0 else 3 - n % 3
  }

  /**
   * The browser's `btoa`: a string whose characters all have codes below 256 becomes its
   * padded standard Base64 encoding (section 4 of RFC 4648); any other string is refused
   * (the browser throws InvalidCharacterError).
   */
  function Btoa(s: string): Option<string> {
    if exists i :: 0 <= i < |s| && s[i] as int >= 256 then None
    else
      var codes := seq(|s|, i requires 0 <= i < |s| => s[i] as int as byte);
      Some(StdString(SextetsOf(codes)) + seq(PadLength(|s|), _ => '='))
  }

  /** `bufferToBase64`: `btoa` of the bytes, '+' and '/' rewritten, '=' removed. */
  function BufferToBase64(bytes: seq<byte>): (r: string)
    ensures r == UrlString(SextetsOf(bytes))
  {
    var bin := BinaryString(bytes);
    BtoaOfBinaryString(bytes);
    var std := Btoa(bin).value;
    var r := RemoveChar(ReplaceChar(ReplaceChar(std, '+', '-'), '/', '_'), '=');
    RewriteGivesUrl(SextetsOf(bytes), PadLength(|bytes|));
    r
  }

  lemma BtoaOfBinaryString(bytes: seq<byte>)
    ensures Btoa(BinaryString(bytes)) == Some(StdString(SextetsOf(bytes)) + seq(PadLength(|bytes|), _ => '='))
  {
    var s := BinaryString(bytes);
    assert forall i :: 0 <= i < |s| ==> s[i] as int == bytes[i] as int < 256;
    var codes := seq(|s|, i requires 0 <= i < |s| => s[i] as int as byte);
    assert forall i :: 0 <= i < |codes| ==> codes[i] == bytes[i];
    assert codes == bytes;
  }

  lemma RewriteGivesUrl(v: seq<sextet>, pad: nat)
    ensures RemoveChar(ReplaceChar(ReplaceChar(StdString(v) + seq(pad, _ => '='), '+', '-'), '/', '_'), '=')
         == UrlString(v)
  {
    var padding := seq(pad, _ => '=');
    var s := ReplaceChar(ReplaceChar(StdString(v) + padding, '+', '-'), '/', '_');
    assert s == UrlString(v) + padding;
    RemoveCharAppend(UrlString(v), padding, '=');
    RemoveCharAbsent(UrlString(v), '=');
    RemoveCharAll(pad, '=');
  }

  lemma {:induction false} RemoveCharAppend(s: string, t: string, a: char)
    ensures RemoveChar(s + t, a) == RemoveChar(s, a) + RemoveChar(t, a)
  {
    if s != [] {
      assert (s + t)[1..] == s[1..] + t;
      RemoveCharAppend(s[1..], t, a);
    } else {
      assert s + t == t;
    }
  }

  lemma {:induction false} RemoveCharAll(n: nat, a: char)
    ensures RemoveChar(seq(n, _ => a), a) == []
  {
    if n > 0 {
      assert seq(n, _ => a)[1..] == seq(n - 1, _ => a);
      RemoveCharAll(n - 1, a);
    }
  }

  // ---------------------------------------------------------------------------
  // atob and the decoder
  // ---------------------------------------------------------------------------

  /** The characters the forgiving Base64 decoder skips. */
  predicate IsAsciiWhitespace(c: char) {
    c == '\t' || c == '\n' || c == '\U{000C}' || c == '\r' || c == ' '
  }

  function RemoveWhitespace(s: string): (r: string)
    ensures |r| <= |s|
  {
    if s == [] then [] else (if IsAsciiWhitespace(s[0]) then [] else [s[0]]) + RemoveWhitespace(s[1..])
  }

  lemma {:induction false} RemoveWhitespaceAbsent(s: string)
    requires forall i :: 0 <= i < |s| ==> !IsAsciiWhitespace(s[i])
    ensures RemoveWhitespace(s) == s
  {
    if s != [] {
      RemoveWhitespaceAbsent(s[1..]);
    }
  }

  /** Drops one or two trailing '=' from a string whose length is a multiple of four. */
  function StripPadding(t: string): string {
    if |t| % 4 == 0 && |t| >= 2 && t[|t| - 2] == '=' && t[|t| - 1] == '=' then t[..|t| - 2]
    else if |t| % 4 == 0 && |t| >= 1 && t[|t| - 1] == '=' then t[..|t| - 1]
    else t
  }

  /** The sextet values of a string made only of standard-alphabet characters. */
  function Values(t: string): Option<seq<sextet>> {
    if forall i :: 0 <= i < |t| ==> StdValue(t[i]).Some? then
      Some(seq(|t|, i requires 0 <= i < |t| => StdValue(t[i]).value))
    else None
  }

  /**
   * The browser's `atob` (the forgiving Base64 decoder): whitespace is skipped, one or two
   * final '=' are allowed when the length is a multiple of four, a length of 4k+1 or any
   * character outside the standard alphabet is refused (InvalidCharacterError), and the
   * rest decodes to a string with one character per byte.
   */
  function Atob(s: string): Option<string> {
    var t := StripPadding(RemoveWhitespace(s));
    if |t| % 4 == 1 then None
    else match Values(t)
      case None => None
      case Some(v) => Some(BinaryString(DecodeSextets(v)))
  }

  /** What `base64ToBuffer` returns: None where `atob` throws. Each byte is a character code
    * stored into a Uint8Array, so it is taken modulo 256. */
  function DecodeUrl(base64: string): Option<seq<byte>> {
    match Atob(ReplaceChar(ReplaceChar(base64, '-', '+'), '_', '/'))
    case None => None
    case Some(bin) => Some(seq(|bin|, i requires 0 <= i < |bin| => bin[i] as int % 256))
  }

  /** `base64ToBuffer`: the loop that copies `atob`'s characters into a new Uint8Array. */
  method Base64ToBuffer(base64: string) returns (r: Option<seq<byte>>)
    ensures r == DecodeUrl(base64)
  {
    var decoded := Atob(ReplaceChar(ReplaceChar(base64, '-', '+'), '_', '/'));
    if decoded.None? {
      return None;
    }
    var binaryString := decoded.value;
    var len := |binaryString|;
    var bytes := new byte[len];
    var i := 0;
    while i < len
      invariant 0 <= i <= len
      invariant forall j :: 0 <= j < i ==> bytes[j] == binaryString[j] as int % 256
    {
      bytes[i] := binaryString[i] as int % 256;
      i := i + 1;
    }
    assert bytes[..] == seq(|binaryString|, j requires 0 <= j < |binaryString| => binaryString[j] as int % 256);
    r := Some(bytes[..]);
  }

  // ---------------------------------------------------------------------------
  // Properties
  // ---------------------------------------------------------------------------

  /** The output uses only the URL-safe alphabet: no '+', '/' or '=', and is ceil(4n/3) long. */
  lemma EncodedIsUrlSafe(bytes: seq<byte>)
    ensures forall c :: c in BufferToBase64(bytes) ==> IsUrlSafeChar(c)
    ensures '+' !in BufferToBase64(bytes) && '/' !in BufferToBase64(bytes) && '=' !in BufferToBase64(bytes)
    ensures |BufferToBase64(bytes)| == (4 * |bytes| + 2) / 3
  {
    var v := SextetsOf(bytes);
    forall c | c in UrlString(v) ensures IsUrlSafeChar(c) {
      var i :| 0 <= i < |v| && UrlString(v)[i] == c;
    }
  }

  /** Decoding what was encoded gives back the original bytes. */
  lemma RoundTrip(bytes: seq<byte>)
    ensures DecodeUrl(BufferToBase64(bytes)) == Some(bytes)
  {
    var v := SextetsOf(bytes);
    assert BufferToBase64(bytes) == UrlString(v);
    UndoRewrite(v);
    DecodeSextetsOf(bytes);
    AtobOfStdString(v);
    CodesOfBinaryString(bytes);
  }

  lemma CodesOfBinaryString(b: seq<byte>)
    ensures var bin := BinaryString(b); seq(|bin|, i requires 0 <= i < |bin| => bin[i] as int % 256) == b
  {
  }

  lemma UndoRewrite(v: seq<sextet>)
    ensures ReplaceChar(ReplaceChar(UrlString(v), '-', '+'), '_', '/') == StdString(v)
  {
  }

  lemma StdCharIsPlain(x: sextet)
    ensures StdChar(x) != '=' && !IsAsciiWhitespace(StdChar(x))
    ensures StdValue(StdChar(x)) == Some(x)
  {
  }

  lemma StdStringValues(v: seq<sextet>)
    ensures Values(StdString(v)) == Some(v)
  {
    var std := StdString(v);
    forall i | 0 <= i < |v| ensures StdValue(std[i]) == Some(v[i]) {
      StdCharIsPlain(v[i]);
    }
    assert seq(|std|, i requires 0 <= i < |std| => StdValue(std[i]).value) == v;
  }

  lemma AtobOfStdString(v: seq<sextet>)
    requires |v| % 4 != 1
    ensures Atob(StdString(v)) == Some(BinaryString(DecodeSextets(v)))
  {
    var std := StdString(v);
    forall i | 0 <= i < |std| ensures std[i] != '=' && !IsAsciiWhitespace(std[i]) {
      StdCharIsPlain(v[i]);
    }
    RemoveWhitespaceAbsent(std);
    assert StripPadding(std) == std;
    StdStringValues(v);
  }
}
