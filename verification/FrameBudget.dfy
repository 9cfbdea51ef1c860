/**
 What fits a frame: the derived limits of src/core/config.js and src/files/chunker.js
 against the text that is really sent, spelled out as JSON: base64 (section 4 of RFC
 4648), the AES-GCM tag, the initialisation vector and every routing field.
 */
module FrameBudget {

  import Crc32

  type Byte = Crc32.Byte

  const GCM_TAG_BYTES: nat := 16
  const IV_BYTES: nat := 12
  const ENVELOPE_BYTES: nat := 512
  const MAX_ID_CHARS: nat := 64

  /** `floor((F - 512) / (4/3) - 16)`. */
  function ClipMaxBytes(cap: nat): int {
    (cap - ENVELOPE_BYTES) * 3 / 4 - GCM_TAG_BYTES
  }

  /** `max(3, floor((F - 512) / ((4/3) * (4/3)) / 3) * 3)`. */
  function RelayChunkBytes(cap: nat): nat {
    var fit := (cap - ENVELOPE_BYTES) * 9 / 48 * 3;
    if fit > 3 then fit else 3
  }

  // ------------------------------------------------------------------
  // Base64.
  // ------------------------------------------------------------------

  type Sextet = x: int | 0 <= x < 64

  function Letter(x: Sextet): char {
    if x < 26 then 'A' + x as char
    else if x < 52 then 'a' + (x - 26) as char
    else if x < 62 then '0' + (x - 52) as char
    else if x == 62 then '+' else '/'
  }

  function ValueOf(c: char): Sextet {
    if 'A' <= c <= 'Z' then (c - 'A') as int
    else if 'a' <= c <= 'z' then (c - 'a') as int + 26
    else if '0' <= c <= '9' then (c - '0') as int + 52
    else if c == '+' then 62 else 63
  }

  function Base64(bytes: seq<Byte>): string {
    if bytes == [] then ""
    else if |bytes| == 1 then
      [Letter(bytes[0] / 4), Letter(bytes[0] % 4 * 16), '=', '=']
    else if |bytes| == 2 then
      [Letter(bytes[0] / 4), Letter(bytes[0] % 4 * 16 + bytes[1] / 16), Letter(bytes[1] % 16 * 4), '=']
    else
      [Letter(bytes[0] / 4), Letter(bytes[0] % 4 * 16 + bytes[1] / 16),
       Letter(bytes[1] % 16 * 4 + bytes[2] / 64), Letter(bytes[2] % 64)] + Base64(bytes[3..])
  }

  function Unbase64(text: string): seq<Byte> {
    if |text| < 4 then []
    else
      var a, b := ValueOf(text[0]), ValueOf(text[1]);
      var first := a * 4 + b / 16;
      if text[2] == '=' then [first]
      else
        var c := ValueOf(text[2]);
        var second := b % 16 * 16 + c / 4;
        if text[3] == '=' then [first, second]
        else [first, second, c % 4 * 64 + ValueOf(text[3])] + Unbase64(text[4..])
  }

  lemma LettersBack(x: Sextet)
    ensures ValueOf(Letter(x)) == x && Letter(x) != '='
  {
  }

  /** Four letters for every three bytes, the last three made up with padding. */
  lemma {:induction false} Base64Length(bytes: seq<Byte>)
    ensures |Base64(bytes)| == (|bytes| + 2) / 3 * 4
  {
    hide Letter;
    if |bytes| > 2 { Base64Length(bytes[3..]); }
  }

  /** Three bytes are four sextets, and back. */
  lemma ThreeBack(a: Byte, b: Byte, c: Byte)
    ensures var s0, s1, s2, s3 := a / 4, a % 4 * 16 + b / 16, b % 16 * 4 + c / 64, c % 64;
            && s0 < 64 && s1 < 64 && s2 < 64
            && s0 * 4 + s1 / 16 == a && s1 % 16 * 16 + s2 / 4 == b && s2 % 4 * 64 + s3 == c
  {
  }

  lemma FirstGroup(bytes: seq<Byte>)
    requires |bytes| > 2
    ensures var text := Base64(bytes);
            && |text| >= 4 && text[4..] == Base64(bytes[3..]) && text[2] != '=' && text[3] != '='
            && ValueOf(text[0]) == bytes[0] / 4 && ValueOf(text[1]) == bytes[0] % 4 * 16 + bytes[1] / 16
            && ValueOf(text[2]) == bytes[1] % 16 * 4 + bytes[2] / 64 && ValueOf(text[3]) == bytes[2] % 64
  {
    hide Letter, ValueOf;
    LettersBack(bytes[0] / 4);
    LettersBack(bytes[0] % 4 * 16 + bytes[1] / 16);
    LettersBack(bytes[1] % 16 * 4 + bytes[2] / 64);
    LettersBack(bytes[2] % 64);
  }

  lemma NoneBack()
    ensures Unbase64(Base64([])) == []
  {
  }

  lemma OneBack(a: Byte)
    ensures Unbase64(Base64([a])) == [a]
  {
    hide Letter, ValueOf;
    LettersBack(a / 4);
    LettersBack(a % 4 * 16);
    ThreeBack(a, 0, 0);
    assert Base64([a]) == [Letter(a / 4), Letter(a % 4 * 16), '=', '='];
  }

  lemma TwoBack(a: Byte, b: Byte)
    ensures Unbase64(Base64([a, b])) == [a, b]
  {
    hide Letter, ValueOf;
    LettersBack(a / 4);
    LettersBack(a % 4 * 16 + b / 16);
    LettersBack(b % 16 * 4);
    ThreeBack(a, b, 0);
    assert Base64([a, b]) == [Letter(a / 4), Letter(a % 4 * 16 + b / 16), Letter(b % 16 * 4), '='];
  }

  lemma {:induction false} Base64RoundTrip(bytes: seq<Byte>)
    ensures Unbase64(Base64(bytes)) == bytes
  {
    hide Base64, ValueOf;
    if bytes == [] {
      NoneBack();
    } else if |bytes| == 1 {
      OneBack(bytes[0]);
      assert bytes == [bytes[0]];
    } else if |bytes| == 2 {
      TwoBack(bytes[0], bytes[1]);
      assert bytes == [bytes[0], bytes[1]];
    } else {
      FirstGroup(bytes);
      ThreeBack(bytes[0], bytes[1], bytes[2]);
      Base64RoundTrip(bytes[3..]);
      assert bytes == [bytes[0], bytes[1], bytes[2]] + bytes[3..];
    }
  }

  // ------------------------------------------------------------------
  // Frames.
  // ------------------------------------------------------------------

  function Digits(n: nat): string {
    if n < 10 then [DigitChar(n)] else Digits(n / 10) + [DigitChar(n % 10)]
  }

  function DigitChar(d: nat): char
    requires d < 10
  {
    '0' + d as char
  }

  function Power10(d: nat): nat {
    if d == 0 then 1 else 10 * Power10(d - 1)
  }

  lemma {:induction false} DigitsLength(n: nat, d: nat)
    requires d > 0 && n < Power10(d)
    ensures |Digits(n)| <= d
    decreases d
  {
    if n >= 10 {
      assert Power10(1) == 10 * Power10(0);
      DigitsLength(n / 10, d - 1);
    }
  }

  /** An id goes into JSON as it is: printable ASCII, nothing to escape. */
  predicate Plain(id: string) {
    && |id| <= MAX_ID_CHARS
    && forall i :: 0 <= i < |id| ==> ' ' <= id[i] <= '~' && id[i] != '"' && id[i] != '\\'
  }

  function Text(name: string, value: string): string {
    "\"" + name + "\":\"" + value + "\""
  }

  function Number(name: string, value: nat): string {
    "\"" + name + "\":" + Digits(value)
  }

  /** A clip on the wire; the client adds its clock under `ts`, the relay its count under `seq`. */
  function ClipFrame(payload: seq<Byte>, iv: seq<Byte>, originId: string, stamp: string, value: nat): string {
    "{" + Text("t", "clip") + "," + Text("payload", Base64(payload)) + "," + Text("iv", Base64(iv)) + ","
    + Text("originId", originId) + "," + Number(stamp, value) + "}"
  }

  datatype Routing = Routing(id: string, to: string, originId: string, from: string, num: nat, total: nat, crc: nat)

  /** What is sealed of a chunk: its bytes, in base64, in an object of their own. */
  function ChunkSecret(chunk: seq<Byte>): string {
    "{" + Text("b64", Base64(chunk)) + "}"
  }

  /** A chunk on the wire, with the sender's id stamped by the relay. */
  function ChunkFrame(r: Routing, payload: seq<Byte>, iv: seq<Byte>): string {
    "{" + Text("t", "file-chunk") + "," + Text("id", r.id) + "," + Text("to", r.to) + "," + Text("originId", r.originId) + ","
    + Number("seq", r.num) + "," + Number("total", r.total) + "," + Number("crc", r.crc) + "," + Text("payload", Base64(payload)) + ","
    + Text("iv", Base64(iv)) + "," + Text("from", r.from) + "}"
  }

  /** Ten digits each: a CRC has as many, and no file has more chunks. */
  predicate Routable(r: Routing) {
    && Plain(r.id) && Plain(r.to) && Plain(r.originId) && Plain(r.from)
    && r.num < Power10(10) && r.total < Power10(10) && r.crc < Power10(10)
  }

  /** Sealing keeps the length and adds a tag. */
  predicate Seals(payload: seq<Byte>, plain: nat) {
    |payload| == plain + GCM_TAG_BYTES
  }

  // ------------------------------------------------------------------
  // They fit.
  // ------------------------------------------------------------------

  lemma ClipLength(payload: seq<Byte>, iv: seq<Byte>, originId: string, stamp: string, value: nat)
    requires Plain(originId) && |iv| == IV_BYTES && |stamp| <= 3 && value < Power10(20)
    ensures |ClipFrame(payload, iv, originId, stamp, value)| <= |Base64(payload)| + 160
  {
    hide Base64, Digits;
    Base64Length(iv);
    DigitsLength(value, 20);
  }

  /** Every clip within the derived limit fits the frame it was derived from, whoever stamped it. */
  lemma ClipFits(cap: nat, text: nat, payload: seq<Byte>, iv: seq<Byte>, originId: string, stamp: string, value: nat)
    requires cap >= ENVELOPE_BYTES && text <= ClipMaxBytes(cap) && Seals(payload, text)
    requires Plain(originId) && |iv| == IV_BYTES && |stamp| <= 3 && value < Power10(20)
    ensures |ClipFrame(payload, iv, originId, stamp, value)| <= cap
  {
    hide ClipFrame, Base64;
    ClipLength(payload, iv, originId, stamp, value);
    Base64Length(payload);
  }

  lemma ChunkLength(r: Routing, payload: seq<Byte>, iv: seq<Byte>)
    requires Routable(r) && |iv| == IV_BYTES
    ensures |ChunkFrame(r, payload, iv)| <= |Base64(payload)| + 420
  {
    hide Base64, Digits, Power10;
    Base64Length(iv);
    DigitsLength(r.num, 10);
    DigitsLength(r.total, 10);
    DigitsLength(r.crc, 10);
  }

  lemma SecretLength(chunk: seq<Byte>)
    ensures |ChunkSecret(chunk)| == (|chunk| + 2) / 3 * 4 + 10
  {
    hide Base64;
    Base64Length(chunk);
  }

  /** Every chunk of the derived size fits, encoded twice and sealed, with every id as long as it may be. */
  lemma ChunkFits(cap: nat, chunk: seq<Byte>, r: Routing, payload: seq<Byte>, iv: seq<Byte>)
    requires cap >= ENVELOPE_BYTES && |chunk| <= RelayChunkBytes(cap) && Seals(payload, |ChunkSecret(chunk)|)
    requires Routable(r) && |iv| == IV_BYTES
    ensures |ChunkFrame(r, payload, iv)| <= cap
  {
    hide ChunkFrame, ChunkSecret, Base64;
    ChunkLength(r, payload, iv);
    SecretLength(chunk);
    Base64Length(payload);
  }

  /** Chunks of the full data-channel size would not fit, which is why the relay path has its own. */
  lemma FullChunkDoesNotFit(chunk: seq<Byte>, r: Routing, payload: seq<Byte>, iv: seq<Byte>)
    requires |chunk| == 32 * 1024 && Seals(payload, |ChunkSecret(chunk)|)
    ensures |ChunkFrame(r, payload, iv)| > 32 * 1024
  {
    hide ChunkSecret, Base64, Digits;
    SecretLength(chunk);
    Base64Length(payload);
  }
}
