/**
 The TLS ClientHello reader, against an encoder of ClientHello records
 (sections 4.1.2, 4.2 and 5.1 of RFC 8446, section 3 of RFC 6066).
 */
module Sni {

  type Byte = n: int | 0 <= n < 256

  function U16(hi: Byte, lo: Byte): nat {
    hi * 256 + lo
  }

  // ---- what the reader computes -------------------------------------------

  /** Where the extension list starts and ends, when the payload reaches that far. */
  datatype Extent = NoExtensions | Extent(start: nat, end: nat)

  function SkipSession(p: seq<Byte>): int {
    if |p| < 6 || p[0] != 0x16 || p[5] != 0x01 || |p| < 44 then -1 else 44 + p[43] as int
  }

  function SkipCiphers(p: seq<Byte>): int {
    var pos := SkipSession(p);
    if pos < 0 || pos + 2 > |p| then -1 else pos + 2 + U16(p[pos], p[pos + 1])
  }

  function SkipCompression(p: seq<Byte>): int {
    var pos := SkipCiphers(p);
    if pos < 0 || pos + 1 > |p| then -1 else pos + 1 + p[pos] as int
  }

  function Extensions(p: seq<Byte>): (x: Extent)
    ensures x.Extent? ==> x.start <= x.end <= |p|
  {
    var pos := SkipCompression(p);
    if pos < 0 || pos + 2 > |p| then NoExtensions
    else
      var end := pos + 2 + U16(p[pos], p[pos + 1]);
      Extent(pos + 2, if end > |p| then |p| else end)
  }

  function ExtType(p: seq<Byte>, pos: nat): nat
    requires pos + 4 <= |p|
  {
    U16(p[pos], p[pos + 1])
  }

  function ExtLen(p: seq<Byte>, pos: nat): nat
    requires pos + 4 <= |p|
  {
    U16(p[pos + 2], p[pos + 3])
  }

  /** The position of the first complete type-0 extension at or after `pos`, or -1. */
  function Locate(p: seq<Byte>, pos: nat, end: nat): int
    requires end <= |p|
    decreases end - pos
  {
    if pos + 4 > end then -1
    else if ExtType(p, pos) == 0 && pos + 4 + ExtLen(p, pos) <= end then pos
    else Locate(p, pos + 4 + ExtLen(p, pos), end)
  }

  /** The first name of a server-name list, or nothing when the list is too short for it. */
  function FirstName(data: seq<Byte>): seq<Byte> {
    if |data| >= 5 && 5 + U16(data[3], data[4]) <= |data| then data[5..5 + U16(data[3], data[4])] else []
  }

  function ServerNameAt(p: seq<Byte>): int {
    var x := Extensions(p);
    if x.NoExtensions? then -1 else Locate(p, x.start, x.end)
  }

  function ServerName(p: seq<Byte>): seq<Byte> {
    var at := ServerNameAt(p);
    if at < 0 || at + 4 > |p| || at + 4 + ExtLen(p, at) > |p| then []
    else FirstName(p[at + 4..at + 4 + ExtLen(p, at)])
  }

  lemma {:induction false} LocateInside(p: seq<Byte>, pos: nat, end: nat)
    requires end <= |p|
    ensures Locate(p, pos, end) >= 0 ==>
      var at := Locate(p, pos, end);
      pos <= at && at + 4 <= end && ExtType(p, at) == 0 && at + 4 + ExtLen(p, at) <= end
    decreases end - pos
  {
    if pos + 4 <= end && !(ExtType(p, pos) == 0 && pos + 4 + ExtLen(p, pos) <= end) {
      LocateInside(p, pos + 4 + ExtLen(p, pos), end);
    }
  }

  /** The fixed and length-prefixed fields before the extensions; `found` is false on every early return. */
  method SkipHeader(payload: seq<Byte>) returns (found: bool, pos: int, endPos: int)
    ensures found ==> 0 <= pos && 0 <= endPos
    ensures Extensions(payload) == if found then Extent(pos, endPos) else NoExtensions
  {
    hide U16;
    found, pos, endPos := false, 0, 0;
    if |payload| < 6 || payload[0] != 0x16 || payload[5] != 0x01 {
      return;
    }
    pos := 5 + 4;
    if pos + 2 > |payload| {
      return;
    }
    pos := pos + 2;
    pos := pos + 32;
    if pos + 1 > |payload| {
      return;
    }
    pos := pos + 1 + payload[pos];
    if pos + 2 > |payload| {
      return;
    }
    pos := pos + 2 + U16(payload[pos], payload[pos + 1]);
    if pos + 1 > |payload| {
      return;
    }
    pos := pos + 1 + payload[pos];
    if pos + 2 > |payload| {
      return;
    }
    var extLen := U16(payload[pos], payload[pos + 1]);
    pos := pos + 2;
    endPos := pos + extLen;
    if endPos > |payload| {
      endPos := |payload|;
    }
    found := true;
  }

  /**
   The reader of the running program: it advances one position through the
   payload.  That it verifies shows that no index leaves the payload and that
   the skip loop ends, on every byte sequence.
   */
  method ExtractSNI(payload: seq<Byte>) returns (name: seq<Byte>)
    ensures name == ServerName(payload)
  {
    hide U16, Extensions;
    var found, pos, endPos := SkipHeader(payload);
    if !found {
      return [];
    }
    LocateInside(payload, pos, endPos);
    while pos + 4 <= endPos
      invariant 0 <= pos && endPos <= |payload|
      invariant Locate(payload, pos, endPos) == ServerNameAt(payload)
      decreases endPos - pos
    {
      var extType := ExtType(payload, pos);
      var extDataLen := ExtLen(payload, pos);
      pos := pos + 4;
      if extType == 0 && pos + extDataLen <= endPos {
        var sniData := payload[pos..pos + extDataLen];
        if |sniData| >= 5 {
          var nameLen := U16(sniData[3], sniData[4]);
          if 5 + nameLen <= |sniData| {
            return sniData[5..5 + nameLen];
          }
        }
        return [];
      }
      pos := pos + extDataLen;
    }
    return [];
  }

  // ---- what an answer means -----------------------------------------------

  /** `at` is reached from `pos` by skipping whole extensions of other types. */
  predicate Skips(p: seq<Byte>, pos: nat, at: nat, end: nat)
    requires end <= |p|
    decreases end - pos
  {
    pos == at || (pos + 4 <= end && ExtType(p, pos) != 0 && Skips(p, pos + 4 + ExtLen(p, pos), at, end))
  }

  lemma {:induction false} LocateSkips(p: seq<Byte>, pos: nat, end: nat)
    requires end <= |p| && Locate(p, pos, end) >= 0
    ensures Skips(p, pos, Locate(p, pos, end), end)
    decreases end - pos
  {
    if !(ExtType(p, pos) == 0 && pos + 4 + ExtLen(p, pos) <= end) {
      var next := pos + 4 + ExtLen(p, pos);
      LocateSkips(p, next, end);
    }
  }

  lemma FirstNameIsSlice(data: seq<Byte>)
    ensures FirstName(data) != [] ==>
      5 + |FirstName(data)| <= |data| && FirstName(data) == data[5..5 + |FirstName(data)|]
  {
    hide U16;
    if FirstName(data) != [] {
      var n := U16(data[3], data[4]);
      assert |data[5..5 + n]| == n;
    }
  }

  lemma SliceOfSlice(p: seq<Byte>, a: nat, b: nat, i: nat, j: nat)
    requires a <= b <= |p| && i <= j <= b - a
    ensures p[a..b][i..j] == p[a + i..a + j]
  {
    var s, t := p[a..b][i..j], p[a + i..a + j];
    assert |s| == |t|;
    forall k | 0 <= k < |s| ensures s[k] == t[k] {
      assert s[k] == p[a..b][i + k] == p[a + i + k];
    }
  }

  /** A non-empty answer is a contiguous slice, five bytes into the data of the first type-0 extension. */
  lemma {:induction false} AnswerIsSlice(p: seq<Byte>)
    requires ServerName(p) != []
    ensures var x, at := Extensions(p), ServerNameAt(p);
      && x.Extent? && x.end <= |p| && x.start <= at && at + 9 <= x.end
      && Skips(p, x.start, at, x.end) && ExtType(p, at) == 0
      && at + 9 + |ServerName(p)| <= at + 4 + ExtLen(p, at) <= x.end
      && ServerName(p) == p[at + 9..at + 9 + |ServerName(p)|]
  {
    hide U16, FirstName, Extensions, Locate;
    var x := Extensions(p);
    LocateInside(p, x.start, x.end);
    LocateSkips(p, x.start, x.end);
    var at := ServerNameAt(p);
    var data, n := p[at + 4..at + 4 + ExtLen(p, at)], |ServerName(p)|;
    FirstNameIsSlice(data);
    SliceOfSlice(p, at + 4, at + 4 + ExtLen(p, at), 5, 5 + n);
  }

  /** A session id of `s` bytes, ciphers of `c` and a compression list of `m` lie where a ClientHello has them. */
  predicate Layout(p: seq<Byte>, s: nat, c: nat, m: nat) {
    && |p| >= 49 + s + c + m && s == p[43] && c == p[44 + s] as int * 256 + p[45 + s] as int && m == p[46 + s + c]
  }

  /** The extension list in the payload: as long as announced, or up to the end of a payload that was cut. */
  predicate ListAt(p: seq<Byte>, start: nat, end: nat) {
    2 <= start <= end <= |p| && var full := start + p[start - 2] as int * 256 + p[start - 1] as int;
    if full <= |p| then end == full else end == |p|
  }

  /**
   What any bytes at all must be to be read: a handshake record (type 0x16) with a
   ClientHello (type 0x01) whose fields reach up to the extension list.  All else
   has no answer.
   */
  lemma HeaderLayout(p: seq<Byte>)
    ensures Extensions(p).Extent? <==>
      |p| >= 6 && p[0] == 0x16 && p[5] == 0x01 && exists s: nat, c: nat, m: nat :: Layout(p, s, c, m)
    ensures var x := Extensions(p);
      x.Extent? ==>
        && (exists s: nat, c: nat, m: nat :: Layout(p, s, c, m) && x.start == 49 + s + c + m)
        && ListAt(p, x.start, x.end)
    ensures |p| < 6 || p[0] != 0x16 || p[5] != 0x01 ==> ServerName(p) == []
  {
    if Extensions(p).Extent? {
      var s, c := p[43], p[44 + p[43]] as int * 256 + p[45 + p[43]] as int;
      assert Layout(p, s, c, p[46 + s + c]);
    }
  }

  lemma {:induction false} SkipsLocate(p: seq<Byte>, pos: nat, at: nat, end: nat)
    requires end <= |p| && Skips(p, pos, at, end) && at + 4 <= end
    requires ExtType(p, at) == 0 && at + 4 + ExtLen(p, at) <= end
    ensures Locate(p, pos, end) == at
    decreases end - pos
  {
    if pos != at {
      SkipsLocate(p, pos + 4 + ExtLen(p, pos), at, end);
    }
  }

  /**
   The converse, for any bytes: the first type-0 extension that is complete
   decides the answer, which is the name whose length stands three bytes into the
   extension's data, or nothing when the data is too short for it.
   */
  lemma {:induction false} FirstExtensionDecides(p: seq<Byte>, at: nat)
    requires Extensions(p).Extent? && at + 4 <= Extensions(p).end
    requires Skips(p, Extensions(p).start, at, Extensions(p).end)
    requires ExtType(p, at) == 0 && at + 4 + ExtLen(p, at) <= Extensions(p).end
    ensures ServerName(p) ==
      if ExtLen(p, at) >= 5 && 5 + (p[at + 7] as int * 256 + p[at + 8] as int) <= ExtLen(p, at)
      then p[at + 9..at + 9 + (p[at + 7] as int * 256 + p[at + 8] as int)] else []
  {
    hide Extensions, Skips, Locate, ExtType;
    var x, data := Extensions(p), p[at + 4..at + 4 + ExtLen(p, at)];
    SkipsLocate(p, x.start, at, x.end);
    assert |data| >= 5 ==> data[3] == p[at + 7] && data[4] == p[at + 8];
    if |data| >= 5 && 5 + U16(data[3], data[4]) <= |data| {
      SliceOfSlice(p, at + 4, at + 4 + ExtLen(p, at), 5, 5 + U16(data[3], data[4]));
    }
  }

  // ---- more bytes, fewer bytes --------------------------------------------

  lemma {:induction false} LocateGrows(p: seq<Byte>, p': seq<Byte>, pos: nat, end: nat, end': nat)
    requires p <= p' && end <= |p| && end <= end' <= |p'| && Locate(p, pos, end) >= 0
    ensures Locate(p', pos, end') == Locate(p, pos, end)
    decreases end - pos
  {
    hide U16;
    assert p'[pos] == p[pos] && p'[pos + 1] == p[pos + 1] && p'[pos + 2] == p[pos + 2] && p'[pos + 3] == p[pos + 3];
    assert ExtType(p', pos) == ExtType(p, pos) && ExtLen(p', pos) == ExtLen(p, pos);
    if ExtType(p, pos) == 0 && pos + 4 + ExtLen(p, pos) <= end {
      assert Locate(p', pos, end') == pos;
    } else {
      var next := pos + 4 + ExtLen(p, pos);
      assert Locate(p, pos, end) == Locate(p, next, end);
      assert ExtType(p, pos) != 0;
      assert Locate(p', pos, end') == Locate(p', next, end');
      LocateGrows(p, p', next, end, end');
    }
  }

  /** A payload that reaches its extensions reaches the same ones after growing. */
  lemma ExtensionsGrow(p: seq<Byte>, p': seq<Byte>)
    requires p <= p' && Extensions(p).Extent?
    ensures var x, x' := Extensions(p), Extensions(p');
      x'.Extent? && x'.start == x.start && x.end == (if x'.end <= |p| then x'.end else |p|) && x'.end <= |p'|
  {
    hide U16;
    var a, b, c := SkipSession(p), SkipCiphers(p), SkipCompression(p);
    assert p'[0] == p[0] && p'[5] == p[5] && p'[43] == p[43];
    assert SkipSession(p') == a;
    assert p'[a] == p[a] && p'[a + 1] == p[a + 1];
    assert SkipCiphers(p') == b;
    assert p'[b] == p[b];
    assert SkipCompression(p') == c;
    assert p'[c] == p[c] && p'[c + 1] == p[c + 1];
  }

  /** Appending bytes to a payload with a non-empty answer never changes the answer. */
  lemma AnswerStable(p: seq<Byte>, p': seq<Byte>)
    requires p <= p' && ServerName(p) != []
    ensures ServerName(p') == ServerName(p)
    ensures ServerNameAt(p') == ServerNameAt(p) && AnswerEnd(p') == AnswerEnd(p) <= |p|
  {
    hide Extensions, FirstName, U16;
    var x := Extensions(p);
    ExtensionsGrow(p, p');
    LocateInside(p, x.start, x.end);
    LocateGrows(p, p', x.start, x.end, Extensions(p').end);
    SameExtension(p, p', ServerNameAt(p));
  }

  lemma SameExtension(p: seq<Byte>, p': seq<Byte>, at: nat)
    requires p <= p' && at + 4 <= |p| && at + 4 + ExtLen(p, at) <= |p|
    ensures ExtLen(p', at) == ExtLen(p, at)
    ensures p'[at + 4..at + 4 + ExtLen(p, at)] == p[at + 4..at + 4 + ExtLen(p, at)]
  {
    hide U16;
    assert p'[at + 2] == p[at + 2] && p'[at + 3] == p[at + 3];
  }

  /** Where the answer's extension ends. */
  function AnswerEnd(p: seq<Byte>): nat
    requires ServerName(p) != []
  {
    ServerNameAt(p) + 4 + ExtLen(p, ServerNameAt(p))
  }

  lemma {:induction false} LocateShrinks(p: seq<Byte>, p': seq<Byte>, pos: nat, end: nat, end': nat)
    requires p' <= p && end <= |p| && end' <= end && end' <= |p'|
    requires Locate(p, pos, end) >= 0
    requires var at := Locate(p, pos, end); at + 4 <= end && at + 4 + ExtLen(p, at) <= end'
    ensures Locate(p', pos, end') == Locate(p, pos, end)
    decreases end - pos
  {
    hide U16;
    LocateInside(p, pos, end);
    assert p'[pos] == p[pos] && p'[pos + 1] == p[pos + 1] && p'[pos + 2] == p[pos + 2] && p'[pos + 3] == p[pos + 3];
    if !(ExtType(p, pos) == 0 && pos + 4 + ExtLen(p, pos) <= end) {
      var next := pos + 4 + ExtLen(p, pos);
      LocateInside(p, next, end);
      LocateShrinks(p, p', next, end, end');
    }
  }

  /** A truncated payload that holds an extension list holds the same one, cut short. */
  lemma ExtensionsCut(p: seq<Byte>, n: nat)
    requires Extensions(p).Extent? && Extensions(p).start <= n <= |p|
    ensures var x, x' := Extensions(p), Extensions(p[..n]);
      x'.Extent? && x'.start == x.start && x'.end == (if x.end <= n then x.end else n) && x.end <= |p|
  {
    hide U16;
    var q := p[..n];
    var a, b, c := SkipSession(p), SkipCiphers(p), SkipCompression(p);
    assert q[0] == p[0] && q[5] == p[5] && q[43] == p[43];
    assert SkipSession(q) == a;
    assert q[a] == p[a] && q[a + 1] == p[a + 1];
    assert SkipCiphers(q) == b;
    assert q[b] == p[b];
    assert SkipCompression(q) == c;
    assert q[c] == p[c] && q[c + 1] == p[c + 1];
  }

  /** A truncated payload gives the same answer when it still holds the whole extension, and none otherwise. */
  lemma AnswerOfPrefix(p: seq<Byte>, n: nat)
    requires n <= |p| && ServerName(p) != []
    ensures ServerName(p[..n]) == if AnswerEnd(p) <= n then ServerName(p) else []
  {
    hide Extensions, FirstName, U16, ExtLen;
    var x, at := Extensions(p), ServerNameAt(p);
    LocateInside(p, x.start, x.end);
    if AnswerEnd(p) <= n {
      ExtensionsCut(p, n);
      LocateShrinks(p, p[..n], x.start, x.end, Extensions(p[..n]).end);
      CutExtension(p, n, at);
    } else if ServerName(p[..n]) != [] {
      AnswerStable(p[..n], p);
    }
  }

  lemma CutExtension(p: seq<Byte>, n: nat, at: nat)
    requires at + 4 <= n <= |p| && at + 4 + ExtLen(p, at) <= n
    ensures ExtLen(p[..n], at) == ExtLen(p, at)
    ensures p[..n][at + 4..at + 4 + ExtLen(p, at)] == p[at + 4..at + 4 + ExtLen(p, at)]
  {
    SameExtension(p[..n], p, at);
  }

  // ---- the encoder ---------------------------------------------------------

  type Num16 = n: int | 0 <= n < 65536

  type Vector16 = s: seq<Byte> | |s| < 65536 witness []

  datatype Extension = Extension(kind: Num16, data: Vector16)

  datatype ClientHello = ClientHello(
    recordVersion: seq<Byte>, version: seq<Byte>, random: seq<Byte>, sessionId: seq<Byte>,
    cipherSuites: seq<Byte>, compression: seq<Byte>, extensions: seq<Extension>)

  function EncodeU16(n: Num16): seq<Byte>
  {
    [n / 256, n % 256]
  }

  function EncodeU24(n: nat): seq<Byte>
    requires n < 16777216
  {
    [n / 65536, n / 256 % 256, n % 256]
  }

  function EncodeExtensions(xs: seq<Extension>): seq<Byte>
  {
    if xs == [] then []
    else EncodeU16(xs[0].kind) + (EncodeU16(|xs[0].data|) + (xs[0].data + EncodeExtensions(xs[1..])))
  }

  /** The vector bounds of section 4.1.2. */
  predicate Sized(ch: ClientHello) {
    && |ch.recordVersion| == 2 && |ch.version| == 2 && |ch.random| == 32
    && |ch.sessionId| <= 32
    && 2 <= |ch.cipherSuites| <= 65534 && |ch.cipherSuites| % 2 == 0
    && 1 <= |ch.compression| <= 255
    && |EncodeExtensions(ch.extensions)| < 65536
  }

  /** A ClientHello that fits one record (section 5.1). */
  predicate WellFormed(ch: ClientHello) {
    Sized(ch) && |Body(ch)| + 4 <= 16384
  }

  function Body(ch: ClientHello): seq<Byte>
    requires Sized(ch)
  {
    ch.version + (ch.random + FromSession(ch))
  }

  function FromSession(ch: ClientHello): seq<Byte>
    requires Sized(ch)
  {
    [|ch.sessionId|] + (ch.sessionId + FromCiphers(ch))
  }

  function FromCiphers(ch: ClientHello): seq<Byte>
    requires Sized(ch)
  {
    EncodeU16(|ch.cipherSuites|) + (ch.cipherSuites + FromCompression(ch))
  }

  function FromCompression(ch: ClientHello): seq<Byte>
    requires Sized(ch)
  {
    [|ch.compression|] + (ch.compression + FromExtensions(ch))
  }

  function FromExtensions(ch: ClientHello): seq<Byte>
    requires Sized(ch)
  {
    EncodeU16(|EncodeExtensions(ch.extensions)|) + EncodeExtensions(ch.extensions)
  }

  function Encode(ch: ClientHello): seq<Byte>
    requires WellFormed(ch)
  {
    [0x16] + (ch.recordVersion + (EncodeU16(|Body(ch)| + 4) + ([0x01] + (EncodeU24(|Body(ch)|) + Body(ch)))))
  }

  /** A server_name extension whose list starts with the host name `name` (section 3 of RFC 6066). */
  function HostNameExtension(name: seq<Byte>, others: seq<Byte>): Extension
    requires 3 + |name| + |others| < 65534
  {
    Extension(0, EncodeU16(3 + |name| + |others|) + ([0x00] + (EncodeU16(|name|) + (name + others))))
  }

  // ---- round trip ----------------------------------------------------------

  /** What follows a position in the payload. */
  predicate At(p: seq<Byte>, pos: nat, rest: seq<Byte>) {
    pos <= |p| && p[pos..] == rest
  }

  lemma Advance(p: seq<Byte>, pos: nat, chunk: seq<Byte>, rest: seq<Byte>)
    requires At(p, pos, chunk + rest)
    ensures At(p, pos + |chunk|, rest)
    ensures forall i | 0 <= i < |chunk| :: p[pos + i] == chunk[i]
  {
    forall i | 0 <= i < |chunk| ensures p[pos + i] == chunk[i] {
      assert p[pos..][i] == p[pos + i];
    }
    assert p[pos..][|chunk|..] == p[pos + |chunk|..];
    assert (chunk + rest)[|chunk|..] == rest;
  }

  lemma U16RoundTrip(n: Num16)
    ensures U16(EncodeU16(n)[0], EncodeU16(n)[1]) == n
  {
  }

  /** The header of an encoded ClientHello leads to exactly its extension list. */
  lemma HeaderRead(ch: ClientHello)
    requires WellFormed(ch)
    ensures var p, xs := Encode(ch), EncodeExtensions(ch.extensions);
      |xs| <= |p| && Extensions(p) == Extent(|p| - |xs|, |p|) && At(p, |p| - |xs|, xs)
  {
    hide EncodeExtensions, Encode, FromSession, EncodeU16, SkipSession, SkipCiphers, SkipCompression, Extensions;
    var p := Encode(ch);
    RecordHeader(ch);
    Advance(p, 9, ch.version, ch.random + FromSession(ch));
    Advance(p, 11, ch.random, FromSession(ch));
    SessionRead(p, ch);
    CiphersRead(p, ch);
    CompressionRead(p, ch);
    ExtensionBlockRead(p, ch);
  }

  lemma SessionRead(p: seq<Byte>, ch: ClientHello)
    requires Sized(ch) && At(p, 43, FromSession(ch)) && |p| >= 6 && p[0] == 0x16 && p[5] == 0x01
    ensures SkipSession(p) == 44 + |ch.sessionId| && At(p, SkipSession(p), FromCiphers(ch))
  {
    hide EncodeExtensions, FromCiphers;
    Advance(p, 43, [|ch.sessionId|], ch.sessionId + FromCiphers(ch));
    Advance(p, 44, ch.sessionId, FromCiphers(ch));
  }

  lemma CiphersRead(p: seq<Byte>, ch: ClientHello)
    requires Sized(ch) && SkipSession(p) >= 0 && At(p, SkipSession(p), FromCiphers(ch))
    ensures SkipCiphers(p) >= 0 && At(p, SkipCiphers(p), FromCompression(ch))
  {
    hide EncodeExtensions, FromCompression, SkipSession;
    var a := SkipSession(p);
    Advance(p, a, EncodeU16(|ch.cipherSuites|), ch.cipherSuites + FromCompression(ch));
    U16RoundTrip(|ch.cipherSuites|);
    Advance(p, a + 2, ch.cipherSuites, FromCompression(ch));
  }

  lemma CompressionRead(p: seq<Byte>, ch: ClientHello)
    requires Sized(ch) && SkipCiphers(p) >= 0 && At(p, SkipCiphers(p), FromCompression(ch))
    ensures SkipCompression(p) >= 0 && At(p, SkipCompression(p), FromExtensions(ch))
  {
    hide EncodeExtensions, FromExtensions, SkipCiphers;
    var a := SkipCiphers(p);
    Advance(p, a, [|ch.compression|], ch.compression + FromExtensions(ch));
    Advance(p, a + 1, ch.compression, FromExtensions(ch));
  }

  lemma ExtensionBlockRead(p: seq<Byte>, ch: ClientHello)
    requires Sized(ch) && SkipCompression(p) >= 0 && At(p, SkipCompression(p), FromExtensions(ch))
    ensures var xs := EncodeExtensions(ch.extensions);
      |xs| <= |p| && Extensions(p) == Extent(|p| - |xs|, |p|) && At(p, |p| - |xs|, xs)
  {
    hide EncodeExtensions, SkipCompression;
    var a, xs := SkipCompression(p), EncodeExtensions(ch.extensions);
    Advance(p, a, EncodeU16(|xs|), xs);
    U16RoundTrip(|xs|);
    assert |p[a + 2..]| == |xs|;
  }

  lemma RecordHeader(ch: ClientHello)
    requires WellFormed(ch)
    ensures var p := Encode(ch); |p| >= 9 && p[0] == 0x16 && p[5] == 0x01 && At(p, 9, Body(ch))
  {
    hide EncodeExtensions, Body;
    var p, b := Encode(ch), Body(ch);
    var r3 := EncodeU24(|b|) + b;
    var r2 := [0x01] + r3;
    var r1 := EncodeU16(|b| + 4) + r2;
    assert At(p, 0, [0x16] + (ch.recordVersion + r1));
    Advance(p, 0, [0x16], ch.recordVersion + r1);
    Advance(p, 1, ch.recordVersion, r1);
    Advance(p, 3, EncodeU16(|b| + 4), r2);
    Advance(p, 5, [0x01], r3);
    Advance(p, 6, EncodeU24(|b|), b);
  }

  function FirstServerName(xs: seq<Extension>): seq<Byte> {
    if xs == [] then [] else if xs[0].kind == 0 then FirstName(xs[0].data) else FirstServerName(xs[1..])
  }

  /** One encoded extension: its type and length are read, its data is in place, the rest follows. */
  lemma OneExtensionRead(p: seq<Byte>, pos: nat, x: Extension, rest: seq<Byte>)
    requires At(p, pos, EncodeU16(x.kind) + (EncodeU16(|x.data|) + (x.data + rest)))
    ensures pos + 4 + |x.data| <= |p| && ExtType(p, pos) == x.kind && ExtLen(p, pos) == |x.data|
    ensures p[pos + 4..pos + 4 + |x.data|] == x.data
    ensures At(p, pos + 4 + |x.data|, rest)
  {
    var a, b := EncodeU16(x.kind), EncodeU16(|x.data|);
    Advance(p, pos, a, b + (x.data + rest));
    Advance(p, pos + 2, b, x.data + rest);
    Advance(p, pos + 4, x.data, rest);
    U16RoundTrip(x.kind);
    U16RoundTrip(|x.data|);
  }

  /** Reading an encoded extension list finds the first type-0 extension and reads its first name. */
  lemma {:induction false} ExtensionsRead(p: seq<Byte>, pos: nat, xs: seq<Extension>)
    requires At(p, pos, EncodeExtensions(xs))
    ensures var at := Locate(p, pos, |p|);
      if at < 0 then FirstServerName(xs) == []
      else
        && at + 4 <= |p| && at + 4 + ExtLen(p, at) <= |p|
        && FirstServerName(xs) == FirstName(p[at + 4..at + 4 + ExtLen(p, at)])
    decreases |xs|
  {
    hide EncodeU16, U16, FirstName, ExtType, ExtLen;
    if xs == [] {
      assert |p[pos..]| == 0;
    } else {
      var x, rest := xs[0], EncodeExtensions(xs[1..]);
      OneExtensionRead(p, pos, x, rest);
      if x.kind != 0 {
        ExtensionsRead(p, pos + 4 + |x.data|, xs[1..]);
      }
    }
  }

  /** For every well-formed ClientHello the reader returns the first name of its first server_name extension, if any. */
  lemma ReadsFirstServerName(ch: ClientHello)
    requires WellFormed(ch)
    ensures ServerName(Encode(ch)) == FirstServerName(ch.extensions)
  {
    hide Encode, Body, EncodeExtensions, Extensions, WellFormed, Locate, FirstName, FirstServerName, ExtLen;
    var p, xs := Encode(ch), EncodeExtensions(ch.extensions);
    HeaderRead(ch);
    ExtensionsRead(p, |p| - |xs|, ch.extensions);
  }

  lemma HostNameRead(name: seq<Byte>, others: seq<Byte>)
    requires 3 + |name| + |others| < 65534
    ensures FirstName(HostNameExtension(name, others).data) == name
  {
    var data := HostNameExtension(name, others).data;
    var r2 := name + others;
    var r1 := EncodeU16(|name|) + r2;
    assert At(data, 0, EncodeU16(3 + |name| + |others|) + ([0x00] + r1));
    Advance(data, 0, EncodeU16(3 + |name| + |others|), [0x00] + r1);
    Advance(data, 2, [0x00], r1);
    Advance(data, 3, EncodeU16(|name|), r2);
    Advance(data, 5, name, others);
    U16RoundTrip(|name|);
    assert data[5..5 + |name|] == name;
  }

  lemma {:induction false} SkipsOthers(pre: seq<Extension>, x: Extension, post: seq<Extension>)
    requires (forall y <- pre :: y.kind != 0) && x.kind == 0
    ensures FirstServerName(pre + [x] + post) == FirstName(x.data)
  {
    var xs := pre + [x] + post;
    if pre != [] {
      assert xs[0] == pre[0] && pre[0] in pre;
      assert xs[1..] == pre[1..] + [x] + post;
      SkipsOthers(pre[1..], x, post);
    }
  }

  /** The first type-0 extension of an encoded list ends where the encoding of what follows it starts. */
  lemma {:induction false} EndsBeforeRest(p: seq<Byte>, pos: nat, pre: seq<Extension>, x: Extension,
                                          post: seq<Extension>)
    requires (forall y <- pre :: y.kind != 0) && x.kind == 0
    requires At(p, pos, EncodeExtensions(pre + [x] + post))
    ensures var at := Locate(p, pos, |p|);
      && 0 <= at && at + 4 <= |p| && at + 4 + ExtLen(p, at) == |p| - |EncodeExtensions(post)|
    decreases |pre|
  {
    hide EncodeU16, U16, ExtType, ExtLen;
    var xs := pre + [x] + post;
    OneExtensionRead(p, pos, xs[0], EncodeExtensions(xs[1..]));
    if pre == [] {
      assert xs[1..] == post;
    } else {
      assert xs[0] == pre[0] && pre[0] in pre;
      assert xs[1..] == pre[1..] + [x] + post;
      EndsBeforeRest(p, pos + 4 + |pre[0].data|, pre[1..], x, post);
    }
  }

  /** The part of an encoded ClientHello that holds the server name: all but the extensions after it. */
  function NameEnd(ch: ClientHello, post: seq<Extension>): int
    requires WellFormed(ch)
  {
    |Encode(ch)| - |EncodeExtensions(post)|
  }

  lemma AnswerEndsThere(ch: ClientHello, pre: seq<Extension>, x: Extension, post: seq<Extension>)
    requires WellFormed(ch) && ch.extensions == pre + [x] + post
    requires (forall y <- pre :: y.kind != 0) && x.kind == 0 && ServerName(Encode(ch)) != []
    ensures AnswerEnd(Encode(ch)) == NameEnd(ch, post)
  {
    hide Encode, Body, EncodeExtensions, ServerName, Extensions;
    var p := Encode(ch);
    HeaderRead(ch);
    EndsBeforeRest(p, |p| - |EncodeExtensions(ch.extensions)|, pre, x, post);
  }

  /**
   Round trip: with any session id, ciphers, compression list, preceding
   extensions of other types and following extensions of any type, the reader
   returns exactly the host name; and it returns it from a truncated record
   exactly when no more than the following extensions is cut off.
   */
  lemma SniRoundTrip(ch: ClientHello, pre: seq<Extension>, post: seq<Extension>, name: seq<Byte>, others: seq<Byte>,
                     n: nat)
    requires WellFormed(ch) && 1 <= |name| && 3 + |name| + |others| < 65534
    requires forall y <- pre :: y.kind != 0
    requires ch.extensions == pre + [HostNameExtension(name, others)] + post
    requires n <= |Encode(ch)|
    ensures ServerName(Encode(ch)) == name
    ensures ServerName(Encode(ch)[..n]) == if NameEnd(ch, post) <= n then name else []
  {
    hide Encode, ServerName, WellFormed, HostNameExtension, AnswerEnd, NameEnd;
    ReadsFirstServerName(ch);
    HostNameKind(name, others);
    SkipsOthers(pre, HostNameExtension(name, others), post);
    HostNameRead(name, others);
    AnswerOfPrefix(Encode(ch), n);
    AnswerEndsThere(ch, pre, HostNameExtension(name, others), post);
  }

  lemma HostNameKind(name: seq<Byte>, others: seq<Byte>)
    requires 3 + |name| + |others| < 65534
    ensures HostNameExtension(name, others).kind == 0
  {
  }

  /** Without a server_name extension there is no answer. */
  lemma {:induction false} NoServerName(xs: seq<Extension>)
    requires forall y <- xs :: y.kind != 0
    ensures FirstServerName(xs) == []
  {
    if xs != [] {
      assert xs[0] in xs;
      NoServerName(xs[1..]);
    }
  }

  /** A ClientHello without a server_name extension has no answer. */
  lemma NoAnswerWithoutServerName(ch: ClientHello)
    requires WellFormed(ch) && forall y <- ch.extensions :: y.kind != 0
    ensures ServerName(Encode(ch)) == []
  {
    ReadsFirstServerName(ch);
    NoServerName(ch.extensions);
  }
}
