/** The framing of release evidence: chunks, base64 (section 4 of RFC 4648) and the
    decoder that inverts the encoder exactly (layout-migration-exact-wire.py). */
module Wire {
  import opened Common

  const MAX_RAW := 8 * 1024 * 1024
  const CHUNK := 32768
  const MAX_CHUNKS := 256
  const MAX_FRAME := 12 * 1024 * 1024

  // ----- base64 -----

  function Letter(v: int): char
    requires 0 <= v < 64
  {
    if v < 26 then 'A' + v as char else if v < 52 then 'a' + (v - 26) as char
    else if v < 62 then '0' + (v - 52) as char else if v == 62 then '+' else '/'
  }

  /** The value of a letter, -1 for anything else. */
  function Value(c: char): (v: int)
    ensures -1 <= v < 64
  {
    if 'A' <= c <= 'Z' then (c - 'A') as int else if 'a' <= c <= 'z' then (c - 'a') as int + 26
    else if '0' <= c <= '9' then (c - '0') as int + 52 else if c == '+' then 62 else if c == '/' then 63 else -1
  }

  lemma {:induction false} LetterValue(v: int)
    requires 0 <= v < 64
    ensures Value(Letter(v)) == v && Value('=') == -1
  {}

  function Encode(raw: Bytes): string {
    if raw == [] then ""
    else if |raw| == 1 then [Letter(raw[0] / 4), Letter(raw[0] % 4 * 16), '=', '=']
    else if |raw| == 2 then [Letter(raw[0] / 4), Letter(raw[0] % 4 * 16 + raw[1] / 16), Letter(raw[1] % 16 * 4), '=']
    else [Letter(raw[0] / 4), Letter(raw[0] % 4 * 16 + raw[1] / 16), Letter(raw[1] % 16 * 4 + raw[2] / 64),
          Letter(raw[2] % 64)] + Encode(raw[3..])
  }

  /** b64decode with validate=True: letters, then at most two pads.  It ignores spare
      bits and superfluous pads, so different texts may decode to the same bytes. */
  function Decode(text: string): Option<Bytes> {
    if |text| >= 4 && Value(text[0]) >= 0 && Value(text[1]) >= 0 && Value(text[2]) >= 0 && Value(text[3]) >= 0 then
      match Decode(text[4..])
      case None => None
      case Some(rest) =>
        Some([Value(text[0]) * 4 + Value(text[1]) / 16, Value(text[1]) % 16 * 16 + Value(text[2]) / 4,
              Value(text[2]) % 4 * 64 + Value(text[3])] + rest)
    else if text in {"", "=", "=="} then Some([])
    else if |text| == 4 && Value(text[0]) >= 0 && Value(text[1]) >= 0 && text[2..] == "==" then
      Some([Value(text[0]) * 4 + Value(text[1]) / 16])
    else if |text| in {4, 5} && Value(text[0]) >= 0 && Value(text[1]) >= 0 && Value(text[2]) >= 0 && text[3..] in {"=", "=="} then
      Some([Value(text[0]) * 4 + Value(text[1]) / 16, Value(text[1]) % 16 * 16 + Value(text[2]) / 4])
    else None
  }

  lemma {:induction false} EncodeLength(raw: Bytes)
    ensures |Encode(raw)| == 4 * ((|raw| + 2) / 3)
  {
    hide Letter;
    if |raw| >= 3 { EncodeLength(raw[3..]); }
  }

  lemma {:induction false} EncodeDecodes(raw: Bytes)
    ensures Decode(Encode(raw)) == Some(raw)
  {
    hide Letter, Value;
    if |raw| == 1 {
      OneByte(raw[0]);
      assert raw == [raw[0]];
    } else if |raw| == 2 {
      TwoBytes(raw[0], raw[1]);
      assert raw == [raw[0], raw[1]];
    } else if |raw| >= 3 {
      EncodeDecodes(raw[3..]);
      ThreeBytes(raw[0], raw[1], raw[2], Encode(raw[3..]));
      assert raw == [raw[0], raw[1], raw[2]] + raw[3..];
    }
  }

  lemma {:induction false} OneByte(a: Byte)
    ensures Decode(Encode([a])) == Some([a])
  {
    hide Letter, Value;
    LetterValue(a / 4); LetterValue(a % 4 * 16);
    var text := Encode([a]);
    assert text[2..] == "==";
  }

  lemma {:induction false} TwoBytes(a: Byte, b: Byte)
    ensures Decode(Encode([a, b])) == Some([a, b])
  {
    hide Letter, Value;
    LetterValue(a / 4); LetterValue(a % 4 * 16 + b / 16); LetterValue(b % 16 * 4);
    var text := Encode([a, b]);
    assert text[3..] == "=";
  }

  /** Four groups of six bits give three bytes back. */
  lemma {:induction false} QuadBits(a: Byte, b: Byte, c: Byte)
    ensures var v, w, x, y := a / 4, a % 4 * 16 + b / 16, b % 16 * 4 + c / 64, c % 64;
            && 0 <= v < 64 && 0 <= w < 64 && 0 <= x < 64 && 0 <= y < 64
            && v * 4 + w / 16 == a && w % 16 * 16 + x / 4 == b && x % 4 * 64 + y == c
  {}

  lemma {:induction false} ThreeBytes(a: Byte, b: Byte, c: Byte, rest: string)
    requires Decode(rest).Some?
    ensures Decode([Letter(a / 4), Letter(a % 4 * 16 + b / 16), Letter(b % 16 * 4 + c / 64), Letter(c % 64)] + rest)
            == Some([a, b, c] + Decode(rest).value)
  {
    hide Letter, Value;
    QuadBits(a, b, c);
    LetterValue(a / 4); LetterValue(a % 4 * 16 + b / 16);
    LetterValue(b % 16 * 4 + c / 64); LetterValue(c % 64);
    var text := [Letter(a / 4), Letter(a % 4 * 16 + b / 16), Letter(b % 16 * 4 + c / 64), Letter(c % 64)] + rest;
    assert text[4..] == rest;
  }

  /** Decoding alone is not injective; that is why unpack encodes again. */
  lemma {:induction false} DecodeIsLoose()
    ensures "AA==" != "AB==" && Decode("AA==") == Decode("AB==") == Some([0])
    ensures Decode("AAAA=") == Decode("AAAA") == Some([0, 0, 0])
    ensures Encode([0]) == "AA=="
  {
    assert "AA=="[2..] == "==" && "AB=="[2..] == "==";
    assert "AAAA="[4..] == "=" && "AAAA"[4..] == "";
    assert Decode("=") == Some([]) && Decode("") == Some([]);
    var zeros: Bytes := [0, 0, 0];
    assert Decode("AAAA=") == Some(zeros + []) && Decode("AAAA") == Some(zeros + []);
    assert zeros + [] == zeros;
  }

  // ----- that it is the standard's base64 -----

  const ALPHABET := "ABCDEFGHIJKLMNOPQRSTUVWXYZ" + "abcdefghijklmnopqrstuvwxyz" + "0123456789" + "+/"

  /** Table 1 of the standard, read in both directions. */
  lemma {:induction false} LettersAreTheAlphabet(v: int)
    requires 0 <= v < 64
    ensures |ALPHABET| == 64 && Letter(v) == ALPHABET[v] && Value(ALPHABET[v]) == v
  {
    LetterValue(v);
    if v < 26 { assert "ABCDEFGHIJKLMNOPQRSTUVWXYZ"[v] == Letter(v); }
    else if v < 52 { assert "abcdefghijklmnopqrstuvwxyz"[v - 26] == Letter(v); }
    else if v < 62 { assert "0123456789"[v - 52] == Letter(v); }
  }

  lemma {:induction false} OtherCharactersHaveNoValue(c: char)
    ensures Value(c) >= 0 <==> c in ALPHABET
    ensures Value(c) >= 0 ==> |ALPHABET| == 64 && ALPHABET[Value(c)] == c
  {
    if Value(c) >= 0 {
      LettersAreTheAlphabet(Value(c));
      assert Letter(Value(c)) == c;
    } else if c in ALPHABET {
      var v :| 0 <= v < 64 && ALPHABET[v] == c;
      LettersAreTheAlphabet(v);
    }
  }

  /** The letters' places in the alphabet, as one number in base 64. */
  function Places(text: string): int {
    if text == "" then 0 else 64 * Places(text[..|text| - 1]) + Value(text[|text| - 1])
  }

  /** Three bytes become four letters with the same bits; of one or two bytes at the
      end the missing bits are zero and the missing letters pads. */
  lemma {:induction false} GroupsKeepTheirBits(raw: Bytes)
    ensures raw == [] ==> Encode(raw) == ""
    ensures |raw| == 1 ==> |Encode(raw)| == 4 && Encode(raw)[2..] == "==" && Places(Encode(raw)[..2]) == raw[0] as int * 16
    ensures |raw| == 2 ==> |Encode(raw)| == 4 && Encode(raw)[3..] == "=" && Places(Encode(raw)[..3]) == (raw[0] as int * 256 + raw[1]) * 4
    ensures |raw| >= 3 ==> |Encode(raw)| >= 4 && Encode(raw)[4..] == Encode(raw[3..])
                           && Places(Encode(raw)[..4]) == (raw[0] as int * 256 + raw[1]) * 256 + raw[2]
    ensures forall i | 0 <= i < |Encode(raw)| && i < 4 :: Encode(raw)[i] in ALPHABET || (i >= |raw| + 1 && Encode(raw)[i] == '=')
  {
    hide Letter, Value;
    var text := Encode(raw);
    if |raw| == 1 {
      TwoPlaces(raw[0] / 4, raw[0] % 4 * 16, text);
    } else if |raw| == 2 {
      TwoPlaces(raw[0] / 4, raw[0] % 4 * 16 + raw[1] / 16, text);
      OnePlace(raw[1] % 16 * 4, text, 2);
    } else if |raw| >= 3 {
      QuadBits(raw[0], raw[1], raw[2]);
      TwoPlaces(raw[0] / 4, raw[0] % 4 * 16 + raw[1] / 16, text);
      OnePlace(raw[1] % 16 * 4 + raw[2] / 64, text, 2);
      OnePlace(raw[2] % 64, text, 3);
    }
  }

  lemma {:induction false} OnePlace(v: int, text: string, i: nat)
    requires 0 <= v < 64 && i < |text| && text[i] == Letter(v)
    ensures text[i] in ALPHABET && Places(text[..i + 1]) == 64 * Places(text[..i]) + v
  {
    hide Letter, Value;
    LettersAreTheAlphabet(v);
    assert text[..i + 1][..i] == text[..i];
  }

  lemma {:induction false} TwoPlaces(v: int, w: int, text: string)
    requires 0 <= v < 64 && 0 <= w < 64 && |text| >= 2 && text[0] == Letter(v) && text[1] == Letter(w)
    ensures text[0] in ALPHABET && text[1] in ALPHABET && Places(text[..2]) == 64 * v + w
  {
    hide Letter, Value;
    OnePlace(v, text, 0);
    OnePlace(w, text, 1);
    assert text[..0] == "";
  }

  /** The test vectors of section 10 of the standard, and "ab4", which needs a digit. */
  lemma {:induction false} TestVectors()
    ensures Encode([]) == "" && Encode([0x66]) == "Zg==" && Encode([0x66, 0x6f]) == "Zm8="
    ensures Encode([0x66, 0x6f, 0x6f]) == "Zm9v" && Encode([0x66, 0x6f, 0x6f, 0x62]) == "Zm9vYg=="
    ensures Encode([0x66, 0x6f, 0x6f, 0x62, 0x61]) == "Zm9vYmE="
    ensures Encode([0x66, 0x6f, 0x6f, 0x62, 0x61, 0x72]) == "Zm9vYmFy"
    ensures Encode([0x61, 0x62, 0x34]) == "YWI0"
  {
    hide Encode, Letter;
    ShortVectors();
    Bar();
    WithADigit();
    Foo([]); Foo([0x62]); Foo([0x62, 0x61]); Foo([0x62, 0x61, 0x72]);
    assert [0x66, 0x6f, 0x6f] + [] == [0x66, 0x6f, 0x6f] && "Zm9v" + "" == "Zm9v";
    assert [0x66, 0x6f, 0x6f] + [0x62] == [0x66, 0x6f, 0x6f, 0x62];
    assert [0x66, 0x6f, 0x6f] + [0x62, 0x61] == [0x66, 0x6f, 0x6f, 0x62, 0x61];
    assert [0x66, 0x6f, 0x6f] + [0x62, 0x61, 0x72] == [0x66, 0x6f, 0x6f, 0x62, 0x61, 0x72];
  }

  lemma {:induction false} Foo(rest: Bytes)
    ensures Encode([0x66, 0x6f, 0x6f] + rest) == "Zm9v" + Encode(rest)
  {
    hide Encode;
    Triple(0x66, 0x6f, 0x6f, rest);
  }

  lemma {:induction false} ShortVectors()
    ensures Encode([]) == "" && Encode([0x66]) == "Zg==" && Encode([0x66, 0x6f]) == "Zm8="
    ensures Encode([0x62]) == "Yg==" && Encode([0x62, 0x61]) == "YmE="
  {}

  lemma {:induction false} Bar()
    ensures Encode([0x62, 0x61, 0x72]) == "YmFy"
  {
    hide Encode;
    Triple(0x62, 0x61, 0x72, []);
    NoBytes();
    assert [0x62, 0x61, 0x72] + [] == [0x62, 0x61, 0x72];
  }

  lemma {:induction false} WithADigit()
    ensures Encode([0x61, 0x62, 0x34]) == "YWI0"
  {
    hide Encode;
    Triple(0x61, 0x62, 0x34, []);
    NoBytes();
    assert [0x61, 0x62, 0x34] + [] == [0x61, 0x62, 0x34];
  }

  lemma {:induction false} NoBytes()
    ensures Encode([]) == ""
  {}

  lemma {:induction false} Triple(a: Byte, b: Byte, c: Byte, rest: Bytes)
    ensures Encode([a, b, c] + rest)
            == [Letter(a / 4), Letter(a % 4 * 16 + b / 16), Letter(b % 16 * 4 + c / 64), Letter(c % 64)] + Encode(rest)
  {
    var raw := [a, b, c] + rest;
    assert raw[0] == a && raw[1] == b && raw[2] == c && raw[3..] == rest;
  }

  // ----- frames -----

  datatype Envelope = Envelope(challenge: string, planSha: string, tx: string, node: string, bootId: string)
  datatype Pin = Pin(node: string, bootId: string, artifact: string, sources: string)
  datatype Binding = Binding(
    challenge: string, pinsSha: string, sourcesSha: string, planSha: string, tx: string, node: string, bootId: string)
  datatype Chunk = Chunk(index: int, sha: string, base64: string)
  datatype Frame = Frame(
    binding: Binding, cohortId: string, effectSha: string, rawSha: string, byteCount: int, chunks: seq<Chunk>)
  datatype Payload<E> = Payload(effect: E, evidence: Frame)

  /** The parts this file only calls: the hashes, the strict JSON parser, and the
      checks on the parsed evidence.  Nothing is assumed of them. */
  datatype Codec<!E, !V> = Codec(
    sha: Bytes -> string, effectSha: E -> string, pinsSha: seq<Pin> -> string,
    parse: Bytes -> Option<V>, sound: (V, Envelope, seq<Pin>) -> bool, cohort: V -> string)

  /** strict: bounded, parsable, canonical. */
  function Strict<E, V>(c: Codec<E, V>, raw: Bytes): Option<V> {
    if 0 < |raw| <= MAX_RAW then c.parse(raw) else None
  }

  function BindingOf<E, V>(c: Codec<E, V>, e: Envelope, pins: seq<Pin>): Option<Binding> {
    if |pins| == 4 && (forall i, j | 0 <= i < j < 4 :: pins[i].node != pins[j].node)
       && (forall i | 0 <= i < 4 :: pins[i].sources == pins[0].sources)
    then Some(Binding(e.challenge, c.pinsSha(pins), pins[0].sources, e.planSha, e.tx, e.node, e.bootId)) else None
  }

  function ChunkCount(n: nat): nat {
    (n + CHUNK - 1) / CHUNK
  }

  function Part(raw: Bytes, i: nat): Bytes
    requires i < ChunkCount(|raw|)
  {
    raw[i * CHUNK..if (i + 1) * CHUNK <= |raw| then (i + 1) * CHUNK else |raw|]
  }

  function ChunkAt(sha: Bytes -> string, raw: Bytes, i: nat): Chunk
    requires i < ChunkCount(|raw|)
  {
    Chunk(i, sha(Part(raw, i)), Encode(Part(raw, i)))
  }

  function ChunksOf(sha: Bytes -> string, raw: Bytes): seq<Chunk> {
    seq(ChunkCount(|raw|), i requires 0 <= i < ChunkCount(|raw|) => ChunkAt(sha, raw, i))
  }

  function Packed<E, V>(c: Codec<E, V>, effect: E, raw: Bytes, e: Envelope, pins: seq<Pin>): Option<Payload<E>> {
    match Strict(c, raw)
    case None => None
    case Some(value) =>
      match BindingOf(c, e, pins)
      case None => None
      case Some(b) =>
        if !c.sound(value, e, pins) then None
        else Some(Payload(effect, Frame(b, c.cohort(value), c.effectSha(effect), c.sha(raw), |raw|, ChunksOf(c.sha, raw))))
  }

  /** When pack makes a frame at all, and what the frame says. */
  lemma {:induction false} FrameSays<E, V>(c: Codec<E, V>, effect: E, raw: Bytes, e: Envelope, pins: seq<Pin>)
    ensures Packed(c, effect, raw, e, pins).Some?
            <==> && 0 < |raw| <= 8388608 && c.parse(raw).Some? && c.sound(c.parse(raw).value, e, pins)
                 && |pins| == 4 && (forall i, j | 0 <= i < j < 4 :: pins[i].node != pins[j].node)
                 && (forall i | 1 <= i < 4 :: pins[i].sources == pins[0].sources)
    ensures Packed(c, effect, raw, e, pins).Some? ==>
              var p := Packed(c, effect, raw, e, pins).value;
              var b, f := p.evidence.binding, p.evidence;
              && p.effect == effect
              && b.challenge == e.challenge && b.planSha == e.planSha && b.tx == e.tx && b.node == e.node && b.bootId == e.bootId
              && b.pinsSha == c.pinsSha(pins) && (forall i | 0 <= i < 4 :: b.sourcesSha == pins[i].sources)
              && f.cohortId == c.cohort(c.parse(raw).value) && f.effectSha == c.effectSha(effect)
              && f.rawSha == c.sha(raw) && f.byteCount == |raw|
    ensures Packed(c, effect, raw, e, pins).Some? ==>
              var chunks := Packed(c, effect, raw, e, pins).value.evidence.chunks;
              && 32768 * (|chunks| - 1) < |raw| <= 32768 * |chunks| && |chunks| <= 256
              && forall i | 0 <= i < |chunks| ::
                   var part := raw[32768 * i..if i == |chunks| - 1 then |raw| else 32768 * (i + 1)];
                   chunks[i].index == i && chunks[i].sha == c.sha(part) && chunks[i].base64 == Encode(part)
  {
    hide Encode;
    if Packed(c, effect, raw, e, pins).Some? {
      var chunks := Packed(c, effect, raw, e, pins).value.evidence.chunks;
      forall i | 0 <= i < |chunks|
        ensures Part(raw, i) == raw[32768 * i..if i == |chunks| - 1 then |raw| else 32768 * (i + 1)]
                && chunks[i] == ChunkAt(c.sha, raw, i) {}
    }
  }

  /** pack, with its loop over offsets. */
  method Pack<E, V>(c: Codec<E, V>, effect: E, raw: Bytes, e: Envelope, pins: seq<Pin>) returns (r: Option<Payload<E>>)
    ensures r == Packed(c, effect, raw, e, pins)
  {
    var value := Strict(c, raw);
    if value == None || !c.sound(value.value, e, pins) { return None; }
    var chunks: seq<Chunk> := [];
    var offset := 0;
    while offset < |raw|
      invariant offset == CHUNK * |chunks|
      invariant |chunks| <= ChunkCount(|raw|)
      invariant forall i | 0 <= i < |chunks| :: chunks[i] == ChunkAt(c.sha, raw, i)
    {
      var part := raw[offset..if offset + CHUNK <= |raw| then offset + CHUNK else |raw|];
      assert part == Part(raw, |chunks|);
      chunks := chunks + [Chunk(|chunks|, c.sha(part), Encode(part))];
      offset := offset + CHUNK;
    }
    assert chunks == ChunksOf(c.sha, raw);
    var b := BindingOf(c, e, pins);
    if b == None { return None; }
    return Some(Payload(effect, Frame(b.value, c.cohort(value.value), c.effectSha(effect), c.sha(raw), |raw|, chunks)));
  }

  /** The bytes of one received chunk, if every check on it passes. */
  function Opened(sha: Bytes -> string, chunk: Chunk, index: nat, count: nat): Option<Bytes> {
    if chunk.index != index || !(0 < |chunk.base64| <= 4 * ((CHUNK + 2) / 3)) then None
    else
      match Decode(chunk.base64)
      case None => None
      case Some(part) =>
        if |part| == (if count - index * CHUNK < CHUNK then count - index * CHUNK else CHUNK)
           && Encode(part) == chunk.base64 && sha(part) == chunk.sha then Some(part) else None
  }

  lemma {:induction false} JoinedNothing(sha: Bytes -> string, chunks: seq<Chunk>, count: nat)
    ensures Joined(sha, chunks, 0, count) == Some([])
  {}

  function Joined(sha: Bytes -> string, chunks: seq<Chunk>, n: nat, count: nat): Option<Bytes>
    requires n <= |chunks|
  {
    if n == 0 then Some([])
    else
      match Joined(sha, chunks, n - 1, count)
      case None => None
      case Some(before) =>
        match Opened(sha, chunks[n - 1], n - 1, count) case None => None case Some(part) => Some(before + part)
  }

  function Unpacked<E(==), V>(c: Codec<E, V>, p: Payload<E>, e: Envelope, pins: seq<Pin>): Option<(E, Bytes)> {
    var f := p.evidence;
    if BindingOf(c, e, pins) != Some(f.binding) || f.effectSha != c.effectSha(p.effect) then None
    else if !(0 < f.byteCount <= MAX_RAW && |f.chunks| == ChunkCount(f.byteCount) <= MAX_CHUNKS) then None
    else
      match Joined(c.sha, f.chunks, |f.chunks|, f.byteCount)
      case None => None
      case Some(raw) =>
        if |raw| != f.byteCount || c.sha(raw) != f.rawSha then None
        else
          match Strict(c, raw)
          case None => None
          case Some(value) =>
            if c.sound(value, e, pins) && c.cohort(value) == f.cohortId then Some((p.effect, raw)) else None
  }

  /** unpack, with its loop over chunks. */
  method Unpack<E(==), V>(c: Codec<E, V>, p: Payload<E>, e: Envelope, pins: seq<Pin>) returns (r: Option<(E, Bytes)>)
    ensures r == Unpacked(c, p, e, pins)
  {
    hide Opened, Joined, BindingOf, Strict;
    JoinedNothing(c.sha, p.evidence.chunks, if p.evidence.byteCount > 0 then p.evidence.byteCount else 0);
    var f := p.evidence;
    if BindingOf(c, e, pins) != Some(f.binding) || f.effectSha != c.effectSha(p.effect) { return None; }
    var count := f.byteCount;
    if !(0 < count <= MAX_RAW && |f.chunks| == (count + CHUNK - 1) / CHUNK <= MAX_CHUNKS) { return None; }
    var raw: Bytes := [];
    for index := 0 to |f.chunks|
      invariant Joined(c.sha, f.chunks, index, count) == Some(raw)
    {
      var part := Opened(c.sha, f.chunks[index], index, count);
      JoinedGrows(c.sha, f.chunks, index, count);
      if part == None { return None; }
      raw := raw + part.value;
    }
    if |raw| != count || c.sha(raw) != f.rawSha { return None; }
    var value := Strict(c, raw);
    if value == None || !c.sound(value.value, e, pins) || c.cohort(value.value) != f.cohortId { return None; }
    return Some((p.effect, raw));
  }

  lemma {:induction false} JoinedGrows(sha: Bytes -> string, chunks: seq<Chunk>, n: nat, count: nat)
    requires n < |chunks|
    ensures Joined(sha, chunks, n + 1, count)
            == match Joined(sha, chunks, n, count)
               case None => None
               case Some(before) =>
                 match Opened(sha, chunks[n], n, count) case None => None case Some(part) => Some(before + part)
    ensures Joined(sha, chunks, n + 1, count) == None ==> Joined(sha, chunks, |chunks|, count) == None
  {
    hide Opened;
    if Joined(sha, chunks, n + 1, count) == None { JoinedStops(sha, chunks, n + 1, |chunks|, count); }
  }

  lemma {:induction false} JoinedStops(sha: Bytes -> string, chunks: seq<Chunk>, n: nat, m: nat, count: nat)
    requires n <= m <= |chunks| && Joined(sha, chunks, n, count) == None
    ensures Joined(sha, chunks, m, count) == None
  {
    hide Opened;
    if n < m { JoinedStops(sha, chunks, n, m - 1, count); }
  }

  // ----- two-sided inverse -----

  function PartSize(count: nat, i: nat): int {
    if count - i * CHUNK < CHUNK then count - i * CHUNK else CHUNK
  }

  lemma {:induction false} PartFits(raw: Bytes, i: nat)
    requires i < ChunkCount(|raw|)
    ensures |Part(raw, i)| == PartSize(|raw|, i) && 0 < |Part(raw, i)| <= CHUNK
    ensures 0 < |Encode(Part(raw, i))| <= 4 * ((CHUNK + 2) / 3)
  {
    EncodeLength(Part(raw, i));
  }

  lemma {:induction false} PackedChunkOpens(sha: Bytes -> string, raw: Bytes, i: nat)
    requires i < ChunkCount(|raw|)
    ensures Opened(sha, ChunkAt(sha, raw, i), i, |raw|) == Some(Part(raw, i))
  {
    hide Part, Encode, Decode, ChunkCount;
    PartFits(raw, i);
    EncodeDecodes(Part(raw, i));
  }

  /** Only a packed chunk opens: the loose decoder is pinned down by encoding again. */
  lemma {:induction false} OpenedIsPacked(sha: Bytes -> string, chunk: Chunk, index: nat, count: nat)
    requires Opened(sha, chunk, index, count).Some?
    ensures var part := Opened(sha, chunk, index, count).value;
            chunk == Chunk(index, sha(part), Encode(part)) && |part| == PartSize(count, index)
  {
    hide Encode, Decode;
  }

  function Prefix(raw: Bytes, n: nat): Bytes {
    if n * CHUNK <= |raw| then raw[..n * CHUNK] else raw
  }

  lemma {:induction false} PrefixGrows(raw: Bytes, n: nat)
    requires n < ChunkCount(|raw|)
    ensures Prefix(raw, n) + Part(raw, n) == Prefix(raw, n + 1)
  {}

  lemma {:induction false} PackedJoins(sha: Bytes -> string, raw: Bytes, n: nat)
    requires n <= ChunkCount(|raw|)
    ensures Joined(sha, ChunksOf(sha, raw), n, |raw|) == Some(Prefix(raw, n))
  {
    hide Opened, ChunkCount, Part, Prefix, ChunkAt;
    if n == 0 {
      NoPrefix(raw);
    } else {
      PackedJoins(sha, raw, n - 1);
      PackedChunkOpens(sha, raw, n - 1);
      PrefixGrows(raw, n - 1);
    }
  }

  lemma {:induction false} NoPrefix(raw: Bytes)
    ensures Prefix(raw, 0) == [] && Prefix(raw, ChunkCount(|raw|)) == raw
  {}

  /** Received chunks that join are the packed chunks of what they join to. */
  lemma {:induction false} JoinedIsPacked(sha: Bytes -> string, chunks: seq<Chunk>, n: nat, count: nat)
    requires n <= |chunks| == ChunkCount(count) && Joined(sha, chunks, n, count).Some?
    ensures var raw := Joined(sha, chunks, n, count).value;
            && |raw| == (if n * CHUNK <= count then n * CHUNK else count)
            && forall i | 0 <= i < n :: PackedFrom(sha, chunks, raw, i)
  {
    hide Opened;
    if n > 0 {
      JoinedIsPacked(sha, chunks, n - 1, count);
      OpenedIsPacked(sha, chunks[n - 1], n - 1, count);
      var before := Joined(sha, chunks, n - 1, count).value;
      var part := Opened(sha, chunks[n - 1], n - 1, count).value;
      var raw := before + part;
      hide PackedFrom;
      forall i | 0 <= i < n ensures PackedFrom(sha, chunks, raw, i) {
        if i < n - 1 {
          PackedFromGrows(sha, chunks, before, part, i);
        } else {
          PackedFromLast(sha, chunks, before, part, i);
        }
      }
    }
  }

  lemma {:induction false} PackedFromGrows(sha: Bytes -> string, chunks: seq<Chunk>, before: Bytes, part: Bytes, i: nat)
    requires i < |chunks| && (i + 1) * CHUNK <= |before| && PackedFrom(sha, chunks, before, i)
    ensures PackedFrom(sha, chunks, before + part, i)
  {
    hide Encode;
    assert (before + part)[i * CHUNK..(i + 1) * CHUNK] == before[i * CHUNK..(i + 1) * CHUNK];
  }

  lemma {:induction false} PackedFromLast(sha: Bytes -> string, chunks: seq<Chunk>, before: Bytes, part: Bytes, i: nat)
    requires i < |chunks| && i * CHUNK == |before| && |part| <= CHUNK
    requires chunks[i] == Chunk(i, sha(part), Encode(part))
    ensures PackedFrom(sha, chunks, before + part, i)
  {
    hide Encode;
    assert (before + part)[i * CHUNK..] == part;
    if |part| == CHUNK { assert (before + part)[i * CHUNK..(i + 1) * CHUNK] == part; }
  }

  ghost predicate PackedFrom(sha: Bytes -> string, chunks: seq<Chunk>, raw: Bytes, i: nat)
    requires i < |chunks|
  {
    && i * CHUNK <= |raw|
    && var part := if (i + 1) * CHUNK <= |raw| then raw[i * CHUNK..(i + 1) * CHUNK] else raw[i * CHUNK..];
       chunks[i] == Chunk(i, sha(part), Encode(part))
  }

  lemma {:induction false} JoinedChunksArePacked(sha: Bytes -> string, chunks: seq<Chunk>, raw: Bytes)
    requires |chunks| == ChunkCount(|raw|) && Joined(sha, chunks, |chunks|, |raw|) == Some(raw)
    ensures chunks == ChunksOf(sha, raw)
  {
    JoinedIsPacked(sha, chunks, |chunks|, |raw|);
    forall i | 0 <= i < |chunks| ensures chunks[i] == ChunkAt(sha, raw, i) {
      assert PackedFrom(sha, chunks, raw, i);
      assert (if (i + 1) * CHUNK <= |raw| then raw[i * CHUNK..(i + 1) * CHUNK] else raw[i * CHUNK..]) == Part(raw, i);
    }
  }

  /** What unpack accepts is exactly what pack makes, in both directions, for any
      hashes and any parser. */
  lemma {:induction false} PackUnpack<E, V>(c: Codec<E, V>, p: Payload<E>, effect: E, raw: Bytes, e: Envelope, pins: seq<Pin>)
    ensures Unpacked(c, p, e, pins) == Some((effect, raw)) <==> Packed(c, effect, raw, e, pins) == Some(p)
  {
    hide Joined, ChunksOf, BindingOf, Prefix;
    if Unpacked(c, p, e, pins) == Some((effect, raw)) {
      JoinedChunksArePacked(c.sha, p.evidence.chunks, raw);
    }
    if Packed(c, effect, raw, e, pins) == Some(p) {
      PackedJoins(c.sha, raw, ChunkCount(|raw|));
      NoPrefix(raw);
      ChunksCounted(c.sha, raw);
    }
  }

  lemma {:induction false} ChunksCounted(sha: Bytes -> string, raw: Bytes)
    ensures |ChunksOf(sha, raw)| == ChunkCount(|raw|)
    ensures |raw| <= MAX_RAW ==> ChunkCount(|raw|) <= MAX_CHUNKS
  {}

  // ----- size on the wire -----

  /** The canonical JSON text of a chunk and of the chunk list. */
  function ChunkText(c: Chunk): string
    requires c.index >= 0
  {
    "{\"base64\":\"" + c.base64 + "\",\"index\":" + Decimal(c.index) + ",\"sha256\":\"" + c.sha + "\"}"
  }

  function ChunksText(chunks: seq<Chunk>): string
    requires forall i | 0 <= i < |chunks| :: chunks[i].index >= 0
  {
    if chunks == [] then "" else ChunkText(chunks[0]) + (if |chunks| == 1 then "" else ",") + ChunksText(chunks[1..])
  }

  /** Keys in order, no spaces. */
  lemma {:induction false} TextOfAChunk()
    ensures ChunkText(Chunk(7, "s", "QQ==")) == "{\"base64\":\"QQ==\",\"index\":7,\"sha256\":\"s\"}"
  {
    assert Decimal(7) == "7";
  }

  lemma {:induction false} DecimalFits(n: nat)
    requires n < 1000
    ensures |Decimal(n)| <= 3
  {
    assert n / 10 / 10 < 10;
    assert |Decimal(n / 10 / 10)| == 1;
    assert |Decimal(n / 10)| <= 2;
  }

  lemma {:induction false} ChunkTextFits(c: Chunk)
    requires 0 <= c.index < 1000 && |c.sha| == 64 && |c.base64| <= 43692
    ensures |ChunkText(c)| <= 43793
  {
    DecimalFits(c.index);
  }

  lemma {:induction false} ChunksTextFits(chunks: seq<Chunk>)
    requires forall i | 0 <= i < |chunks| :: 0 <= chunks[i].index < 1000 && |chunks[i].sha| == 64 && |chunks[i].base64| <= 43692
    ensures |ChunksText(chunks)| <= 43794 * |chunks|
  {
    hide ChunkText;
    if chunks != [] {
      ChunkTextFits(chunks[0]);
      ChunksTextFits(chunks[1..]);
    }
  }

  /** For any raw size the packed chunks leave more than a mebibyte of the frame to
      the effect and the identities. */
  lemma {:induction false} ChunksLeaveRoom(sha: Bytes -> string, raw: Bytes)
    requires |raw| <= MAX_RAW && forall part :: |sha(part)| == 64
    ensures var chunks := ChunksOf(sha, raw);
            && (forall i | 0 <= i < |chunks| :: chunks[i].index >= 0)
            && |"[" + ChunksText(chunks) + "]"| + 1024 * 1024 <= MAX_FRAME
  {
    hide ChunksText, Part, Encode;
    var chunks := ChunksOf(sha, raw);
    ChunksCounted(sha, raw);
    forall i | 0 <= i < |chunks|
      ensures 0 <= chunks[i].index < 1000 && |chunks[i].sha| == 64 && |chunks[i].base64| <= 43692
    {
      PartFits(raw, i);
    }
    ChunksTextFits(chunks);
  }
}
