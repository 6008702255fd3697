/** The audio system (src/Audio.cpp, include/Audio.h): the buffer cache
    behind loadSound and its dispatch on the file extension, the RIFF/WAVE
    reader, the stereo-to-mono downmix of decoded OGG and MP3 audio, the
    init/shutdown flags, and the pruning of expired sources. OpenAL, the
    file system and the two decoders are outside the model: what they answer
    enters as parameters (a `Backend`, the name alGenBuffers hands out, the
    outcomes of the device and context calls, the set of expired sources). */
module Audio {

  datatype Option<T> = None | Some(value: T)

  type byte = x: int | 0 <= x < 256

  // ---------------------------------------------------------------------
  // File extensions (AudioSystem::getFileExtension).

  /** The C library's tolower in the default locale: only A-Z change. */
  function LowerChar(c: char): char {
    if 'A' <= c <= 'Z' then (c as int - 'A' as int + 'a' as int) as char else c
  }

  predicate IsUpper(c: char) {
    'A' <= c <= 'Z'
  }

  function Lower(s: string): (r: string)
    ensures |r| == |s|
  {
    seq(|s|, i requires 0 <= i < |s| => LowerChar(s[i]))
  }

  /** std::string::rfind('.'): the index of the last '.', or -1 (npos). */
  function LastDot(s: string): (r: int)
    ensures -1 <= r < |s|
    ensures r >= 0 ==> s[r] == '.'
    ensures forall k :: r < k < |s| ==> s[k] != '.'
    decreases |s|
  {
    if s == [] then -1
    else if s[|s| - 1] == '.' then |s| - 1
    else LastDot(s[..|s| - 1])
  }

  /** The lower-cased text after the last '.', or "" when there is none. */
  function FileExtension(filename: string): (r: string)
    ensures '.' !in filename ==> r == ""
    ensures forall i :: 0 <= i < |r| ==> !IsUpper(r[i])
    ensures '.' !in r
  {
    var pos := LastDot(filename);
    if pos < 0 then "" else Lower(filename[pos + 1..])
  }

  /** A name ending in "." + ext, ext without a dot, has the extension ext in
      lower case, whatever the stem holds. */
  lemma ExtensionOfName(stem: string, ext: string)
    requires '.' !in ext
    ensures FileExtension(stem + "." + ext) == Lower(ext)
  {
    var name := stem + "." + ext;
    var pos := LastDot(name);
    assert name[|stem|] == '.';
    forall k | |stem| < k < |name|
      ensures name[k] != '.'
    {
      assert name[k] == ext[k - |stem| - 1];
    }
    assert pos == |stem|;
    assert name[pos + 1..] == ext;
  }

  /** The loaders the extension selects. */
  datatype Loader = WavLoader | OggLoader | Mp3Loader | NoLoader

  function LoaderFor(ext: string): (r: Loader)
    ensures r == WavLoader <==> ext == "wav"
    ensures r == OggLoader <==> ext == "ogg"
    ensures r == Mp3Loader <==> ext == "mp3"
  {
    if ext == "wav" then WavLoader
    else if ext == "ogg" then OggLoader
    else if ext == "mp3" then Mp3Loader
    else NoLoader
  }

  /** The dispatch ignores case: "x.WAV" is read as WAV. */
  lemma UpperCaseWav(stem: string)
    ensures LoaderFor(FileExtension(stem + "." + "WAV")) == WavLoader
  {
    ExtensionOfName(stem, "WAV");
    assert Lower("WAV") == "wav";
  }

  // ---------------------------------------------------------------------
  // Little-endian integers, as the header struct and the chunk sizes are
  // read on a little-endian machine.

  function Pow256(k: nat): (r: nat)
    ensures r > 0
  {
    if k == 0 then 1 else 256 * Pow256(k - 1)
  }

  const U16Limit: nat := 0x1_0000
  const U32Limit: nat := 0x1_0000_0000

  lemma Pow256Widths()
    ensures Pow256(2) == U16Limit && Pow256(4) == U32Limit
  {
    assert Pow256(1) == 256;
    assert Pow256(2) == 65536;
    assert Pow256(3) == 16777216;
  }

  function LittleEndian(b: seq<byte>): nat
    decreases |b|
  {
    if b == [] then 0 else b[0] + 256 * LittleEndian(b[1..])
  }

  function Encode(n: nat, k: nat): (r: seq<byte>)
    ensures |r| == k
  {
    if k == 0 then [] else [n % 256] + Encode(n / 256, k - 1)
  }

  /** Reading back k bytes written from n gives n, for every n that fits. */
  lemma {:induction false} DecodeEncode(n: nat, k: nat)
    requires n < Pow256(k)
    ensures LittleEndian(Encode(n, k)) == n
  {
    if k > 0 {
      var e := Encode(n, k);
      assert e[1..] == Encode(n / 256, k - 1);
      assert n / 256 < Pow256(k - 1);
      DecodeEncode(n / 256, k - 1);
    }
  }

  /** Every byte string is the encoding of the number it reads as. */
  lemma {:induction false} EncodeDecode(b: seq<byte>)
    ensures LittleEndian(b) < Pow256(|b|)
    ensures Encode(LittleEndian(b), |b|) == b
  {
    if b != [] {
      EncodeDecode(b[1..]);
      var n := LittleEndian(b);
      assert n % 256 == b[0];
      assert n / 256 == LittleEndian(b[1..]);
    }
  }

  // ---------------------------------------------------------------------
  // The 36-byte WAVHeader struct.

  const HeaderSize: nat := 36
  const FmtBaseSize: nat := 16

  const RiffTag: seq<byte> := [0x52, 0x49, 0x46, 0x46]  // "RIFF"
  const WaveTag: seq<byte> := [0x57, 0x41, 0x56, 0x45]  // "WAVE"
  const DataTag: seq<byte> := [0x64, 0x61, 0x74, 0x61]  // "data"

  /** strncmp(b + i, tag, 4) == 0: the four bytes at i spell the tag. */
  predicate TagAt(b: seq<byte>, i: nat, tag: seq<byte>)
    requires i + 4 <= |b| && |tag| == 4
  {
    b[i] == tag[0] && b[i + 1] == tag[1] && b[i + 2] == tag[2] && b[i + 3] == tag[3]
  }

  lemma TagAtMeans(b: seq<byte>, i: nat, tag: seq<byte>)
    requires i + 4 <= |b| && |tag| == 4
    ensures TagAt(b, i, tag) <==> b[i..i + 4] == tag
  {
    if TagAt(b, i, tag) {
      assert b[i..i + 4] == [b[i], b[i + 1], b[i + 2], b[i + 3]];
    }
  }

  datatype WavHeader = WavHeader(riff: seq<byte>, fileSize: nat, wave: seq<byte>, fmt: seq<byte>,
                                 fmtSize: nat, audioFormat: nat, numChannels: nat, sampleRate: nat,
                                 byteRate: nat, blockAlign: nat, bitsPerSample: nat)

  predicate HeaderFits(h: WavHeader) {
    |h.riff| == 4 && |h.wave| == 4 && |h.fmt| == 4 &&
    h.fileSize < U32Limit && h.fmtSize < U32Limit && h.sampleRate < U32Limit && h.byteRate < U32Limit &&
    h.audioFormat < U16Limit && h.numChannels < U16Limit && h.blockAlign < U16Limit && h.bitsPerSample < U16Limit
  }

  function DecodeHeader(b: seq<byte>): WavHeader
    requires |b| == HeaderSize
  {
    WavHeader(b[0..4], LittleEndian(b[4..8]), b[8..12], b[12..16], LittleEndian(b[16..20]),
              LittleEndian(b[20..22]), LittleEndian(b[22..24]), LittleEndian(b[24..28]),
              LittleEndian(b[28..32]), LittleEndian(b[32..34]), LittleEndian(b[34..36]))
  }

  function EncodeHeader(h: WavHeader): (b: seq<byte>)
    requires HeaderFits(h)
    ensures |b| == HeaderSize
  {
    h.riff + Encode(h.fileSize, 4) + h.wave + h.fmt + Encode(h.fmtSize, 4) +
    Encode(h.audioFormat, 2) + Encode(h.numChannels, 2) + Encode(h.sampleRate, 4) +
    Encode(h.byteRate, 4) + Encode(h.blockAlign, 2) + Encode(h.bitsPerSample, 2)
  }

  /** Where each field of a written header sits. */
  lemma HeaderLayout(h: WavHeader)
    requires HeaderFits(h)
    ensures var b := EncodeHeader(h);
      b[0..4] == h.riff && b[4..8] == Encode(h.fileSize, 4) && b[8..12] == h.wave && b[12..16] == h.fmt &&
      b[16..20] == Encode(h.fmtSize, 4) && b[20..22] == Encode(h.audioFormat, 2) &&
      b[22..24] == Encode(h.numChannels, 2) && b[24..28] == Encode(h.sampleRate, 4) &&
      b[28..32] == Encode(h.byteRate, 4) && b[32..34] == Encode(h.blockAlign, 2) &&
      b[34..36] == Encode(h.bitsPerSample, 2)
  {
    var front := h.riff + Encode(h.fileSize, 4) + h.wave + h.fmt + Encode(h.fmtSize, 4);
    var back := Encode(h.audioFormat, 2) + Encode(h.numChannels, 2) + Encode(h.sampleRate, 4) +
                Encode(h.byteRate, 4) + Encode(h.blockAlign, 2) + Encode(h.bitsPerSample, 2);
    assert EncodeHeader(h) == front + back;
    FrontLayout(h.riff, Encode(h.fileSize, 4), h.wave, h.fmt, Encode(h.fmtSize, 4), back);
    BackLayout(front, Encode(h.audioFormat, 2), Encode(h.numChannels, 2), Encode(h.sampleRate, 4),
               Encode(h.byteRate, 4), Encode(h.blockAlign, 2), Encode(h.bitsPerSample, 2));
  }

  lemma FrontLayout(p0: seq<byte>, p1: seq<byte>, p2: seq<byte>, p3: seq<byte>, p4: seq<byte>, rest: seq<byte>)
    requires |p0| == |p1| == |p2| == |p3| == |p4| == 4
    ensures var b := p0 + p1 + p2 + p3 + p4 + rest;
      b[0..4] == p0 && b[4..8] == p1 && b[8..12] == p2 && b[12..16] == p3 && b[16..20] == p4
  {
  }

  lemma BackLayout(front: seq<byte>, q0: seq<byte>, q1: seq<byte>, q2: seq<byte>, q3: seq<byte>, q4: seq<byte>, q5: seq<byte>)
    requires |front| == 20 && |q0| == |q1| == 2 && |q2| == |q3| == 4 && |q4| == |q5| == 2
    ensures var b := front + (q0 + q1 + q2 + q3 + q4 + q5);
      b[20..22] == q0 && b[22..24] == q1 && b[24..28] == q2 && b[28..32] == q3 && b[32..34] == q4 && b[34..36] == q5
  {
    var q := q0 + q1 + q2 + q3 + q4 + q5;
    assert q[0..2] == q0 && q[2..4] == q1 && q[4..8] == q2 && q[8..12] == q3 && q[12..14] == q4 && q[14..16] == q5;
  }

  /** Reading a written header gives it back. */
  lemma HeaderRoundTrip(h: WavHeader)
    requires HeaderFits(h)
    ensures DecodeHeader(EncodeHeader(h)) == h
  {
    Pow256Widths();
    HeaderLayout(h);
    DecodeEncode(h.fileSize, 4);
    DecodeEncode(h.fmtSize, 4);
    DecodeEncode(h.audioFormat, 2);
    DecodeEncode(h.numChannels, 2);
    DecodeEncode(h.sampleRate, 4);
    DecodeEncode(h.byteRate, 4);
    DecodeEncode(h.blockAlign, 2);
    DecodeEncode(h.bitsPerSample, 2);
  }

  /** Every 36 bytes are the encoding of the header they read as. */
  lemma HeaderBytesRoundTrip(b: seq<byte>)
    requires |b| == HeaderSize
    ensures HeaderFits(DecodeHeader(b)) && EncodeHeader(DecodeHeader(b)) == b
  {
    Pow256Widths();
    EncodeDecode(b[4..8]);
    EncodeDecode(b[16..20]);
    EncodeDecode(b[20..22]);
    EncodeDecode(b[22..24]);
    EncodeDecode(b[24..28]);
    EncodeDecode(b[28..32]);
    EncodeDecode(b[32..34]);
    EncodeDecode(b[34..36]);
    assert b == b[0..4] + b[4..8] + b[8..12] + b[12..16] + b[16..20] + b[20..22] + b[22..24] +
                b[24..28] + b[28..32] + b[32..34] + b[34..36];
  }

  // ---------------------------------------------------------------------
  // Chunks and the scan for "data".

  /** The rest of a file after seeking to n (nothing when n is past the end). */
  function Tail(bytes: seq<byte>, n: nat): (r: seq<byte>)
    ensures |r| == if n <= |bytes| then |bytes| - n else 0
  {
    if n <= |bytes| then bytes[n..] else []
  }

  /** A "data" chunk found by the scan: its declared size and what follows its header. */
  datatype DataChunk = DataChunk(size: nat, payload: seq<byte>)

  /** The declared size in the 8-byte chunk header at the start of t. */
  function ChunkSize(t: seq<byte>): nat
    requires 8 <= |t|
  {
    LittleEndian(t[4..8])
  }

  /** The chunk loop of loadWAV on the bytes from the current position:
      an 8-byte chunk header either names "data" or is skipped together
      with its declared size. */
  function ScanChunks(t: seq<byte>): Option<DataChunk>
    decreases |t|
  {
    if |t| < 8 then None
    else if TagAt(t, 0, DataTag) then Some(DataChunk(ChunkSize(t), t[8..]))
    else ScanChunks(Tail(t, 8 + ChunkSize(t)))
  }

  /** The round of the chunk loop that stops at "data". */
  lemma ScanStop(t: seq<byte>)
    requires 8 <= |t| && TagAt(t, 0, DataTag)
    ensures ScanChunks(t) == Some(DataChunk(ChunkSize(t), t[8..]))
  {
  }

  /** One round of the chunk loop that does not stop. */
  lemma ScanSkip(t: seq<byte>)
    requires 8 <= |t| && !TagAt(t, 0, DataTag)
    ensures ScanChunks(t) == ScanChunks(Tail(t, 8 + ChunkSize(t)))
  {
  }

  /** The scan finds nothing in fewer than 8 bytes. */
  lemma ScanNeedsHeader(t: seq<byte>)
    requires ScanChunks(t).Some?
    ensures 8 <= |t|
  {
  }

  /** A chunk header naming "data" with the given size starts at index i of t. */
  predicate DataHeaderAt(t: seq<byte>, i: int, size: nat) {
    0 <= i && i + 8 <= |t| && TagAt(t, i, DataTag) && LittleEndian(t[i + 4..i + 8]) == size
  }

  /** What the scan reports is a chunk header tagged "data" in its input,
      starting at i, with the bytes after that header as the payload. */
  lemma {:induction false} ScanFindsDataHeader(t: seq<byte>, c: DataChunk) returns (i: int)
    requires ScanChunks(t) == Some(c)
    ensures DataHeaderAt(t, i, c.size) && c.payload == t[i + 8..]
    decreases |t|
  {
    ScanNeedsHeader(t);
    if TagAt(t, 0, DataTag) {
      FoundHere(t, c);
      i := 0;
    } else {
      ScanSkip(t);
      var n := 8 + ChunkSize(t);
      var j := ScanFindsDataHeader(Tail(t, n), c);
      i := n + j;
      HeaderInSuffix(t, n, j, c);
    }
  }

  lemma FoundHere(t: seq<byte>, c: DataChunk)
    requires 8 <= |t| && TagAt(t, 0, DataTag) && ScanChunks(t) == Some(c)
    ensures DataHeaderAt(t, 0, c.size) && c.payload == t[8..]
  {
    ScanStop(t);
  }

  lemma HeaderInSuffix(t: seq<byte>, n: nat, j: int, c: DataChunk)
    requires DataHeaderAt(Tail(t, n), j, c.size) && c.payload == Tail(t, n)[j + 8..]
    ensures DataHeaderAt(t, n + j, c.size) && c.payload == t[n + j + 8..]
  {
    assert Tail(t, n)[j + 4..j + 8] == t[n + j + 4..n + j + 8];
  }

  /** loadWAV's chunk loop over a file, from byte `start` on: `rest` is
      what the stream still holds; every chunk that is not "data" is
      skipped by its declared size. */
  method FindDataChunk(bytes: seq<byte>, start: nat) returns (found: Option<DataChunk>)
    ensures found == ScanChunks(Tail(bytes, start))
  {
    var rest := Tail(bytes, start);
    ghost var target := ScanChunks(rest);
    while 8 <= |rest|
      invariant ScanChunks(rest) == target
      decreases |rest|
    {
      var stop, next;
      stop, found, next := ReadChunk(rest);
      if stop {
        return;
      }
      rest := next;
    }
    return None;
  }

  /** One round of the chunk loop: a "data" header stops the scan with the
      chunk found; any other chunk is skipped by its declared size. */
  method ReadChunk(rest: seq<byte>) returns (stop: bool, found: Option<DataChunk>, next: seq<byte>)
    requires 8 <= |rest|
    ensures stop ==> found == ScanChunks(rest)
    ensures !stop ==> |next| < |rest| && ScanChunks(next) == ScanChunks(rest)
  {
    var size := ChunkSize(rest);
    if TagAt(rest, 0, DataTag) {
      ScanStop(rest);
      return true, Some(DataChunk(size, rest[8..])), rest;
    }
    ScanSkip(rest);
    return false, None, Tail(rest, 8 + size);
  }

  function Zeros(n: nat): (r: seq<byte>)
    ensures |r| == n && forall i :: 0 <= i < n ==> r[i] == 0
  {
    seq(n, _ => 0)
  }

  /** The vector<char> of chunkSize bytes after file.read: what the file
      still holds, zero-filled up to the declared size. */
  function ChunkData(c: DataChunk): (r: seq<byte>)
    ensures |r| == c.size
    ensures c.size <= |c.payload| ==> r == c.payload[..c.size]
    ensures c.size > |c.payload| ==> r[..|c.payload|] == c.payload &&
                                     forall i :: |c.payload| <= i < c.size ==> r[i] == 0
  {
    if c.size <= |c.payload| then c.payload[..c.size] else c.payload + Zeros(c.size - |c.payload|)
  }

  // ---------------------------------------------------------------------
  // The WAV reader.

  datatype Format = Mono8 | Mono16 | Stereo8 | Stereo16

  predicate IsMono(f: Format) {
    f == Mono8 || f == Mono16
  }

  predicate Is8Bit(f: Format) {
    f == Mono8 || f == Stereo8
  }

  /** loadWAV's format choice: one channel is mono, anything else stereo;
      8 bits per sample is 8-bit, anything else 16-bit. */
  function FormatOf(numChannels: nat, bitsPerSample: nat): (f: Format)
    ensures IsMono(f) <==> numChannels == 1
    ensures Is8Bit(f) <==> bitsPerSample == 8
  {
    if numChannels == 1 then (if bitsPerSample == 8 then Mono8 else Mono16)
    else (if bitsPerSample == 8 then Stereo8 else Stereo16)
  }

  /** Where the chunk scan starts: after the header and any fmt bytes beyond 16. */
  function ChunksStart(fmtSize: nat): (r: nat)
    ensures r >= HeaderSize
    ensures r == HeaderSize + fmtSize - FmtBaseSize || (fmtSize <= FmtBaseSize && r == HeaderSize)
  {
    HeaderSize + (if fmtSize > FmtBaseSize then fmtSize - FmtBaseSize else 0)
  }

  datatype WavError = BadHeader | NoDataChunk
  datatype WavResult = WavFailed(error: WavError) | WavParsed(format: Format, data: seq<byte>, sampleRate: nat)

  predicate TagsValid(h: WavHeader)
    requires |h.riff| == 4 && |h.wave| == 4
  {
    TagAt(h.riff, 0, RiffTag) && TagAt(h.wave, 0, WaveTag)
  }

  /** What loadWAV hands to alBufferData for a file's bytes, or why it fails first. */
  function ParseWav(bytes: seq<byte>): WavResult {
    if |bytes| < HeaderSize then WavFailed(BadHeader)
    else
      var h := DecodeHeader(bytes[..HeaderSize]);
      if !TagsValid(h) then WavFailed(BadHeader)
      else match ScanChunks(Tail(bytes, ChunksStart(h.fmtSize)))
        case None => WavFailed(NoDataChunk)
        case Some(c) => WavParsed(FormatOf(h.numChannels, h.bitsPerSample), ChunkData(c), h.sampleRate)
  }

  /** A file is rejected before the chunk scan exactly when it is shorter
      than the header or does not start with "RIFF" ... "WAVE"; the "fmt "
      tag is not looked at. */
  lemma HeaderRejection(bytes: seq<byte>)
    ensures ParseWav(bytes) == WavFailed(BadHeader) <==>
            |bytes| < HeaderSize || !TagAt(bytes, 0, RiffTag) || !TagAt(bytes, 8, WaveTag)
  {
    if |bytes| >= HeaderSize {
      var h := DecodeHeader(bytes[..HeaderSize]);
      assert h.riff == bytes[0..4] && h.wave == bytes[8..12];
      assert TagAt(h.riff, 0, RiffTag) == TagAt(bytes, 0, RiffTag);
      assert TagAt(h.wave, 0, WaveTag) == TagAt(bytes, 8, WaveTag);
    }
  }

  /** loadWAV on a file's bytes, with its chunk loop. */
  method ReadWav(bytes: seq<byte>) returns (r: WavResult)
    ensures r == ParseWav(bytes)
  {
    if |bytes| < HeaderSize {
      return WavFailed(BadHeader);
    }
    var h := DecodeHeader(bytes[..HeaderSize]);
    if !TagAt(h.riff, 0, RiffTag) || !TagAt(h.wave, 0, WaveTag) {
      return WavFailed(BadHeader);
    }
    var found := FindDataChunk(bytes, ChunksStart(h.fmtSize));
    if found.None? {
      return WavFailed(NoDataChunk);
    }
    r := WavParsed(FormatOf(h.numChannels, h.bitsPerSample), ChunkData(found.value), h.sampleRate);
  }

  // Writing WAV files, the partner of the reader.

  datatype Chunk = Chunk(id: seq<byte>, body: seq<byte>)

  predicate ChunkFits(c: Chunk) {
    |c.id| == 4 && |c.body| < U32Limit
  }

  function ChunkBytes(c: Chunk): (r: seq<byte>)
    requires ChunkFits(c)
    ensures |r| == 8 + |c.body|
  {
    c.id + Encode(|c.body|, 4) + c.body
  }

  function ChunksBytes(cs: seq<Chunk>): seq<byte>
    requires forall i :: 0 <= i < |cs| ==> ChunkFits(cs[i])
  {
    if cs == [] then [] else ChunkBytes(cs[0]) + ChunksBytes(cs[1..])
  }

  /** A WAV file: header, the fmt bytes beyond 16, other chunks, the data chunk, anything after. */
  function WavBytes(h: WavHeader, fmtExtra: seq<byte>, chunks: seq<Chunk>, data: seq<byte>, trailer: seq<byte>): seq<byte>
    requires HeaderFits(h) && |data| < U32Limit
    requires forall i :: 0 <= i < |chunks| ==> ChunkFits(chunks[i])
  {
    EncodeHeader(h) + fmtExtra + ChunksBytes(chunks) + ChunkBytes(Chunk(DataTag, data)) + trailer
  }

  lemma ChunkHeader(c: Chunk, t: seq<byte>)
    requires ChunkFits(c)
    ensures var x := ChunkBytes(c) + t;
      |x| >= 8 && (TagAt(x, 0, DataTag) <==> TagAt(c.id, 0, DataTag)) && ChunkSize(x) == |c.body| &&
      Tail(x, 8 + |c.body|) == t && x[8..] == c.body + t
  {
    Pow256Widths();
    var x := ChunkBytes(c) + t;
    assert x[4..8] == Encode(|c.body|, 4);
    DecodeEncode(|c.body|, 4);
    assert x[8..] == c.body + t;
  }

  /** The scan steps over a chunk that is not "data". */
  lemma ScanSkipsChunk(c: Chunk, t: seq<byte>)
    requires ChunkFits(c) && !TagAt(c.id, 0, DataTag)
    ensures ScanChunks(ChunkBytes(c) + t) == ScanChunks(t)
  {
    ChunkHeader(c, t);
  }

  lemma {:induction false} ScanSkipsChunks(cs: seq<Chunk>, t: seq<byte>)
    requires forall i :: 0 <= i < |cs| ==> ChunkFits(cs[i]) && !TagAt(cs[i].id, 0, DataTag)
    ensures ScanChunks(ChunksBytes(cs) + t) == ScanChunks(t)
  {
    if cs != [] {
      var rest := ChunksBytes(cs[1..]) + t;
      assert ChunksBytes(cs) == ChunkBytes(cs[0]) + ChunksBytes(cs[1..]);
      assert ChunksBytes(cs) + t == ChunkBytes(cs[0]) + rest;
      assert forall i :: 0 <= i < |cs[1..]| ==> cs[1..][i] == cs[i + 1];
      ScanSkipsChunk(cs[0], rest);
      ScanSkipsChunks(cs[1..], t);
    } else {
      assert ChunksBytes(cs) + t == t;
    }
  }

  /** A header followed by padding: the header is the prefix and what
      follows the padding is the tail. */
  lemma HeadAndTail(head: seq<byte>, extra: seq<byte>, rest: seq<byte>, n: nat)
    requires |head| + |extra| == n
    ensures (head + (extra + rest))[..|head|] == head
    ensures Tail(head + (extra + rest), n) == rest
  {
    assert (head + (extra + rest))[n..] == rest;
  }

  /** Reading a written WAV file gives back its format, its samples and its
      rate, whatever other chunks precede the data chunk. */
  lemma WavRoundTrip(h: WavHeader, fmtExtra: seq<byte>, chunks: seq<Chunk>, data: seq<byte>, trailer: seq<byte>)
    requires HeaderFits(h) && TagsValid(h) && |data| < U32Limit
    requires HeaderSize + |fmtExtra| == ChunksStart(h.fmtSize)
    requires forall i :: 0 <= i < |chunks| ==> ChunkFits(chunks[i]) && !TagAt(chunks[i].id, 0, DataTag)
    ensures ParseWav(WavBytes(h, fmtExtra, chunks, data, trailer)) ==
            WavParsed(FormatOf(h.numChannels, h.bitsPerSample), data, h.sampleRate)
  {
    var bytes := WavBytes(h, fmtExtra, chunks, data, trailer);
    var dataChunk := Chunk(DataTag, data);
    var afterChunks := ChunkBytes(dataChunk) + trailer;
    var rest := ChunksBytes(chunks) + afterChunks;
    assert bytes == EncodeHeader(h) + (fmtExtra + rest);
    HeadAndTail(EncodeHeader(h), fmtExtra, rest, ChunksStart(h.fmtSize));
    HeaderRoundTrip(h);
    ScanSkipsChunks(chunks, afterChunks);
    ChunkHeader(dataChunk, trailer);
    assert ScanChunks(afterChunks) == Some(DataChunk(|data|, data + trailer));
    assert DecodeHeader(bytes[..HeaderSize]) == h;
    assert ScanChunks(Tail(bytes, ChunksStart(h.fmtSize))) == Some(DataChunk(|data|, data + trailer));
    assert (data + trailer)[..|data|] == data;
  }

  // ---------------------------------------------------------------------
  // Decoded audio and the downmix (loadOGG, loadMP3).

  const ShortMin: int := -0x8000
  const ShortMax: int := 0x7fff

  predicate IsShort(x: int) {
    ShortMin <= x <= ShortMax
  }

  /** C's int division by 2, which truncates toward zero. */
  function TruncHalf(s: int): int {
    if s >= 0 then s / 2 else -((-s) / 2)
  }

  /** Truncation is symmetric: halving -s is minus halving s, which flooring
      division is not (-3 halves to -1, not to -2). */
  lemma TruncHalfOdd(s: int)
    ensures TruncHalf(-s) == -TruncHalf(s)
    ensures TruncHalf(-3) == -1 && -3 / 2 == -2
  {
  }

  /** The average of two samples lies between them, so it is again a short
      and the (short) cast in the downmix never wraps. */
  lemma AverageBetween(l: int, r: int)
    ensures (if l <= r then l else r) <= TruncHalf(l + r) <= (if l <= r then r else l)
  {
  }

  /** The mono samples of `frames` interleaved stereo frames. */
  function Downmixed(pcm: seq<int>, frames: nat): (r: seq<int>)
    requires 2 * frames <= |pcm|
    ensures |r| == frames
  {
    seq(frames, i requires 0 <= i < frames => TruncHalf(pcm[2 * i] + pcm[2 * i + 1]))
  }

  lemma DownmixKeepsShorts(pcm: seq<int>, frames: nat)
    requires 2 * frames <= |pcm|
    requires forall k :: 0 <= k < |pcm| ==> IsShort(pcm[k])
    ensures forall i :: 0 <= i < frames ==> IsShort(Downmixed(pcm, frames)[i])
  {
    forall i | 0 <= i < frames
      ensures IsShort(Downmixed(pcm, frames)[i])
    {
      AverageBetween(pcm[2 * i], pcm[2 * i + 1]);
    }
  }

  /** When both channels carry the same signal, the downmix is that signal. */
  lemma DownmixOfDuplicated(pcm: seq<int>, frames: nat)
    requires 2 * frames <= |pcm|
    requires forall i :: 0 <= i < frames ==> pcm[2 * i] == pcm[2 * i + 1]
    ensures forall i :: 0 <= i < frames ==> Downmixed(pcm, frames)[i] == pcm[2 * i]
  {
  }

  /** Inverting both channels inverts the downmix. */
  lemma DownmixNegated(pcm: seq<int>, neg: seq<int>, frames: nat)
    requires 2 * frames <= |pcm| == |neg|
    requires forall k :: 0 <= k < |pcm| ==> neg[k] == -pcm[k]
    ensures forall i :: 0 <= i < frames ==> Downmixed(neg, frames)[i] == -Downmixed(pcm, frames)[i]
  {
    forall i | 0 <= i < frames
      ensures Downmixed(neg, frames)[i] == -Downmixed(pcm, frames)[i]
    {
      TruncHalfOdd(pcm[2 * i] + pcm[2 * i + 1]);
    }
  }

  /** The downmix loop of loadOGG and loadMP3, writing a fresh array. */
  method Downmix(pcm: seq<int>, frames: nat) returns (mono: array<int>)
    requires 2 * frames <= |pcm|
    ensures mono[..] == Downmixed(pcm, frames)
  {
    mono := new int[frames];
    var i := 0;
    while i < frames
      invariant 0 <= i <= frames
      invariant forall k :: 0 <= k < i ==> mono[k] == TruncHalf(pcm[2 * k] + pcm[2 * k + 1])
    {
      var left := pcm[2 * i];
      var right := pcm[2 * i + 1];
      mono[i] := TruncHalf(left + right);
      i := i + 1;
    }
  }

  /** A decoder's output: channel count, rate, frame count (samples per
      channel) and the interleaved 16-bit samples. */
  datatype Pcm = Pcm(channels: int, sampleRate: int, frames: int, samples: seq<int>)

  /** The decoder holds at least the samples the loader reads. */
  predicate PcmFits(p: Pcm) {
    p.frames <= 0 || (if p.channels == 2 then 2 * p.frames else p.frames) <= |p.samples|
  }

  /** The 16-bit mono samples uploaded: the downmix of stereo, otherwise the
      first `frames` samples as they are. */
  function MonoSamples(p: Pcm): (r: seq<int>)
    requires p.frames >= 0 && PcmFits(p)
    ensures |r| == p.frames
    ensures p.channels == 1 ==> r == p.samples[..p.frames]
  {
    if p.channels == 2 then Downmixed(p.samples, p.frames) else p.samples[..p.frames]
  }

  method ToMono(p: Pcm) returns (mono: seq<int>)
    requires p.frames >= 0 && PcmFits(p)
    ensures mono == MonoSamples(p)
  {
    if p.channels == 2 {
      var a := Downmix(p.samples, p.frames);
      mono := a[..];
    } else {
      mono := p.samples[..p.frames];
    }
  }

  // ---------------------------------------------------------------------
  // The OpenAL error flag around the MP3 upload.

  /** alGetError: the pending error is reported and cleared. */
  function GetError(pending: bool): (r: (bool, bool))
    ensures r.0 == pending && !r.1
  {
    (pending, false)
  }

  /** loadMP3's result once decoding succeeded, as written: the flag is
      cleared, alBufferData may set it, the flag is read into bufferError
      (and only logged), and the final check reads the flag once more. */
  function Mp3ReportsSuccessAsWritten(pendingBefore: bool, uploadFails: bool): (r: bool)
    ensures r
  {
    var cleared := GetError(pendingBefore).1;
    var afterUpload := cleared || uploadFails;
    var bufferCheck := GetError(afterUpload);
    var finalCheck := GetError(bufferCheck.1);
    !finalCheck.0
  }

  /** The final check never sees the upload's error: a decoded MP3 is
      reported as loaded whether or not alBufferData failed. */
  lemma Mp3UploadFailureIgnored(pendingBefore: bool, uploadFails: bool)
    ensures Mp3ReportsSuccessAsWritten(pendingBefore, uploadFails)
  {
  }

  /** The corrected result: the check after the upload decides, so a
      decoded MP3 is loaded exactly when the upload succeeded. */
  function Mp3ReportsSuccess(pendingBefore: bool, uploadFails: bool): (r: bool)
    ensures r <==> !uploadFails
  {
    var cleared := GetError(pendingBefore).1;
    var afterUpload := cleared || uploadFails;
    !GetError(afterUpload).0
  }

  /** Whether a loader reports its upload as done. loadWAV and loadOGG read
      the flag once after alBufferData without clearing it first, so an
      error left pending by an earlier call fails them as well. */
  function UploadReported(loader: Loader, pendingBefore: bool, uploadFails: bool): (r: bool)
    ensures r ==> !uploadFails
    ensures loader == Mp3Loader ==> (r <==> !uploadFails)
    ensures (loader == WavLoader || loader == OggLoader) ==> (r <==> !pendingBefore && !uploadFails)
    ensures loader == NoLoader ==> !r
  {
    match loader
    case WavLoader => !GetError(pendingBefore || uploadFails).0
    case OggLoader => !GetError(pendingBefore || uploadFails).0
    case Mp3Loader => Mp3ReportsSuccess(pendingBefore, uploadFails)
    case NoLoader => false
  }

  // ---------------------------------------------------------------------
  // What a loader uploads.

  /** What the outside world answers for one file: the file's bytes if it
      opens, stb_vorbis's result (frames <= 0 on failure), dr_mp3's result
      (None on failure), whether an OpenAL error is pending from an earlier
      call, and whether alBufferData sets an error. */
  datatype Backend = Backend(file: Option<seq<byte>>, vorbis: Pcm, mp3: Option<Pcm>,
                             pendingError: bool, uploadFails: bool)

  predicate DecodersFit(env: Backend) {
    PcmFits(env.vorbis) && (env.mp3.Some? ==> env.mp3.value.frames >= 0 && PcmFits(env.mp3.value))
  }

  datatype BufferData = PcmBytes(format: Format, bytes: seq<byte>, rate: nat) | MonoShorts(samples: seq<int>, sampleRate: int)

  /** What the loader for `loader` hands to alBufferData, or None when it fails before. */
  function Decoded(loader: Loader, env: Backend): Option<BufferData>
    requires DecodersFit(env)
  {
    match loader
    case WavLoader =>
      if env.file.None? then None
      else (match ParseWav(env.file.value)
            case WavFailed(_) => None
            case WavParsed(f, d, rate) => Some(PcmBytes(f, d, rate)))
    case OggLoader =>
      if env.vorbis.frames <= 0 then None
      else Some(MonoShorts(MonoSamples(env.vorbis), env.vorbis.sampleRate))
    case Mp3Loader =>
      if env.mp3.None? then None
      else Some(MonoShorts(MonoSamples(env.mp3.value), env.mp3.value.sampleRate))
    case NoLoader => None
  }

  /** The loader's answer: decoded, and the upload reported as done. */
  predicate LoadsInto(loader: Loader, env: Backend)
    requires DecodersFit(env)
  {
    Decoded(loader, env).Some? && UploadReported(loader, env.pendingError, env.uploadFails)
  }

  /** The dispatch of loadSound on the extension, up to the upload. */
  method Dispatch(ext: string, env: Backend) returns (upload: Option<BufferData>)
    requires DecodersFit(env)
    ensures upload == Decoded(LoaderFor(ext), env)
  {
    upload := None;
    if ext == "wav" {
      if env.file.Some? {
        var r := ReadWav(env.file.value);
        if r.WavParsed? {
          upload := Some(PcmBytes(r.format, r.data, r.sampleRate));
        }
      }
    } else if ext == "ogg" {
      if env.vorbis.frames > 0 {
        var mono := ToMono(env.vorbis);
        upload := Some(MonoShorts(mono, env.vorbis.sampleRate));
      }
    } else if ext == "mp3" {
      if env.mp3.Some? {
        var mono := ToMono(env.mp3.value);
        upload := Some(MonoShorts(mono, env.mp3.value.sampleRate));
      }
    }
  }

  // ---------------------------------------------------------------------
  // The buffer cache (loadSound).

  datatype LoadOutcome = LoadOutcome(buffer: nat, cache: map<string, nat>)

  /** loadSound on the cache: a hit answers the cached buffer; otherwise the
      fresh buffer is cached on success and 0 is answered on failure. */
  function Loaded(cache: map<string, nat>, filename: string, generated: nat, env: Backend): LoadOutcome
    requires DecodersFit(env)
  {
    if filename in cache then LoadOutcome(cache[filename], cache)
    else if LoadsInto(LoaderFor(FileExtension(filename)), env) then
      LoadOutcome(generated, cache[filename := generated])
    else LoadOutcome(0, cache)
  }

  /** Failure is answered with 0 and leaves the cache as it was; any other
      answer is the name's cache entry afterwards. */
  lemma LoadAnswer(cache: map<string, nat>, filename: string, generated: nat, env: Backend)
    requires DecodersFit(env) && generated != 0 && 0 !in cache.Values
    ensures var o := Loaded(cache, filename, generated, env);
      (o.buffer == 0 <==> filename !in o.cache) &&
      (o.buffer == 0 ==> o.cache == cache) &&
      (o.buffer != 0 ==> o.cache[filename] == o.buffer && o.cache - {filename} == cache - {filename})
  {
    if filename in cache {
      assert cache[filename] in cache.Values;
    }
  }

  /** Loading the same name again answers the same buffer and changes nothing. */
  lemma LoadAgainHits(cache: map<string, nat>, filename: string, g1: nat, g2: nat, e1: Backend, e2: Backend)
    requires DecodersFit(e1) && DecodersFit(e2) && g1 != 0 && 0 !in cache.Values
    requires Loaded(cache, filename, g1, e1).buffer != 0
    ensures var o := Loaded(cache, filename, g1, e1);
      Loaded(o.cache, filename, g2, e2) == o
  {
    LoadAnswer(cache, filename, g1, e1);
  }

  /** loadSound as written: the same cache logic, with loadMP3's check as
      written, so a decoded MP3 is cached whether or not its upload failed. */
  function LoadedAsWritten(cache: map<string, nat>, filename: string, generated: nat, env: Backend): (r: LoadOutcome)
    requires DecodersFit(env)
    ensures filename in cache ==> r == LoadOutcome(cache[filename], cache)
    ensures filename !in cache && LoaderFor(FileExtension(filename)) == Mp3Loader ==>
              (filename in r.cache <==> Decoded(Mp3Loader, env).Some?)
  {
    var loader := LoaderFor(FileExtension(filename));
    var reported :=
      if loader == Mp3Loader then Mp3ReportsSuccessAsWritten(env.pendingError, env.uploadFails)
      else UploadReported(loader, env.pendingError, env.uploadFails);
    if filename in cache then LoadOutcome(cache[filename], cache)
    else if Decoded(loader, env).Some? && reported then
      LoadOutcome(generated, cache[filename := generated])
    else LoadOutcome(0, cache)
  }

  /** The code as written and the corrected load part exactly on a new MP3
      name that decodes but whose upload fails; there the code as written
      caches the buffer. */
  lemma AsWrittenDiffersOnFailedMp3(cache: map<string, nat>, filename: string, generated: nat, env: Backend)
    requires DecodersFit(env)
    ensures var loader := LoaderFor(FileExtension(filename));
      LoadedAsWritten(cache, filename, generated, env) != Loaded(cache, filename, generated, env) <==>
        filename !in cache && loader == Mp3Loader && env.mp3.Some? && env.uploadFails
    ensures var loader := LoaderFor(FileExtension(filename));
      filename !in cache && loader == Mp3Loader && env.mp3.Some? && env.uploadFails ==>
        LoadedAsWritten(cache, filename, generated, env) == LoadOutcome(generated, cache[filename := generated]) &&
        Loaded(cache, filename, generated, env) == LoadOutcome(0, cache)
  {
    var loader := LoaderFor(FileExtension(filename));
    if filename !in cache && loader == Mp3Loader && env.mp3.Some? {
      Mp3UploadFailureIgnored(env.pendingError, env.uploadFails);
      assert filename in cache[filename := generated];
    }
  }

  /** A mono MP3 of one sample that decodes but whose upload fails: the code
      as written caches buffer 1 under "a.mp3", the corrected load answers 0. */
  lemma FailedMp3UploadCached()
    ensures var env := Backend(None, Pcm(1, 44100, 0, []), Some(Pcm(1, 44100, 1, [7])), false, true);
      LoadedAsWritten(map[], "a.mp3", 1, env) == LoadOutcome(1, map["a.mp3" := 1]) &&
      Loaded(map[], "a.mp3", 1, env) == LoadOutcome(0, map[])
  {
    ExtensionOfName("a", "mp3");
    assert Lower("mp3") == "mp3";
    assert "a" + "." + "mp3" == "a.mp3";
    var env := Backend(None, Pcm(1, 44100, 0, []), Some(Pcm(1, 44100, 1, [7])), false, true);
    AsWrittenDiffersOnFailedMp3(map[], "a.mp3", 1, env);
  }

  /** A new entry needs a supported extension, a decoded file and an upload without error. */
  lemma NewEntryNeedsUpload(cache: map<string, nat>, filename: string, generated: nat, env: Backend)
    requires DecodersFit(env) && filename !in cache
    requires filename in Loaded(cache, filename, generated, env).cache
    ensures LoaderFor(FileExtension(filename)) != NoLoader
    ensures Decoded(LoaderFor(FileExtension(filename)), env).Some? && !env.uploadFails
  {
  }

  // ---------------------------------------------------------------------
  // Expired sources (update).

  /** The sources left after removing the expired ones, in their order. */
  function Pruned(s: seq<nat>, expired: set<nat>): seq<nat>
    decreases |s|
  {
    if s == [] then []
    else Pruned(s[..|s| - 1], expired) + (if s[|s| - 1] in expired then [] else [s[|s| - 1]])
  }

  lemma {:induction false} PrunedMembers(s: seq<nat>, expired: set<nat>, x: nat)
    ensures x in Pruned(s, expired) <==> x in s && x !in expired
    decreases |s|
  {
    if s != [] {
      PrunedMembers(s[..|s| - 1], expired, x);
      assert s == s[..|s| - 1] + [s[|s| - 1]];
    }
  }

  /** Pruning works piece by piece, so what stays keeps its order. */
  lemma {:induction false} PrunedAppend(a: seq<nat>, b: seq<nat>, expired: set<nat>)
    ensures Pruned(a + b, expired) == Pruned(a, expired) + Pruned(b, expired)
    decreases |b|
  {
    if b != [] {
      var b' := b[..|b| - 1];
      var last: seq<nat> := if b[|b| - 1] in expired then [] else [b[|b| - 1]];
      assert (a + b)[..|a + b| - 1] == a + b';
      assert (a + b)[|a + b| - 1] == b[|b| - 1];
      assert Pruned(a + b, expired) == Pruned(a + b', expired) + last;
      assert Pruned(b, expired) == Pruned(b', expired) + last;
      PrunedAppend(a, b', expired);
    } else {
      assert a + b == a;
    }
  }

  lemma {:induction false} PrunedIdempotent(s: seq<nat>, expired: set<nat>)
    ensures Pruned(Pruned(s, expired), expired) == Pruned(s, expired)
    decreases |s|
  {
    if s != [] {
      var init := s[..|s| - 1];
      var last: seq<nat> := if s[|s| - 1] in expired then [] else [s[|s| - 1]];
      PrunedIdempotent(init, expired);
      PrunedAppend(Pruned(init, expired), last, expired);
      if last != [] {
        assert last[..0] == [];
      }
    }
  }

  /** std::remove_if over the source list: the survivors, in order. */
  method Prune(s: seq<nat>, expired: set<nat>) returns (kept: seq<nat>)
    ensures kept == Pruned(s, expired)
  {
    kept := [];
    var i := 0;
    while i < |s|
      invariant 0 <= i <= |s|
      invariant kept == Pruned(s[..i], expired)
    {
      assert s[..i + 1][..i] == s[..i];
      if s[i] !in expired {
        kept := kept + [s[i]];
      }
      i := i + 1;
    }
    assert s[..i] == s;
  }

  // ---------------------------------------------------------------------
  // The audio system.

  class AudioSystem {
    var initialized: bool
    /** Whether an OpenAL device is open / a context exists. */
    var device: bool
    var context: bool
    /** File name to buffer, the cache of loadSound. */
    var loadedBuffers: map<string, nat>
    /** The OpenAL buffers loadSound filled and has not deleted, with their data. */
    var buffers: map<nat, BufferData>
    /** The live-or-expired handles of created 2D and 3D sources. */
    var sources: seq<nat>
    var sources3D: seq<nat>
    var masterVolume: real

    /** The device and context exist exactly while initialized, buffer 0
        is never cached, every cached buffer is alive, and no two names
        share one. */
    predicate Valid()
      reads this
    {
      device == initialized && context == initialized &&
      0 !in buffers &&
      (forall f :: f in loadedBuffers ==> loadedBuffers[f] in buffers) &&
      (forall f, g :: f in loadedBuffers && g in loadedBuffers && f != g ==> loadedBuffers[f] != loadedBuffers[g])
    }

    constructor()
      ensures Valid() && !initialized
      ensures loadedBuffers == map[] && buffers == map[] && sources == [] && sources3D == []
      ensures masterVolume == 1.0
    {
      initialized := false;
      device := false;
      context := false;
      loadedBuffers := map[];
      buffers := map[];
      sources := [];
      sources3D := [];
      masterVolume := 1.0;
    }

    /** init, given whether the device opens, the context is created and made current. */
    method Init(deviceOpens: bool, contextCreated: bool, madeCurrent: bool) returns (ok: bool)
      requires Valid()
      modifies this
      ensures Valid()
      ensures old(initialized) ==> ok && initialized
      ensures !old(initialized) ==> ok == (deviceOpens && contextCreated && madeCurrent)
      ensures initialized == (old(initialized) || ok)
      ensures loadedBuffers == old(loadedBuffers) && buffers == old(buffers)
      ensures sources == old(sources) && sources3D == old(sources3D) && masterVolume == old(masterVolume)
    {
      if initialized {
        return true;
      }
      if !deviceOpens {
        return false;
      }
      device := true;
      if !contextCreated {
        device := false;
        return false;
      }
      context := true;
      if !madeCurrent {
        context := false;
        device := false;
        return false;
      }
      initialized := true;
      return true;
    }

    /** shutdown: nothing when not initialized; otherwise the sources and the
        cache are cleared, every cached buffer deleted and the device closed. */
    method Shutdown()
      requires Valid()
      modifies this
      ensures Valid() && !initialized
      ensures !old(initialized) ==> loadedBuffers == old(loadedBuffers) && buffers == old(buffers) &&
                                    sources == old(sources) && sources3D == old(sources3D)
      ensures old(initialized) ==> loadedBuffers == map[] && sources == [] && sources3D == [] &&
                                   buffers == old(buffers) - old(loadedBuffers.Values)
      ensures masterVolume == old(masterVolume)
    {
      if !initialized {
        return;
      }
      DeleteCached();
      sources := [];
      sources3D := [];
      loadedBuffers := map[];
      context := false;
      device := false;
      initialized := false;
    }

    /** The loop of shutdown calling alDeleteBuffers on every cached buffer. */
    method DeleteCached()
      modifies this
      ensures buffers == old(buffers) - loadedBuffers.Values
      ensures loadedBuffers == old(loadedBuffers) && sources == old(sources) && sources3D == old(sources3D)
      ensures initialized == old(initialized) && device == old(device) && context == old(context)
      ensures masterVolume == old(masterVolume)
    {
      var pending := loadedBuffers.Keys;
      ghost var deleted: set<nat> := {};
      while pending != {}
        invariant pending <= loadedBuffers.Keys
        invariant deleted == set f | f in loadedBuffers && f !in pending :: loadedBuffers[f]
        invariant buffers == old(buffers) - deleted
        invariant loadedBuffers == old(loadedBuffers) && sources == old(sources) && sources3D == old(sources3D)
        invariant initialized == old(initialized) && device == old(device) && context == old(context)
        invariant masterVolume == old(masterVolume)
        decreases |pending|
      {
        var f :| f in pending;
        buffers := buffers - {loadedBuffers[f]};
        deleted := deleted + {loadedBuffers[f]};
        pending := pending - {f};
      }
      assert deleted == loadedBuffers.Values;
    }

    /** loadSound, given the name alGenBuffers hands out (an unused, non-zero
        name) and what the file system, decoders and OpenAL answer. */
    method LoadSound(filename: string, generated: nat, env: Backend) returns (buffer: nat)
      requires Valid() && DecodersFit(env)
      requires generated != 0 && generated !in buffers
      modifies this
      ensures Valid()
      ensures buffer == Loaded(old(loadedBuffers), filename, generated, env).buffer
      ensures loadedBuffers == Loaded(old(loadedBuffers), filename, generated, env).cache
      ensures buffers == if filename !in old(loadedBuffers) && buffer != 0
                         then old(buffers)[generated := Decoded(LoaderFor(FileExtension(filename)), env).value]
                         else old(buffers)
      ensures initialized == old(initialized) && device == old(device) && context == old(context)
      ensures sources == old(sources) && sources3D == old(sources3D) && masterVolume == old(masterVolume)
    {
      if filename in loadedBuffers {
        return loadedBuffers[filename];
      }
      var loader := LoaderFor(FileExtension(filename));
      var upload := Dispatch(FileExtension(filename), env);
      if upload.None? || !UploadReported(loader, env.pendingError, env.uploadFails) {
        return 0;
      }
      loadedBuffers := loadedBuffers[filename := generated];
      buffers := buffers[generated := upload.value];
      return generated;
    }

    /** createSource / createSource3D: the new source is remembered at the end. */
    method CreateSource(id: nat)
      modifies this
      ensures sources == old(sources) + [id] && sources3D == old(sources3D)
      ensures loadedBuffers == old(loadedBuffers) && buffers == old(buffers)
      ensures initialized == old(initialized) && device == old(device) && context == old(context)
      ensures masterVolume == old(masterVolume)
    {
      sources := sources + [id];
    }

    method CreateSource3D(id: nat)
      modifies this
      ensures sources3D == old(sources3D) + [id] && sources == old(sources)
      ensures loadedBuffers == old(loadedBuffers) && buffers == old(buffers)
      ensures initialized == old(initialized) && device == old(device) && context == old(context)
      ensures masterVolume == old(masterVolume)
    {
      sources3D := sources3D + [id];
    }

    /** update: both lists lose exactly their expired sources and keep the order of the rest. */
    method Update(expired: set<nat>)
      modifies this
      ensures sources == Pruned(old(sources), expired) && sources3D == Pruned(old(sources3D), expired)
      ensures loadedBuffers == old(loadedBuffers) && buffers == old(buffers)
      ensures initialized == old(initialized) && device == old(device) && context == old(context)
      ensures masterVolume == old(masterVolume)
    {
      sources := Prune(sources, expired);
      sources3D := Prune(sources3D, expired);
    }

    method SetMasterVolume(volume: real)
      modifies this
      ensures masterVolume == volume
      ensures loadedBuffers == old(loadedBuffers) && buffers == old(buffers)
      ensures sources == old(sources) && sources3D == old(sources3D)
      ensures initialized == old(initialized) && device == old(device) && context == old(context)
    {
      masterVolume := volume;
    }
  }
}
