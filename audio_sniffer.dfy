/**
 * The audio-file check run before a transcription: a chain of file-system tests followed
 * by magic-number tests on the first bytes of the file. The file system is abstracted into
 * a `FileEntry`: whether the path exists, whether it is a directory, and its bytes.
 */
module AudioSniffer {
  import opened Types

  /** The byte of an ASCII character. */
  function B(c: char): bv8
    requires c as int < 256
  {
    c as bv8
  }

  /** A RIFF container whose form type is WAVE; bytes 4..7 (the chunk size) are not read. */
  predicate LooksLikeWav(h: seq<bv8>) {
    |h| >= 12
    && h[0] == B('R') && h[1] == B('I') && h[2] == B('F') && h[3] == B('F')
    && h[8] == B('W') && h[9] == B('A') && h[10] == B('V') && h[11] == B('E')
  }

  /** The FLAC stream marker "fLaC". */
  predicate LooksLikeFlac(h: seq<bv8>) {
    |h| >= 4 && h[0] == B('f') && h[1] == B('L') && h[2] == B('a') && h[3] == B('C')
  }

  /** The Ogg capture pattern "OggS" (section 6 of RFC 3533). */
  predicate LooksLikeOgg(h: seq<bv8>) {
    |h| >= 4 && h[0] == B('O') && h[1] == B('g') && h[2] == B('g') && h[3] == B('S')
  }

  /**
   * An ID3v2 tag header "ID3", or an MPEG audio frame sync: 0xFF followed by a byte whose top
   * three bits are set (eleven set bits). Both need three bytes, the frame sync included.
   */
  predicate LooksLikeMp3(h: seq<bv8>) {
    if |h| < 3 then false
    else if h[0] == B('I') && h[1] == B('D') && h[2] == B('3') then true
    else if |h| >= 2 && h[0] == 0xFF && (h[1] & 0xE0) == 0xE0 then true
    else false
  }

  /** `BinaryPrimitives.ReadUInt32BigEndian` of four bytes. */
  function ReadUInt32BigEndian(b0: bv8, b1: bv8, b2: bv8, b3: bv8): bv32 {
    (b0 as bv32 << 24) | (b1 as bv32 << 16) | (b2 as bv32 << 8) | (b3 as bv32)
  }

  /** An ISO base media file whose `ftyp` box at offset 4 names one of five major brands. */
  predicate LooksLikeM4aMp4(h: seq<bv8>) {
    if |h| < 12 then false
    else if !(h[4] == B('f') && h[5] == B('t') && h[6] == B('y') && h[7] == B('p')) then false
    else
      var brand := ReadUInt32BigEndian(h[8], h[9], h[10], h[11]);
      brand == 0x4D344120 || brand == 0x69736F6D || brand == 0x6D703432
      || brand == 0x4D534E56 || brand == 0x4D503431
  }

  /** The twelve-bit ADTS syncword 0xFFF. */
  predicate LooksLikeAacAdts(h: seq<bv8>) {
    if |h| < 2 then false
    else h[0] == 0xFF && (h[1] & 0xF0) == 0xF0
  }

  /** The disjunction the check tests, in the order it tests it. */
  predicate LooksLikeAudio(h: seq<bv8>) {
    LooksLikeWav(h) || LooksLikeMp3(h) || LooksLikeFlac(h) || LooksLikeOgg(h)
    || LooksLikeM4aMp4(h) || LooksLikeAacAdts(h)
  }

  // ---- The predicates restated on byte strings ------------------------------------------

  lemma WavIsRiffWave(h: seq<bv8>)
    ensures LooksLikeWav(h) <==> |h| >= 12 && h[0..4] == [B('R'), B('I'), B('F'), B('F')] && h[8..12] == [B('W'), B('A'), B('V'), B('E')]
  {
    if |h| >= 12 && h[0..4] == [B('R'), B('I'), B('F'), B('F')] && h[8..12] == [B('W'), B('A'), B('V'), B('E')] {
      assert h[0] == h[0..4][0] && h[1] == h[0..4][1] && h[2] == h[0..4][2] && h[3] == h[0..4][3];
      assert h[8] == h[8..12][0] && h[9] == h[8..12][1] && h[10] == h[8..12][2] && h[11] == h[8..12][3];
    }
  }

  lemma FlacAndOggArePrefixes(h: seq<bv8>)
    ensures LooksLikeFlac(h) <==> |h| >= 4 && h[..4] == [B('f'), B('L'), B('a'), B('C')]
    ensures LooksLikeOgg(h) <==> |h| >= 4 && h[..4] == [B('O'), B('g'), B('g'), B('S')]
  {
    if |h| >= 4 {
      assert h[0] == h[..4][0] && h[1] == h[..4][1] && h[2] == h[..4][2] && h[3] == h[..4][3];
    }
  }

  /** The five brands the big-endian comparison accepts, as the four bytes they stand for. */
  const Brands: seq<seq<bv8>> := [
    [0x4D, 0x34, 0x41, 0x20],  // "M4A "
    [0x69, 0x73, 0x6F, 0x6D],  // "isom"
    [0x6D, 0x70, 0x34, 0x32],  // "mp42"
    [0x4D, 0x53, 0x4E, 0x56],  // "MSNV"
    [0x4D, 0x50, 0x34, 0x31]   // "MP41"
  ]

  /** The brand constants are the ASCII codes of the brand names. */
  lemma BrandNames()
    ensures Brands == [[B('M'), B('4'), B('A'), B(' ')], [B('i'), B('s'), B('o'), B('m')],
                       [B('m'), B('p'), B('4'), B('2')], [B('M'), B('S'), B('N'), B('V')],
                       [B('M'), B('P'), B('4'), B('1')]]
  {
  }

  /** A big-endian word equals a brand's value exactly when its four bytes are the brand's. */
  lemma BrandValueIsBytewise(b0: bv8, b1: bv8, b2: bv8, b3: bv8)
    ensures var v := ReadUInt32BigEndian(b0, b1, b2, b3);
      (v == 0x4D344120 || v == 0x69736F6D || v == 0x6D703432 || v == 0x4D534E56 || v == 0x4D503431)
      <==> [b0, b1, b2, b3] in Brands
  {
    var v := ReadUInt32BigEndian(b0, b1, b2, b3);
    assert v == 0x4D344120 <==> [b0, b1, b2, b3] == Brands[0];
    assert v == 0x69736F6D <==> [b0, b1, b2, b3] == Brands[1];
    assert v == 0x6D703432 <==> [b0, b1, b2, b3] == Brands[2];
    assert v == 0x4D534E56 <==> [b0, b1, b2, b3] == Brands[3];
    assert v == 0x4D503431 <==> [b0, b1, b2, b3] == Brands[4];
  }

  lemma M4aIsFtypBrand(h: seq<bv8>)
    ensures LooksLikeM4aMp4(h) <==> |h| >= 12 && h[4..8] == [B('f'), B('t'), B('y'), B('p')] && h[8..12] in Brands
  {
    if |h| >= 12 {
      assert h[4..8] == [h[4], h[5], h[6], h[7]];
      assert h[8..12] == [h[8], h[9], h[10], h[11]];
      BrandValueIsBytewise(h[8], h[9], h[10], h[11]);
    }
  }

  /** Every ADTS header of three bytes or more also passes the MP3 frame-sync test. */
  lemma AdtsIsAlsoMp3(h: seq<bv8>)
    requires |h| >= 3 && LooksLikeAacAdts(h)
    ensures LooksLikeMp3(h)
  {
    assert (h[1] & 0xF0) == 0xF0 ==> (h[1] & 0xE0) == 0xE0;
  }

  /** A two-byte ADTS header is an ADTS match, but the MP3 frame-sync test needs three bytes. */
  lemma ShortFrameSyncIsNotMp3()
    ensures LooksLikeAacAdts([0xFF, 0xF1]) && !LooksLikeMp3([0xFF, 0xF1])
  {
  }

  /** Past a length of twelve, only the first twelve bytes decide the verdict. */
  lemma OnlyFirstTwelveBytesMatter(h: seq<bv8>, g: seq<bv8>)
    requires |h| >= 12 && |g| >= 12 && h[..12] == g[..12]
    ensures LooksLikeAudio(h) == LooksLikeAudio(g)
  {
    forall k | 0 <= k < 12
      ensures h[k] == g[k]
    {
      assert h[k] == h[..12][k] && g[k] == g[..12][k];
    }
  }

  // ---- IsAudioFile ------------------------------------------------------------------------

  /** What the file system says about a path: existence, directory attribute, content. */
  datatype FileEntry = FileEntry(present: bool, isDirectory: bool, contents: seq<bv8>)

  const EmptyPathReason := "caminho vazio."
  const NotFoundReason := "arquivo não encontrado."
  const DirectoryReason := "o caminho aponta para um diretório."
  const TooSmallReason := "arquivo muito pequeno para conter cabeçalho válido."
  const UnknownFormatReason := "formato de áudio não reconhecido."

  /** The size of the buffer the header is read into. */
  const HeaderCapacity := 64

  /** `char.IsWhiteSpace`: the Unicode separators and the control characters U+0009..U+000D, U+0085. */
  predicate IsWhiteSpace(c: char) {
    ('\U{9}' <= c <= '\U{D}') || c == ' ' || c == '\U{85}' || c == '\U{A0}' || c == '\U{1680}'
    || ('\U{2000}' <= c <= '\U{200A}') || c == '\U{2028}' || c == '\U{2029}' || c == '\U{202F}'
    || c == '\U{205F}' || c == '\U{3000}'
  }

  /** `string.IsNullOrWhiteSpace`. */
  predicate IsNullOrWhiteSpace(s: Option<string>) {
    s.None? || forall k :: 0 <= k < |s.value| ==> IsWhiteSpace(s.value[k])
  }

  /** The bytes one read into the 64-byte buffer yields. */
  function Header(contents: seq<bv8>): (h: seq<bv8>)
    ensures |h| == if |contents| < HeaderCapacity then |contents| else HeaderCapacity
    ensures h == contents[..|h|]
  {
    if |contents| < HeaderCapacity then contents else contents[..HeaderCapacity]
  }

  /** The conjunction of all the tests: what it takes for a file to be accepted. */
  predicate AcceptedAudio(path: Option<string>, file: FileEntry) {
    !IsNullOrWhiteSpace(path) && file.present && !file.isDirectory
    && |file.contents| >= 12 && LooksLikeAudio(Header(file.contents))
  }

  /** The reason of the first test a path and its file fail, in the order the check runs them; "" if none fails. */
  function RejectionReason(path: Option<string>, file: FileEntry): (reason: string)
    ensures reason == "" <==> AcceptedAudio(path, file)
    ensures reason in {"", EmptyPathReason, NotFoundReason, DirectoryReason, TooSmallReason, UnknownFormatReason}
  {
    if IsNullOrWhiteSpace(path) then EmptyPathReason
    else if !file.present then NotFoundReason
    else if file.isDirectory then DirectoryReason
    else if |file.contents| < 12 then TooSmallReason
    else if !LooksLikeAudio(Header(file.contents)) then UnknownFormatReason
    else ""
  }

  /** `IsAudioFile(audioPath, out reason)`: the verdict and the first failing test's reason. */
  method IsAudioFile(audioPath: Option<string>, file: FileEntry) returns (ok: bool, reason: string)
    ensures ok <==> AcceptedAudio(audioPath, file)
    ensures ok ==> reason == ""
    ensures reason == RejectionReason(audioPath, file)
    ensures IsNullOrWhiteSpace(audioPath) ==> reason == EmptyPathReason
    ensures !IsNullOrWhiteSpace(audioPath) && !file.present ==> reason == NotFoundReason
    ensures !IsNullOrWhiteSpace(audioPath) && file.present && file.isDirectory ==> reason == DirectoryReason
    ensures !IsNullOrWhiteSpace(audioPath) && file.present && !file.isDirectory && |file.contents| < 12 ==>
      reason == TooSmallReason
    ensures (!IsNullOrWhiteSpace(audioPath) && file.present && !file.isDirectory && |file.contents| >= 12
             && !LooksLikeAudio(Header(file.contents))) ==> reason == UnknownFormatReason
  {
    reason := "";
    if IsNullOrWhiteSpace(audioPath) {
      reason := EmptyPathReason;
      return false, reason;
    }
    if !file.present {
      reason := NotFoundReason;
      return false, reason;
    }
    if file.isDirectory {
      reason := DirectoryReason;
      return false, reason;
    }
    if |file.contents| < 12 {
      reason := TooSmallReason;
      return false, reason;
    }
    var header := Header(file.contents);
    if LooksLikeWav(header) || LooksLikeMp3(header) || LooksLikeFlac(header)
       || LooksLikeOgg(header) || LooksLikeM4aMp4(header) || LooksLikeAacAdts(header) {
      return true, reason;
    }
    reason := UnknownFormatReason;
    ok := false;
  }

  /** A 44-byte buffer starting "RIFF" with "WAVE" at offset 8 is accepted. */
  lemma WavHeaderAccepted(h: seq<bv8>)
    requires |h| == 44 && h[..4] == [B('R'), B('I'), B('F'), B('F')] && h[8..12] == [B('W'), B('A'), B('V'), B('E')]
    ensures LooksLikeAudio(Header(h))
  {
    assert Header(h) == h;
    WavIsRiffWave(h);
    assert h[0..4] == h[..4];
  }

  /** A buffer of zero bytes matches no format. */
  lemma ZerosRejected(n: nat)
    ensures !LooksLikeAudio(Header(seq(n, _ => 0 as bv8)))
  {
    var h := Header(seq(n, _ => 0 as bv8));
    assert forall k :: 0 <= k < |h| ==> h[k] == 0;
  }
}
