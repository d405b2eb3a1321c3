/** The canonical 44-byte RIFF/WAVE header of a 16-bit PCM file, its byte
    layout, and the checks the player applies before streaming a file. */
module WavFormat {
  import opened Wrappers
  import opened Bytes

  /** Chunk tags, as little-endian 32-bit words ("RIFF", "WAVE", "fmt ", "data"). */
  const IdRiff: uint32 := 0x46464952
  const IdWave: uint32 := 0x45564157
  const IdFmt: uint32 := 0x20746d66
  const IdData: uint32 := 0x61746164

  const FormatPcm: uint16 := 1

  /** Size of the header struct: five words, two halves, two words, two halves, two words. */
  const HeaderSize: nat := 44

  datatype WavHeader = WavHeader(
    riffId: uint32,
    riffSz: uint32,
    riffFmt: uint32,
    fmtId: uint32,
    fmtSz: uint32,
    audioFormat: uint16,
    numChannels: uint16,
    sampleRate: uint32,
    byteRate: uint32,
    blockAlign: uint16,
    bitsPerSample: uint16,
    dataId: uint32,
    dataSz: uint32)

  /** The header struct as it lies in memory and in the file: the 12-byte
      RIFF preamble, the 24-byte "fmt " chunk and the 8-byte "data" chunk head. */
  function EncodeHeader(h: WavHeader): (r: seq<byte>)
    ensures |r| == HeaderSize
  {
    EncodeRiff(h) + EncodeFmt(h) + EncodeData(h)
  }

  function EncodeRiff(h: WavHeader): (r: seq<byte>)
    ensures |r| == 12
  {
    Le32(h.riffId) + Le32(h.riffSz) + Le32(h.riffFmt)
  }

  function EncodeFmt(h: WavHeader): (r: seq<byte>)
    ensures |r| == 24
  {
    Le32(h.fmtId) + Le32(h.fmtSz) + Le16(h.audioFormat) + Le16(h.numChannels)
    + Le32(h.sampleRate) + Le32(h.byteRate) + Le16(h.blockAlign) + Le16(h.bitsPerSample)
  }

  function EncodeData(h: WavHeader): (r: seq<byte>)
    ensures |r| == 8
  {
    Le32(h.dataId) + Le32(h.dataSz)
  }

  /** Reading the header struct from HeaderSize bytes. */
  function DecodeHeader(b: seq<byte>): (h: WavHeader)
    requires |b| == HeaderSize
  {
    WavHeader(
      FromLe32(b[0..4]), FromLe32(b[4..8]), FromLe32(b[8..12]), FromLe32(b[12..16]),
      FromLe32(b[16..20]), FromLe16(b[20..22]), FromLe16(b[22..24]), FromLe32(b[24..28]),
      FromLe32(b[28..32]), FromLe16(b[32..34]), FromLe16(b[34..36]), FromLe32(b[36..40]),
      FromLe32(b[40..44]))
  }

  lemma DecodeEncode(h: WavHeader)
    ensures DecodeHeader(EncodeHeader(h)) == h
  {
    var b := EncodeHeader(h);
    var riff, fmt, data := EncodeRiff(h), EncodeFmt(h), EncodeData(h);
    assert b[..12] == riff && b[12..36] == fmt && b[36..] == data;
    assert b[0..4] == riff[0..4] == Le32(h.riffId);
    assert b[4..8] == riff[4..8] == Le32(h.riffSz);
    assert b[8..12] == riff[8..12] == Le32(h.riffFmt);
    assert b[12..16] == fmt[0..4] == Le32(h.fmtId);
    assert b[16..20] == fmt[4..8] == Le32(h.fmtSz);
    assert b[20..22] == fmt[8..10] == Le16(h.audioFormat);
    assert b[22..24] == fmt[10..12] == Le16(h.numChannels);
    assert b[24..28] == fmt[12..16] == Le32(h.sampleRate);
    assert b[28..32] == fmt[16..20] == Le32(h.byteRate);
    assert b[32..34] == fmt[20..22] == Le16(h.blockAlign);
    assert b[34..36] == fmt[22..24] == Le16(h.bitsPerSample);
    assert b[36..40] == data[0..4] == Le32(h.dataId);
    assert b[40..44] == data[4..8] == Le32(h.dataSz);
    Le32RoundTrip(h.riffId); Le32RoundTrip(h.riffSz); Le32RoundTrip(h.riffFmt);
    Le32RoundTrip(h.fmtId); Le32RoundTrip(h.fmtSz); Le16RoundTrip(h.audioFormat);
    Le16RoundTrip(h.numChannels); Le32RoundTrip(h.sampleRate); Le32RoundTrip(h.byteRate);
    Le16RoundTrip(h.blockAlign); Le16RoundTrip(h.bitsPerSample); Le32RoundTrip(h.dataId);
    Le32RoundTrip(h.dataSz);
  }

  lemma EncodeDecode(b: seq<byte>)
    requires |b| == HeaderSize
    ensures EncodeHeader(DecodeHeader(b)) == b
  {
    var h := DecodeHeader(b);
    FromLe32RoundTrip(b[0..4]); FromLe32RoundTrip(b[4..8]); FromLe32RoundTrip(b[8..12]);
    assert EncodeRiff(h) == b[..12] by {
      assert b[..12] == b[0..4] + b[4..8] + b[8..12];
    }
    FromLe32RoundTrip(b[12..16]); FromLe32RoundTrip(b[16..20]); FromLe16RoundTrip(b[20..22]);
    FromLe16RoundTrip(b[22..24]); FromLe32RoundTrip(b[24..28]); FromLe32RoundTrip(b[28..32]);
    FromLe16RoundTrip(b[32..34]); FromLe16RoundTrip(b[34..36]);
    assert EncodeFmt(h) == b[12..36] by {
      assert b[12..36] == b[12..16] + b[16..20] + b[20..22] + b[22..24] + b[24..28] + b[28..32]
                         + b[32..34] + b[34..36];
    }
    FromLe32RoundTrip(b[36..40]); FromLe32RoundTrip(b[40..44]);
    assert EncodeData(h) == b[36..] by {
      assert b[36..] == b[36..40] + b[40..44];
    }
    assert b == b[..12] + b[12..36] + b[36..];
  }

  /** The three container tags the player insists on. */
  predicate RiffWaveTags(h: WavHeader)
  {
    h.riffId == IdRiff && h.riffFmt == IdWave && h.fmtId == IdFmt
  }

  /** The derived fields agree with the format, as the struct's comments
      define them: byte_rate = sample_rate * num_channels * bps / 8 and
      block_align = num_channels * bps / 8. */
  predicate ConsistentRates(h: WavHeader)
  {
    h.blockAlign as int == h.numChannels as int * h.bitsPerSample as int / 8
    && h.byteRate as int == h.sampleRate as int * h.blockAlign as int
  }

  datatype HeaderError = NotRiffWave | NotPcm | NotSixteenBit

  /** What the player takes from an accepted header. */
  datatype PlaySource = PlaySource(sampleRate: uint32, channels: uint16, dataSz: uint32)

  /** The player's accept/reject decision on a header, in the order the
      three rejections are tried. */
  function CheckPlayHeader(h: WavHeader): (r: Result<PlaySource, HeaderError>)
    ensures r.Ok? <==> RiffWaveTags(h) && h.audioFormat == FormatPcm && h.fmtSz == 16
                       && h.bitsPerSample == 16
    ensures r.Ok? ==> r.value == PlaySource(h.sampleRate, h.numChannels, h.dataSz)
    ensures r == Err(NotRiffWave) <==> !RiffWaveTags(h)
    ensures r == Err(NotPcm) <==> RiffWaveTags(h) && (h.audioFormat != FormatPcm || h.fmtSz != 16)
  {
    if h.riffId != IdRiff || h.riffFmt != IdWave || h.fmtId != IdFmt then Err(NotRiffWave)
    else if h.audioFormat != FormatPcm || h.fmtSz != 16 then Err(NotPcm)
    else if h.bitsPerSample != 16 then Err(NotSixteenBit)
    else Ok(PlaySource(h.sampleRate, h.numChannels, h.dataSz))
  }

  /** Acceptance looks at six fields only: headers that agree on them get the
      same decision, whatever their sizes, rates and data tag say. */
  lemma CheckIgnoresOtherFields(h1: WavHeader, h2: WavHeader)
    requires h1.riffId == h2.riffId && h1.riffFmt == h2.riffFmt && h1.fmtId == h2.fmtId
    requires h1.audioFormat == h2.audioFormat && h1.fmtSz == h2.fmtSz
    requires h1.bitsPerSample == h2.bitsPerSample
    ensures CheckPlayHeader(h1).Ok? == CheckPlayHeader(h2).Ok?
    ensures CheckPlayHeader(h1).Err? ==> CheckPlayHeader(h1) == CheckPlayHeader(h2)
  {
  }

  datatype LoadError = ShortHeader | BadHeader(reason: HeaderError) | ShortData

  datatype Loaded = Loaded(source: PlaySource, samples: seq<byte>)

  /** What the player makes of a file's bytes: read the header struct,
      check it, then read exactly `data_sz` bytes that follow it. */
  function LoadWav(file: seq<byte>): (r: Result<Loaded, LoadError>)
    ensures r.Ok? <==> |file| >= HeaderSize && CheckPlayHeader(DecodeHeader(file[..HeaderSize])).Ok?
                       && |file| - HeaderSize >= DecodeHeader(file[..HeaderSize]).dataSz
    ensures r.Ok? ==> Ok(r.value.source) == CheckPlayHeader(DecodeHeader(file[..HeaderSize]))
                      && r.value.samples == file[HeaderSize..HeaderSize + r.value.source.dataSz]
    ensures r == Err(ShortHeader) <==> |file| < HeaderSize
    ensures |file| >= HeaderSize && CheckPlayHeader(DecodeHeader(file[..HeaderSize])).Err?
            ==> r == Err(BadHeader(CheckPlayHeader(DecodeHeader(file[..HeaderSize])).error))
  {
    if |file| < HeaderSize then Err(ShortHeader)
    else
      var h := DecodeHeader(file[..HeaderSize]);
      match CheckPlayHeader(h)
      case Err(e) => Err(BadHeader(e))
      case Ok(src) =>
        if |file| - HeaderSize < src.dataSz then Err(ShortData)
        else Ok(Loaded(src, file[HeaderSize..HeaderSize + src.dataSz]))
  }
}
