/** Recording (`wav_rec`): parameter checks, the capture header, the
    read-and-append loop, and the outcome for the output file, which either
    ends up with the finalized header and every captured buffer or is
    removed. */
module PcmCapture {
  import opened Wrappers
  import opened Bytes
  import opened WavFormat
  import opened PcmPlayback

  // ===== parameters =====

  /** The sample rates the recorder accepts. */
  const CaptureRates: set<int> := {48000, 44100, 32000, 24000, 22050, 16000, 12000, 11025, 8000}

  /** The size of the recorder's transfer buffer: a larger negotiated
      buffer size is refused. */
  const MaxBufferSize: nat := 8192

  datatype ParamError = BadChannelMode | BadSampleRate

  /** The parameter check at the top of `wav_rec`: the channel mode first,
      then the sample rate. */
  function CheckCaptureParams(rate: int, mode: int): (r: Option<ParamError>)
    ensures r.None? <==> (mode == 1 || mode == 2) && rate in CaptureRates
    ensures r == Some(BadChannelMode) <==> mode != 1 && mode != 2
  {
    if mode != 2 && mode != 1 then Some(BadChannelMode)
    else
      match rate
      case 48000 => None
      case 44100 => None
      case 32000 => None
      case 24000 => None
      case 22050 => None
      case 16000 => None
      case 12000 => None
      case 11025 => None
      case 8000 => None
      case _ => Some(BadSampleRate)
  }

  predicate ValidCaptureParams(rate: int, mode: int)
  {
    CheckCaptureParams(rate, mode).None?
  }

  // ===== the capture header =====

  /** The header `wav_rec` writes before recording: 16-bit PCM with the
      requested rate and channel count, both sizes still 0. */
  function CaptureHeader(rate: int, mode: int): (h: WavHeader)
    requires ValidCaptureParams(rate, mode)
    ensures RiffWaveTags(h) && h.dataId == IdData
    ensures h.fmtSz == 16 && h.audioFormat == FormatPcm && h.bitsPerSample == 16
    ensures h.sampleRate == rate && h.numChannels == mode
    ensures h.byteRate == rate * mode * 2 && h.blockAlign == mode * 2
    ensures h.dataSz == 0 && h.riffSz == 0
  {
    WavHeader(IdRiff, 0, IdWave, IdFmt, 16, FormatPcm, mode, rate, rate * mode * 2, mode * 2, 16, IdData, 0)
  }

  /** The header as rewritten once recording is over: `data_sz` is the
      byte count and `riff_sz` is written as that count plus 8 + 16 + 8,
      in 32-bit unsigned arithmetic. */
  function Finalize(h: WavHeader, total: uint32): (r: WavHeader)
    ensures r.dataSz == total && r.riffSz == (total + 32) % U32Modulus
    ensures r.(dataSz := h.dataSz, riffSz := h.riffSz) == h
  {
    h.(dataSz := total, riffSz := (total + 8 + 16 + 8) % U32Modulus)
  }

  /** The capture header is one the player accepts, passing on the
      requested rate and channel count and an empty data chunk. */
  lemma CaptureHeaderPlayable(rate: int, mode: int)
    requires ValidCaptureParams(rate, mode)
    ensures CheckPlayHeader(CaptureHeader(rate, mode)) == Ok(PlaySource(rate, mode, 0))
    ensures ConsistentRates(CaptureHeader(rate, mode))
  {
    var h := CaptureHeader(rate, mode);
    assert h.numChannels * h.bitsPerSample / 8 == mode * 2;
  }

  /** Finalizing keeps the header acceptable and passes on the new size. */
  lemma FinalizePlayable(h: WavHeader, total: uint32)
    requires CheckPlayHeader(h).Ok?
    ensures CheckPlayHeader(Finalize(h, total)) == Ok(CheckPlayHeader(h).value.(dataSz := total))
  {
    CheckIgnoresOtherFields(h, Finalize(h, total));
  }

  /** Only the last finalization counts. */
  lemma FinalizeLastWins(h: WavHeader, a: uint32, b: uint32)
    ensures Finalize(Finalize(h, a), b) == Finalize(h, b)
  {
  }

  /** As written, `riff_sz` falls 4 bytes short of the RIFF chunk size (the
      length of everything after the 8-byte chunk preamble): a file holding
      the header and `total` bytes of data is `total + 44` long, and its
      `riff_sz` is that length less 12 rather than less 8. */
  lemma RiffSizeShortByFour(h: WavHeader, total: uint32)
    requires total + 32 < U32Modulus
    ensures Finalize(h, total).riffSz == |EncodeHeader(h)| + total - 12
  {
  }

  // ===== the recording session =====

  /** One pass of the recording loop as the session sees it: the bytes the
      device read returned (a length other than the buffer size is a short
      or failed read), and whether writing them to the file took all of
      them. */
  datatype Transfer = Transfer(got: seq<byte>, stored: bool)

  /** What the recording session meets: whether the output file and the
      capture device open, the negotiated configuration (None when any of
      the get/set/get exchanges fails), whether capture starts, and the
      transfers made before the stop flag is seen. */
  datatype CaptureEnv = CaptureEnv(
    fileOpens: bool,
    devOpens: bool,
    config: Option<AudioConfig>,
    starts: bool,
    transfers: seq<Transfer>)

  predicate TransferOk(t: Transfer, sz: nat)
  {
    |t.got| == sz && t.stored
  }

  /** The bytes a sequence of transfers appends to the file. */
  function Captured(ts: seq<Transfer>): (bytes: seq<byte>)
  {
    if |ts| == 0 then [] else Captured(ts[..|ts| - 1]) + ts[|ts| - 1].got
  }

  lemma CapturedStep(ts: seq<Transfer>, k: nat)
    requires k < |ts|
    ensures Captured(ts[..k + 1]) == Captured(ts[..k]) + ts[k].got
  {
    assert ts[..k + 1][..k] == ts[..k];
  }

  /** `total` after `k` passes of `sz` bytes each, in 32-bit unsigned
      arithmetic. */
  function Total(k: nat, sz: nat): (total: uint32)
  {
    if k == 0 then 0 else (Total(k - 1, sz) + sz) % U32Modulus
  }

  /** The running total is the byte count modulo 2^32. */
  lemma {:induction false} TotalIsProduct(k: nat, sz: nat)
    ensures Total(k, sz) == (k * sz) % U32Modulus
  {
    if k > 0 {
      TotalIsProduct(k - 1, sz);
      MulSucc(k - 1, sz);
      ModAddLeft((k - 1) * sz, sz);
    }
  }

  lemma ModAddLeft(a: nat, b: nat)
    ensures (a % U32Modulus + b) % U32Modulus == (a + b) % U32Modulus
  {
    var q := a / U32Modulus;
    var r := a % U32Modulus;
    assert a == q * U32Modulus + r;
    var q2 := (r + b) / U32Modulus;
    var r2 := (r + b) % U32Modulus;
    assert r + b == q2 * U32Modulus + r2;
    assert a + b == (q + q2) * U32Modulus + r2;
  }

  /** So while no wrap-around occurs, `total` is exactly the number of
      bytes captured. */
  lemma CapturedLength(ts: seq<Transfer>, sz: nat)
    requires forall j :: 0 <= j < |ts| ==> TransferOk(ts[j], sz)
    ensures |Captured(ts)| == |ts| * sz
    ensures |ts| * sz < U32Modulus ==> Total(|ts|, sz) == |Captured(ts)|
  {
    CapturedLengthRec(ts, sz);
    if |ts| * sz < U32Modulus {
      TotalNoWrap(|ts|, sz);
    }
  }

  lemma TotalNoWrap(k: nat, sz: nat)
    requires k * sz < U32Modulus
    ensures Total(k, sz) == k * sz
  {
    TotalIsProduct(k, sz);
  }

  lemma {:induction false} CapturedLengthRec(ts: seq<Transfer>, sz: nat)
    requires forall j :: 0 <= j < |ts| ==> TransferOk(ts[j], sz)
    ensures |Captured(ts)| == |ts| * sz
  {
    if |ts| > 0 {
      CapturedLengthRec(ts[..|ts| - 1], sz);
      MulSucc(|ts| - 1, sz);
    }
  }

  /** Whether the session gets as far as the recording loop. */
  predicate Reaches(rate: int, mode: int, env: CaptureEnv)
  {
    ValidCaptureParams(rate, mode) && env.fileOpens && env.devOpens
    && env.config.Some? && env.config.value.bufferSize <= MaxBufferSize && env.starts
  }

  /** The file a session leaves, given what was there before (empty when
      the file did not exist): the finalized header at offset 0 followed by
      every captured byte, over whatever the old file held beyond them. */
  function Committed(before: seq<byte>, rate: int, mode: int, ts: seq<Transfer>, sz: nat): (f: seq<byte>)
    requires ValidCaptureParams(rate, mode)
  {
    WriteAt(before, 0, EncodeHeader(Finalize(CaptureHeader(rate, mode), Total(|ts|, sz))) + Captured(ts))
  }

  function Existing(file: Option<seq<byte>>): (f: seq<byte>)
  {
    if file.Some? then file.value else []
  }

  /** `wav_rec`. `file` is the output file's contents before the session
      (None when it does not exist) and `out` what is there afterwards.
      Bad parameters or an output file that cannot be opened leave it as it
      was; a capture device that cannot be opened leaves the placeholder
      header in it; every later failure (configuration, buffer too large,
      start, a short read or a short write) removes it; and a session that
      runs until the stop flag commits the finalized header and returns 0. */
  method WavRec(rate: int, mode: int, file: Option<seq<byte>>, env: CaptureEnv) returns (ret: int, out: Option<seq<byte>>)
    ensures ret == 0 || ret == -1
    ensures !ValidCaptureParams(rate, mode) || !env.fileOpens ==> ret == -1 && out == file
    ensures ValidCaptureParams(rate, mode) && env.fileOpens && !env.devOpens
            ==> ret == -1 && out == Some(WriteAt(Existing(file), 0, EncodeHeader(CaptureHeader(rate, mode))))
    ensures ValidCaptureParams(rate, mode) && env.fileOpens && env.devOpens && !Reaches(rate, mode, env)
            ==> ret == -1 && out.None?
    ensures Reaches(rate, mode, env)
            ==> var sz := env.config.value.bufferSize;
                if forall j :: 0 <= j < |env.transfers| ==> TransferOk(env.transfers[j], sz)
                then ret == 0 && out == Some(Committed(Existing(file), rate, mode, env.transfers, sz))
                else ret == -1 && out.None?
  {
    if CheckCaptureParams(rate, mode).Some? {
      return -1, file;
    }
    var h := CaptureHeader(rate, mode);
    if !env.fileOpens {
      return -1, file;
    }
    var before := Existing(file);
    var f := WriteAt(before, 0, EncodeHeader(h));
    if !env.devOpens {
      return -1, Some(f);
    }
    if env.config.None? {
      return -1, None;
    }
    var sz := env.config.value.bufferSize;
    if sz > MaxBufferSize {
      return -1, None;
    }
    if !env.starts {
      return -1, None;
    }
    var ok, total;
    ok, total, f := Record(before, h, sz, env.transfers, f);
    if !ok {
      return -1, None;
    }
    var h' := Finalize(h, total);
    WriteAtOverwrite(before, EncodeHeader(h), EncodeHeader(h'), Captured(env.transfers));
    f := WriteAt(f, 0, EncodeHeader(h'));
    return 0, Some(f);
  }

  lemma RecordStep(before: seq<byte>, h: WavHeader, ts: seq<Transfer>, k: nat, written: seq<byte>)
    requires k < |ts| && written == EncodeHeader(h) + Captured(ts[..k])
    ensures written + ts[k].got == EncodeHeader(h) + Captured(ts[..k + 1])
    ensures WriteAt(WriteAt(before, 0, written), |written|, ts[k].got) == WriteAt(before, 0, written + ts[k].got)
  {
    CapturedStep(ts, k);
    WriteAtSequential(before, written, ts[k].got);
  }

  /** The recording loop: each transfer must read and store exactly `sz`
      bytes, appended after what the file already holds, and adds `sz` to
      the 32-bit `total`; the first short read or write gives up. */
  method Record(before: seq<byte>, h: WavHeader, sz: nat, ts: seq<Transfer>, f0: seq<byte>)
    returns (ok: bool, total: uint32, f: seq<byte>)
    requires f0 == WriteAt(before, 0, EncodeHeader(h))
    ensures ok <==> forall j :: 0 <= j < |ts| ==> TransferOk(ts[j], sz)
    ensures ok ==> total == Total(|ts|, sz) && f == WriteAt(before, 0, EncodeHeader(h) + Captured(ts))
  {
    f := f0;
    total := 0;
    assert ts[..0] == [];
    ghost var written := EncodeHeader(h);
    var pos := HeaderSize;
    var k := 0;
    while k < |ts|
      invariant k <= |ts| && total == Total(k, sz)
      invariant forall j :: 0 <= j < k ==> TransferOk(ts[j], sz)
      invariant written == EncodeHeader(h) + Captured(ts[..k])
      invariant f == WriteAt(before, 0, written) && pos == |written|
    {
      var t := ts[k];
      if |t.got| != sz || !t.stored {
        return false, total, f;
      }
      RecordStep(before, h, ts, k, written);
      f := WriteAt(f, pos, t.got);
      written := written + t.got;
      pos := pos + sz;
      total := (total + sz) % U32Modulus;
      k := k + 1;
    }
    assert ts[..k] == ts;
    return true, total, f;
  }

  /** A committed recording plays back: the player accepts the file and
      loads exactly the captured bytes, at the requested rate and channel
      count, as long as `total` has not wrapped. */
  lemma CommittedPlays(before: seq<byte>, rate: int, mode: int, ts: seq<Transfer>, sz: nat)
    requires ValidCaptureParams(rate, mode)
    requires forall j :: 0 <= j < |ts| ==> TransferOk(ts[j], sz)
    requires |ts| * sz < U32Modulus
    ensures Total(|ts|, sz) == |Captured(ts)|
    ensures LoadWav(Committed(before, rate, mode, ts, sz))
            == Ok(Loaded(PlaySource(rate, mode, Total(|ts|, sz)), Captured(ts)))
  {
    var total := Total(|ts|, sz);
    CapturedLength(ts, sz);
    var h := Finalize(CaptureHeader(rate, mode), total);
    var enc := EncodeHeader(h);
    var file := Committed(before, rate, mode, ts, sz);
    assert file[..HeaderSize] == enc by {
      assert file[..|enc + Captured(ts)|] == enc + Captured(ts);
      assert file[..HeaderSize] == (enc + Captured(ts))[..HeaderSize];
    }
    DecodeEncode(h);
    CaptureHeaderPlayable(rate, mode);
    FinalizePlayable(CaptureHeader(rate, mode), total);
    assert file[HeaderSize..HeaderSize + total] == Captured(ts) by {
      assert file[..|enc + Captured(ts)|] == enc + Captured(ts);
      assert file[HeaderSize..HeaderSize + total] == (enc + Captured(ts))[HeaderSize..];
    }
  }
}
