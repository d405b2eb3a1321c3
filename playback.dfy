/** Playback: the in-memory source cursor (`fill_buffer`), the device sink,
    and the prefill-then-stream transfer loop of `pcm_play`, with the
    `-repeat=` option and the playback stop command that feed it. */
module PcmPlayback {
  import opened Wrappers
  import opened Bytes
  import opened WavFormat

  // ===== the source cursor =====

  /** Position of the cursor: `next` is an offset into the source copy,
      `avail` the number of bytes still to hand out. */
  datatype Cursor = Cursor(next: nat, avail: nat)

  predicate CursorOk(data: seq<byte>, c: Cursor)
  {
    c.next + c.avail == |data|
  }

  /** Where the cursor is put when a file is loaded and on every rewind
      (`org_next`, `org_avail`). */
  function Start(data: seq<byte>): (c: Cursor)
    ensures CursorOk(data, c)
  {
    Cursor(0, |data|)
  }

  function Min(a: nat, b: nat): nat
  {
    if a < b then a else b
  }

  datatype Fill = Empty | Chunk(bytes: seq<byte>, after: Cursor)

  /** One call of the source callback with request size `sz`. */
  function FillStep(data: seq<byte>, c: Cursor, sz: nat): (r: Fill)
    requires CursorOk(data, c)
    ensures r.Empty? <==> c.avail == 0
    ensures r.Chunk? ==> CursorOk(data, r.after) && |r.bytes| == Min(sz, c.avail)
                         && r.after.avail == c.avail - |r.bytes|
  {
    if c.avail == 0 then Empty
    else
      var n := Min(sz, c.avail);
      Chunk(data[c.next..c.next + n], Cursor(c.next + n, c.avail - n))
  }

  /** The chunks that repeated calls hand out until the source is exhausted. */
  function Drain(data: seq<byte>, c: Cursor, sz: nat): (chunks: seq<seq<byte>>)
    requires sz > 0 && CursorOk(data, c)
    decreases c.avail
  {
    match FillStep(data, c, sz)
    case Empty => []
    case Chunk(b, c') => [b] + Drain(data, c', sz)
  }

  lemma MulSucc(a: nat, b: nat)
    ensures (a + 1) * b == a * b + b
  {
  }

  /** A whole pass over the source from cursor `c`: ceil(avail/sz) chunks,
      each non-empty and at most `sz` bytes, all but the last exactly `sz`,
      and together exactly the bytes still available. */
  lemma DrainShape(data: seq<byte>, c: Cursor, sz: nat)
    requires sz > 0 && CursorOk(data, c)
    ensures Flatten(Drain(data, c, sz)) == data[c.next..]
    ensures c.avail == 0 <==> Drain(data, c, sz) == []
    ensures sz * (|Drain(data, c, sz)| - 1) < c.avail <= sz * |Drain(data, c, sz)|
    ensures forall j :: 0 <= j < |Drain(data, c, sz)| ==> 0 < |Drain(data, c, sz)[j]| <= sz
    ensures forall j :: 0 <= j < |Drain(data, c, sz)| - 1 ==> |Drain(data, c, sz)[j]| == sz
  {
    DrainCovers(data, c, sz);
    DrainChunkSizes(data, c, sz);
  }

  lemma {:induction false} DrainCovers(data: seq<byte>, c: Cursor, sz: nat)
    requires sz > 0 && CursorOk(data, c)
    ensures Flatten(Drain(data, c, sz)) == data[c.next..]
    ensures c.avail == 0 <==> Drain(data, c, sz) == []
    ensures sz * (|Drain(data, c, sz)| - 1) < c.avail <= sz * |Drain(data, c, sz)|
    decreases c.avail
  {
    var d := Drain(data, c, sz);
    match FillStep(data, c, sz)
    case Empty =>
      assert d == [];
    case Chunk(b, c') =>
      var d' := Drain(data, c', sz);
      DrainCovers(data, c', sz);
      assert d == [b] + d';
      assert d[1..] == d';
      assert Flatten(d) == b + Flatten(d');
      assert b + data[c'.next..] == data[c.next..];
      var n := |d'|;
      assert |d| == n + 1;
      MulRight(sz, n);
      MulRight(sz, n - 1);
      assert sz * (|d| - 1) == sz * n && sz * |d| == sz * n + sz;
      if c.avail <= sz {
        assert c'.avail == 0 && n == 0;
      } else {
        assert |b| == sz && c'.avail > 0;
      }
  }

  lemma MulRight(a: int, b: int)
    ensures a * (b + 1) == a * b + a
  {
  }

  lemma {:induction false} DrainChunkSizes(data: seq<byte>, c: Cursor, sz: nat)
    requires sz > 0 && CursorOk(data, c)
    ensures forall j :: 0 <= j < |Drain(data, c, sz)| ==> 0 < |Drain(data, c, sz)[j]| <= sz
    ensures forall j :: 0 <= j < |Drain(data, c, sz)| - 1 ==> |Drain(data, c, sz)[j]| == sz
    decreases c.avail
  {
    var d := Drain(data, c, sz);
    match FillStep(data, c, sz)
    case Empty =>
    case Chunk(b, c') =>
      var d' := Drain(data, c', sz);
      DrainChunkSizes(data, c', sz);
      assert d == [b] + d';
      if |d'| > 0 {
        assert c'.avail > 0;
        assert |b| == sz;
      }
      forall j | 0 <= j < |d| ensures 0 < |d[j]| <= sz {
        if j > 0 { assert d[j] == d'[j - 1]; }
      }
      forall j | 0 <= j < |d| - 1 ensures |d[j]| == sz {
        if j > 0 { assert d[j] == d'[j - 1]; }
      }
  }

  // ===== the playback loop, as a function of its inputs =====

  /** The state `pcm_play` works on: the cursor, the remaining repeat count
      (-1 for ever) and every chunk handed to the device so far. */
  datatype PlayState = PlayState(cur: Cursor, repeat: int, log: seq<seq<byte>>)

  /** The buffer pool size the driver reports after the configuration exchange. */
  datatype AudioConfig = AudioConfig(bufferSize: nat, bufferCount: nat)

  /** What the device session does: whether it opens, the configuration
      (None when getting or setting it fails), whether the transfer buffer
      can be allocated, whether playback starts, and the value of `quit`
      the loop sees at each steady-state iteration. */
  datatype PlayEnv = PlayEnv(
    opens: bool,
    config: Option<AudioConfig>,
    allocates: bool,
    starts: bool,
    quitAt: nat -> bool)

  datatype Stop =
    | OpenFailed | ConfigFailed | AllocFailed
    | StartFailed | Exhausted | Quit | ShortWrite | OutOfFuel

  /** `log` extends `old_log`, and every chunk added is at most `bsz` bytes. */
  predicate NewChunksBounded(old_log: seq<seq<byte>>, log: seq<seq<byte>>, bsz: nat)
  {
    |old_log| <= |log| && log[..|old_log|] == old_log
    && forall j :: |old_log| <= j < |log| ==> |log[j]| <= bsz
  }

  /** What one round of the prefill or one iteration of the steady-state
      loop leaves: either that loop ends there, for the reason given, or it
      goes on from the new state. */
  datatype Iteration = Done(state: PlayState, stop: Stop) | Continue(state: PlayState)

  /** One prefill round: fill a chunk and write it; priming ends when the
      source is exhausted or the write comes back short. */
  function PrimeRound(data: seq<byte>, bsz: nat, s: PlayState, accept: nat -> bool): (r: Iteration)
    requires CursorOk(data, s.cur)
    ensures CursorOk(data, r.state.cur) && r.state.repeat == s.repeat
    ensures NewChunksBounded(s.log, r.state.log, bsz) && |r.state.log| <= |s.log| + 1
    ensures r.Continue? <==> |r.state.log| == |s.log| + 1 && accept(|s.log|)
    ensures r.state.log == s.log <==> s.cur.avail == 0
  {
    match FillStep(data, s.cur, bsz)
    case Empty => Done(s, Exhausted)
    case Chunk(b, c') =>
      var s' := s.(cur := c', log := s.log + [b]);
      assert s'.log[..|s.log|] == s.log;
      if accept(|s.log|) then Continue(s') else Done(s', ShortWrite)
  }

  /** Priming the device: at most `k` rounds, stopping early on an
      exhausted source or a short write. */
  function Prefill(data: seq<byte>, bsz: nat, s: PlayState, k: nat, accept: nat -> bool): (r: PlayState)
    requires CursorOk(data, s.cur)
    ensures CursorOk(data, r.cur) && r.repeat == s.repeat
    decreases k
  {
    if k == 0 then s
    else
      match PrimeRound(data, bsz, s, accept)
      case Done(t, _) => t
      case Continue(t) => Prefill(data, bsz, t, k - 1, accept)
  }

  /** Priming writes at most `k` chunks, each at most `bsz` bytes, after
      what was logged before, and every write but the last was accepted. */
  lemma {:induction false} PrefillBounds(data: seq<byte>, bsz: nat, s: PlayState, k: nat, accept: nat -> bool)
    requires CursorOk(data, s.cur)
    ensures var r := Prefill(data, bsz, s, k, accept);
            NewChunksBounded(s.log, r.log, bsz) && |r.log| <= |s.log| + k
            && forall j :: |s.log| <= j < |r.log| - 1 ==> accept(j)
    decreases k
  {
    if k > 0 {
      var t := PrimeRound(data, bsz, s, accept);
      if t.Continue? {
        PrefillBounds(data, bsz, t.state, k - 1, accept);
        var r := Prefill(data, bsz, t.state, k - 1, accept);
        NewChunksTrans(s.log, t.state.log, r.log, bsz);
      }
    }
  }

  /** Iteration `i` of the steady-state loop: fill one chunk; when the source
      is exhausted or `quit` is seen, stop if the repeat count is 0 or `quit`
      is set, else rewind and count a finite repeat down; otherwise write
      the chunk and stop if the write comes back short. */
  function Step(data: seq<byte>, bsz: nat, s: PlayState, i: nat, quitAt: nat -> bool,
                accept: nat -> bool): (r: Iteration)
    requires CursorOk(data, s.cur)
    ensures CursorOk(data, r.state.cur)
    ensures r.Done? ==> r.stop == Exhausted || r.stop == Quit || r.stop == ShortWrite
    ensures quitAt(i) <==> r.Done? && r.stop == Quit
    ensures quitAt(i) ==> r.state.log == s.log && r.state.repeat == s.repeat
    ensures r.state.log == s.log
            || (s.cur.avail > 0 && r.state.log == s.log + [FillStep(data, s.cur, bsz).bytes])
    ensures NewChunksBounded(s.log, r.state.log, bsz)
    ensures r.Done? && r.stop == ShortWrite <==> r.state.log != s.log && !accept(|s.log|)
    ensures r.state.log != s.log ==> (accept(|s.log|) <==> r.Continue?)
    ensures r.Done? && r.stop == Exhausted ==> r.state.repeat == 0 && s.cur.avail == 0
    ensures s.repeat < 0 ==> r.state.repeat == s.repeat
    ensures s.repeat >= 0 ==> 0 <= r.state.repeat <= s.repeat
  {
    var f := FillStep(data, s.cur, bsz);
    var q := quitAt(i);
    if f.Empty? || q then
      var c := if f.Empty? then s.cur else f.after;
      if s.repeat == 0 || q then Done(s.(cur := c), if q then Quit else Exhausted)
      else Continue(s.(cur := Start(data), repeat := if s.repeat > 0 then s.repeat - 1 else s.repeat))
    else
      var s' := s.(cur := f.after, log := s.log + [f.bytes]);
      assert s'.log[..|s.log|] == s.log;
      if accept(|s.log|) then Continue(s') else Done(s', ShortWrite)
  }

  /** Outcome of the steady-state loop and how many iterations it ran. */
  datatype Streamed = Streamed(state: PlayState, stop: Stop, iterations: nat)

  /** The steady-state loop from iteration `i`, for at most `fuel` iterations. */
  function Stream(data: seq<byte>, bsz: nat, s: PlayState, i: nat, quitAt: nat -> bool,
                  accept: nat -> bool, fuel: nat): (r: Streamed)
    requires CursorOk(data, s.cur)
    ensures CursorOk(data, r.state.cur)
    ensures r.stop == Exhausted || r.stop == Quit || r.stop == ShortWrite || r.stop == OutOfFuel
    ensures r.iterations <= fuel && (r.stop == OutOfFuel ==> r.iterations == fuel)
    ensures r.stop == Exhausted ==> r.state.repeat == 0
    ensures s.repeat < 0 ==> r.state.repeat == s.repeat
    ensures s.repeat >= 0 ==> 0 <= r.state.repeat <= s.repeat
    decreases fuel
  {
    if fuel == 0 then Streamed(s, OutOfFuel, 0)
    else
      match Step(data, bsz, s, i, quitAt, accept)
      case Done(t, stop) => Streamed(t, stop, 1)
      case Continue(t) =>
        var r := Stream(data, bsz, t, i + 1, quitAt, accept, fuel - 1);
        r.(iterations := r.iterations + 1)
  }

  /** One iteration of the steady loop followed by the rest of it. */
  lemma StreamUnfolds(data: seq<byte>, bsz: nat, s: PlayState, i: nat, quitAt: nat -> bool,
                      accept: nat -> bool, fuel: nat)
    requires CursorOk(data, s.cur) && fuel > 0
    ensures var t := Step(data, bsz, s, i, quitAt, accept);
            Outcome(Stream(data, bsz, s, i, quitAt, accept, fuel))
            == if t.Done? then (t.state, t.stop) else Outcome(Stream(data, bsz, t.state, i + 1, quitAt, accept, fuel - 1))
  {
  }

  /** What a run of the steady loop leaves behind: the final state and why it stopped. */
  function Outcome(r: Streamed): (o: (PlayState, Stop))
  {
    (r.state, r.stop)
  }

  datatype PlayResult = PlayResult(ret: int, state: PlayState, stop: Stop)

  /** All of `pcm_play`: the setup failures return -1 and touch nothing;
      otherwise the device is primed and, if it starts, streamed to, and the
      result is 0 however the loop ends. */
  function PcmPlay(data: seq<byte>, s: PlayState, env: PlayEnv, accept: nat -> bool, fuel: nat): (r: PlayResult)
    requires CursorOk(data, s.cur)
    ensures CursorOk(data, r.state.cur)
    ensures r.ret == -1 <==> !env.opens || env.config.None? || !env.allocates
    ensures r.ret == -1 ==> r.state == s
    ensures r.ret != -1 ==> r.ret == 0 && NewChunksBounded(s.log, r.state.log, env.config.value.bufferSize)
  {
    if !env.opens then PlayResult(-1, s, OpenFailed)
    else if env.config.None? then PlayResult(-1, s, ConfigFailed)
    else if !env.allocates then PlayResult(-1, s, AllocFailed)
    else
      var cfg := env.config.value;
      var p := Prefill(data, cfg.bufferSize, s, cfg.bufferCount, accept);
      PrefillBounds(data, cfg.bufferSize, s, cfg.bufferCount, accept);
      if !env.starts then PlayResult(0, p, StartFailed)
      else
        var st := Stream(data, cfg.bufferSize, p, 0, env.quitAt, accept, fuel);
        StreamWritesBounded(data, cfg.bufferSize, p, 0, env.quitAt, accept, fuel);
        PlayResult(0, st.state, st.stop)
  }

  // ===== properties of the loop =====

  /** If `quit` is seen at an iteration, the loop ends there: the chunk just
      filled is dropped and nothing more is written. */
  lemma QuitStopsWithoutWrite(data: seq<byte>, bsz: nat, s: PlayState, i: nat, quitAt: nat -> bool,
                              accept: nat -> bool, fuel: nat)
    requires CursorOk(data, s.cur) && fuel > 0 && quitAt(i)
    ensures var r := Stream(data, bsz, s, i, quitAt, accept, fuel);
            r.stop == Quit && r.iterations == 1 && r.state.log == s.log && r.state.repeat == s.repeat
            && r.state.cur == (if s.cur.avail == 0 then s.cur else FillStep(data, s.cur, bsz).after)
  {
  }

  /** A rejected write ends the loop after logging that one chunk. */
  lemma ShortWriteStops(data: seq<byte>, bsz: nat, s: PlayState, i: nat, quitAt: nat -> bool,
                        accept: nat -> bool, fuel: nat)
    requires CursorOk(data, s.cur) && fuel > 0 && !quitAt(i) && s.cur.avail > 0 && !accept(|s.log|)
    ensures var r := Stream(data, bsz, s, i, quitAt, accept, fuel);
            r.stop == ShortWrite && r.iterations == 1 && r.state.log == s.log + [FillStep(data, s.cur, bsz).bytes]
  {
  }

  lemma NewChunksTrans(a: seq<seq<byte>>, b: seq<seq<byte>>, c: seq<seq<byte>>, bsz: nat)
    requires NewChunksBounded(a, b, bsz) && NewChunksBounded(b, c, bsz)
    ensures NewChunksBounded(a, c, bsz)
  {
    assert c[..|a|] == c[..|b|][..|a|];
    forall j | |a| <= j < |c| ensures |c[j]| <= bsz {
      if j < |b| {
        assert c[j] == c[..|b|][j] == b[j];
      }
    }
  }

  /** Every chunk the steady-state loop writes is at most `bsz` bytes, and
      what was logged before is left as it was. */
  lemma {:induction false} StreamWritesBounded(data: seq<byte>, bsz: nat, s: PlayState, i: nat,
                                               quitAt: nat -> bool, accept: nat -> bool, fuel: nat)
    requires CursorOk(data, s.cur)
    ensures NewChunksBounded(s.log, Stream(data, bsz, s, i, quitAt, accept, fuel).state.log, bsz)
    decreases fuel
  {
    if fuel > 0 {
      var t := Step(data, bsz, s, i, quitAt, accept);
      if t.Continue? {
        StreamWritesBounded(data, bsz, t.state, i + 1, quitAt, accept, fuel - 1);
        NewChunksTrans(s.log, t.state.log, Stream(data, bsz, t.state, i + 1, quitAt, accept, fuel - 1).state.log, bsz);
      }
    }
  }

  /** `quit` ends the loop at the first iteration that sees it: every
      iteration before the last saw no `quit`, and a `Quit` stop saw it in
      the last one. */
  lemma {:induction false} StreamStopsAtFirstQuit(data: seq<byte>, bsz: nat, s: PlayState, i: nat,
                                                  quitAt: nat -> bool, accept: nat -> bool, fuel: nat)
    requires CursorOk(data, s.cur)
    ensures StopsAtFirstQuit(Stream(data, bsz, s, i, quitAt, accept, fuel), i, quitAt)
    decreases fuel
  {
    var r := Stream(data, bsz, s, i, quitAt, accept, fuel);
    if fuel == 0 {
      assert r.iterations == 0 && r.stop == OutOfFuel;
    } else {
      var t := Step(data, bsz, s, i, quitAt, accept);
      if t.Done? {
        assert r.iterations == 1 && r.stop == t.stop;
      } else {
        StreamStopsAtFirstQuit(data, bsz, t.state, i + 1, quitAt, accept, fuel - 1);
        var r' := Stream(data, bsz, t.state, i + 1, quitAt, accept, fuel - 1);
        assert r.stop == r'.stop && r.iterations == r'.iterations + 1;
        assert !quitAt(i);
        forall j | i <= j < i + r.iterations - 1 ensures !quitAt(j) {
          if j > i {
            assert i + 1 <= j < i + 1 + r'.iterations - 1;
          }
        }
      }
    }
  }

  predicate StopsAtFirstQuit(r: Streamed, i: nat, quitAt: nat -> bool)
  {
    (r.stop != OutOfFuel ==> r.iterations >= 1)
    && (forall j :: i <= j < i + r.iterations - 1 ==> !quitAt(j))
    && (r.stop == Quit ==> r.iterations >= 1 && quitAt(i + r.iterations - 1))
  }

  /** A short write ends the loop: every write but the last was accepted,
      the last one was rejected exactly when the stop is `ShortWrite`, and
      no iteration writes more than one chunk. */
  lemma {:induction false} StreamStopsAtShortWrite(data: seq<byte>, bsz: nat, s: PlayState, i: nat,
                                                   quitAt: nat -> bool, accept: nat -> bool, fuel: nat)
    requires CursorOk(data, s.cur)
    ensures StopsAtShortWrite(Stream(data, bsz, s, i, quitAt, accept, fuel), s.log, accept)
    decreases fuel
  {
    var r := Stream(data, bsz, s, i, quitAt, accept, fuel);
    if fuel == 0 {
      assert r.state == s && r.stop == OutOfFuel;
    } else {
      var t := Step(data, bsz, s, i, quitAt, accept);
      if t.Done? {
        assert r.state == t.state && r.stop == t.stop && r.iterations == 1;
      } else {
        StreamStopsAtShortWrite(data, bsz, t.state, i + 1, quitAt, accept, fuel - 1);
        var r' := Stream(data, bsz, t.state, i + 1, quitAt, accept, fuel - 1);
        assert r.state == r'.state && r.stop == r'.stop && r.iterations == r'.iterations + 1;
        StreamWritesBounded(data, bsz, t.state, i + 1, quitAt, accept, fuel - 1);
        forall j | |s.log| <= j < |r.state.log| - 1 ensures accept(j) {
          if j > |s.log| || t.state.log == s.log {
            assert |t.state.log| <= j < |r'.state.log| - 1;
          }
        }
      }
    }
  }

  predicate StopsAtShortWrite(r: Streamed, log: seq<seq<byte>>, accept: nat -> bool)
  {
    |r.state.log| - |log| <= r.iterations
    && (forall j :: |log| <= j < |r.state.log| - 1 ==> accept(j))
    && (r.stop == ShortWrite <==> |r.state.log| > |log| && !accept(|r.state.log| - 1))
  }

  /** Iterations needed to finish from cursor `c` with `r` repeats left. */
  function Need(data: seq<byte>, c: Cursor, sz: nat, r: nat): (n: nat)
    requires sz > 0 && CursorOk(data, c)
  {
    |Drain(data, c, sz)| + 1 + Times(r, |Drain(data, Start(data), sz)| + 1)
  }

  /** `r * k`, written out so that the fuel bounds stay linear. */
  function Times(r: nat, k: nat): (p: nat)
    ensures p == r * k
  {
    if r == 0 then 0 else k + Times(r - 1, k)
  }

  /** With no `quit`, every write accepted and `r >= 0` repeats left, the loop
      hands out the rest of the current pass and then `r` whole passes, and
      ends by exhaustion with the repeat count at 0. */
  lemma {:induction false} StreamPasses(data: seq<byte>, sz: nat, s: PlayState, i: nat, quitAt: nat -> bool,
                                        accept: nat -> bool, fuel: nat)
    requires sz > 0 && CursorOk(data, s.cur) && s.repeat >= 0
    requires forall k :: !quitAt(k)
    requires forall k :: accept(k)
    requires fuel >= Need(data, s.cur, sz, s.repeat)
    ensures PassesDone(data, sz, s, Stream(data, sz, s, i, quitAt, accept, fuel))
    decreases fuel, 1
  {
    assert !quitAt(i);
    if s.cur.avail == 0 {
      assert Drain(data, s.cur, sz) == [];
      assert s.cur == Cursor(|data|, 0);
      if s.repeat > 0 {
        StreamPassesRewind(data, sz, s, i, quitAt, accept, fuel);
      }
    } else {
      StreamPassesChunk(data, sz, s, i, quitAt, accept, fuel);
    }
  }

  /** The outcome StreamPasses promises from state `s`. */
  predicate PassesDone(data: seq<byte>, sz: nat, s: PlayState, r: Streamed)
    requires sz > 0 && CursorOk(data, s.cur) && s.repeat >= 0
  {
    r.stop == Exhausted && r.state.repeat == 0 && r.state.cur == Cursor(|data|, 0)
    && r.state.log == s.log + Drain(data, s.cur, sz) + Repeat(Drain(data, Start(data), sz), s.repeat)
  }

  lemma {:induction false} StreamPassesRewind(data: seq<byte>, sz: nat, s: PlayState, i: nat, quitAt: nat -> bool,
                                              accept: nat -> bool, fuel: nat)
    requires sz > 0 && CursorOk(data, s.cur) && s.repeat > 0 && s.cur.avail == 0
    requires forall k :: !quitAt(k)
    requires forall k :: accept(k)
    requires fuel >= Need(data, s.cur, sz, s.repeat)
    ensures PassesDone(data, sz, s, Stream(data, sz, s, i, quitAt, accept, fuel))
    decreases fuel, 0
  {
    var full := Drain(data, Start(data), sz);
    assert Drain(data, s.cur, sz) == [];
    var s' := s.(cur := Start(data), repeat := s.repeat - 1);
    assert Step(data, sz, s, i, quitAt, accept) == Continue(s');
    StreamPasses(data, sz, s', i + 1, quitAt, accept, fuel - 1);
    assert Repeat(full, s.repeat) == full + Repeat(full, s.repeat - 1);
  }

  lemma {:induction false} StreamPassesChunk(data: seq<byte>, sz: nat, s: PlayState, i: nat, quitAt: nat -> bool,
                                             accept: nat -> bool, fuel: nat)
    requires sz > 0 && CursorOk(data, s.cur) && s.repeat >= 0 && s.cur.avail > 0
    requires forall k :: !quitAt(k)
    requires forall k :: accept(k)
    requires fuel >= Need(data, s.cur, sz, s.repeat)
    ensures PassesDone(data, sz, s, Stream(data, sz, s, i, quitAt, accept, fuel))
    decreases fuel, 0
  {
    var f := FillStep(data, s.cur, sz);
    var s' := s.(cur := f.after, log := s.log + [f.bytes]);
    assert accept(|s.log|) && !quitAt(i);
    var rest := Drain(data, f.after, sz);
    var passes := Repeat(Drain(data, Start(data), sz), s.repeat);
    assert Drain(data, s.cur, sz) == [f.bytes] + rest;
    assert Step(data, sz, s, i, quitAt, accept) == Continue(s');
    StreamPasses(data, sz, s', i + 1, quitAt, accept, fuel - 1);
    assert s'.log + rest + passes == s.log + ([f.bytes] + rest) + passes;
  }

  /** A finite repeat count ends the loop before the bound, whatever `quit`
      and the device do: each iteration either ends it, uses up a chunk of
      the pass, or rewinds with one repeat fewer. */
  lemma {:induction false} FiniteTerminates(data: seq<byte>, sz: nat, s: PlayState, i: nat, quitAt: nat -> bool,
                                            accept: nat -> bool, fuel: nat)
    requires sz > 0 && CursorOk(data, s.cur) && s.repeat >= 0
    requires fuel >= Need(data, s.cur, sz, s.repeat)
    ensures Stream(data, sz, s, i, quitAt, accept, fuel).stop != OutOfFuel
    decreases fuel
  {
    var t := Step(data, sz, s, i, quitAt, accept);
    if t.Continue? {
      var f := FillStep(data, s.cur, sz);
      if f.Empty? {
        assert Drain(data, s.cur, sz) == [];
        assert t.state.cur == Start(data) && t.state.repeat == s.repeat - 1;
      } else {
        assert Drain(data, s.cur, sz) == [f.bytes] + Drain(data, f.after, sz);
        assert t.state.cur == f.after && t.state.repeat == s.repeat;
      }
      FiniteTerminates(data, sz, t.state, i + 1, quitAt, accept, fuel - 1);
    }
  }

  /** A buffer size of 0 with bytes left: every fill hands out an empty
      chunk without moving the cursor, the device takes it, and the loop
      never ends on its own. */
  lemma {:induction false} ZeroBufferNeverEnds(data: seq<byte>, s: PlayState, i: nat, quitAt: nat -> bool,
                                               accept: nat -> bool, fuel: nat)
    requires CursorOk(data, s.cur) && s.cur.avail > 0
    requires forall k :: !quitAt(k)
    requires forall k :: accept(k)
    ensures var r := Stream(data, 0, s, i, quitAt, accept, fuel);
            r.stop == OutOfFuel && r.state.cur == s.cur && r.state.log == s.log + Repeat([[]], fuel)
    decreases fuel
  {
    if fuel > 0 {
      var s' := s.(log := s.log + [[]]);
      assert !quitAt(i) && accept(|s.log|);
      assert FillStep(data, s.cur, 0) == Chunk([], s.cur);
      assert Step(data, 0, s, i, quitAt, accept) == Continue(s');
      ZeroBufferNeverEnds(data, s', i + 1, quitAt, accept, fuel - 1);
      assert Repeat<seq<byte>>([[]], fuel) == [[]] + Repeat<seq<byte>>([[]], fuel - 1);
    }
  }

  /** With every write accepted, priming consumes a prefix of the pass: what
      was written plus what is left to drain is the pass from the start. */
  lemma {:induction false} PrefillTakesPrefix(data: seq<byte>, sz: nat, s: PlayState, k: nat, accept: nat -> bool)
    requires sz > 0 && CursorOk(data, s.cur)
    requires forall j :: accept(j)
    ensures var p := Prefill(data, sz, s, k, accept);
            p.log + Drain(data, p.cur, sz) == s.log + Drain(data, s.cur, sz)
    decreases k
  {
    if k > 0 {
      match FillStep(data, s.cur, sz)
      case Empty =>
      case Chunk(b, c') =>
        assert accept(|s.log|);
        var s' := s.(cur := c', log := s.log + [b]);
        assert PrimeRound(data, sz, s, accept) == Continue(s');
        PrefillTakesPrefix(data, sz, s', k - 1, accept);
        assert Drain(data, s.cur, sz) == [b] + Drain(data, c', sz);
    }
  }

  /** The state `pcm_play` starts from once a file is loaded. */
  function Fresh(data: seq<byte>, repeat: int): (s: PlayState)
    ensures CursorOk(data, s.cur) && s.cur.next == 0 && s.cur.avail == |data|
    ensures s.repeat == repeat && s.log == []
  {
    PlayState(Start(data), repeat, [])
  }

  /** End to end: a freshly loaded source with repeat count `r >= 0`, a device
      that opens, configures, starts and accepts every write, and no `quit`:
      `pcm_play` returns 0 after handing the device exactly `r + 1` passes of
      the source, so the device receives the source bytes `r + 1` times. */
  lemma PlayRepeatsSource(data: seq<byte>, r: int, env: PlayEnv, accept: nat -> bool, fuel: nat)
    requires r >= 0 && env.opens && env.allocates && env.starts
    requires env.config.Some? && env.config.value.bufferSize > 0
    requires forall k :: !env.quitAt(k)
    requires forall k :: accept(k)
    requires fuel >= (r + 1) * (|Drain(data, Start(data), env.config.value.bufferSize)| + 1)
    ensures var res := PcmPlay(data, Fresh(data, r), env, accept, fuel);
            res.ret == 0 && res.stop == Exhausted
            && res.state.log == Repeat(Drain(data, Start(data), env.config.value.bufferSize), r + 1)
            && Flatten(res.state.log) == Repeat(data, r + 1)
  {
    var sz := env.config.value.bufferSize;
    var full := Drain(data, Start(data), sz);
    var res := PcmPlay(data, Fresh(data, r), env, accept, fuel);
    assert res.ret == 0 && res.stop == Exhausted && res.state.log == Repeat(full, r + 1) by {
      PcmPlayPasses(data, r, env, accept, fuel);
    }
    assert Flatten(full) == data by {
      DrainShape(data, Start(data), sz);
      assert data[0..] == data;
    }
    FlattenRepeat(full, r + 1);
  }

  lemma PcmPlayPasses(data: seq<byte>, r: int, env: PlayEnv, accept: nat -> bool, fuel: nat)
    requires r >= 0 && env.opens && env.allocates && env.starts
    requires env.config.Some? && env.config.value.bufferSize > 0
    requires forall k :: !env.quitAt(k)
    requires forall k :: accept(k)
    requires fuel >= (r + 1) * (|Drain(data, Start(data), env.config.value.bufferSize)| + 1)
    ensures var res := PcmPlay(data, Fresh(data, r), env, accept, fuel);
            res.ret == 0 && res.stop == Exhausted
            && res.state.log == Repeat(Drain(data, Start(data), env.config.value.bufferSize), r + 1)
  {
    var cfg := env.config.value;
    var sz := cfg.bufferSize;
    var full := Drain(data, Start(data), sz);
    var s := Fresh(data, r);
    var p := Prefill(data, sz, s, cfg.bufferCount, accept);
    assert p.log + Drain(data, p.cur, sz) == full by {
      PrefillTakesPrefix(data, sz, s, cfg.bufferCount, accept);
    }
    assert PassesDone(data, sz, p, Stream(data, sz, p, 0, env.quitAt, accept, fuel)) by {
      MulSucc(r, |full| + 1);
      StreamPasses(data, sz, p, 0, env.quitAt, accept, fuel);
    }
    assert Repeat(full, r + 1) == full + Repeat(full, r);
  }

  /** A negative repeat count is never counted down, so the loop never ends
      by exhausting the source: only `quit`, a short write or fuel end it. */
  lemma NegativeRepeatNeverExhausts(data: seq<byte>, r: int, env: PlayEnv, accept: nat -> bool, fuel: nat)
    requires r < 0
    ensures var res := PcmPlay(data, Fresh(data, r), env, accept, fuel);
            res.stop != Exhausted && res.state.repeat == r
  {
  }

  // ===== the device and the player's globals =====

  /** The playback device as a sink: write number `k` of the session either
      takes the whole chunk (its length is returned) or comes back short. */
  class Device {
    const accept: nat -> bool
    ghost var log: seq<seq<byte>>
    var writes: nat

    ghost predicate Valid()
      reads this
    {
      writes == |log|
    }

    constructor (accept: nat -> bool)
      ensures Valid() && this.accept == accept && log == []
    {
      this.accept := accept;
      log := [];
      writes := 0;
    }

    method Write(chunk: seq<byte>) returns (n: int)
      requires Valid()
      modifies this
      ensures Valid() && log == old(log) + [chunk]
      ensures n == if accept(|old(log)|) then |chunk| else -1
    {
      n := if accept(writes) then |chunk| else -1;
      log := log + [chunk];
      writes := writes + 1;
    }
  }

  /** The file-level state of the player: the in-memory copy of the sample
      data (`org_next`/`org_avail`), the cursor (`next`/`avail`) and the
      repeat count. */
  class Player {
    const data: seq<byte>
    var next: nat
    var avail: nat
    var repeat: int

    ghost predicate Valid()
      reads this
    {
      next + avail == |data|
    }

    ghost function State(dev: Device): PlayState
      reads this, dev
    {
      PlayState(Cursor(next, avail), repeat, dev.log)
    }

    /** Loading the sample data: the cursor covers all of it. */
    constructor (data: seq<byte>, repeat: int)
      ensures Valid() && this.data == data && next == 0 && avail == |data| && this.repeat == repeat
    {
      this.data := data;
      next := 0;
      avail := |data|;
      this.repeat := repeat;
    }

    /** `fill_buffer`: -1 once nothing is left; otherwise copies out and
        advances past min(sz, avail) bytes. */
    method Fill(sz: nat) returns (n: int, chunk: seq<byte>)
      requires Valid()
      modifies this`next, this`avail
      ensures Valid()
      ensures n == -1 <==> old(avail) == 0
      ensures n == -1 ==> next == old(next) && avail == old(avail)
      ensures n != -1 ==> n == Min(sz, old(avail)) && next == old(next) + n && avail == old(avail) - n
                          && chunk == data[old(next)..next]
      ensures FillStep(data, Cursor(old(next), old(avail)), sz)
              == if n == -1 then Empty else Chunk(chunk, Cursor(next, avail))
    {
      var cpy := Min(sz, avail);
      if avail == 0 {
        return -1, [];
      }
      chunk := data[next..next + cpy];
      next := next + cpy;
      avail := avail - cpy;
      n := cpy;
    }

    /** The prefill loop of `pcm_play`: at most `count` fill-and-write rounds. */
    method Prime(bsz: nat, count: nat, dev: Device)
      requires Valid() && dev.Valid()
      modifies this, dev
      ensures Valid() && dev.Valid() && repeat == old(repeat)
      ensures State(dev) == Prefill(data, bsz, old(State(dev)), count, dev.accept)
    {
      ghost var pre := Prefill(data, bsz, State(dev), count, dev.accept);
      var left := count;
      while left > 0
        invariant Valid() && dev.Valid()
        invariant Prefill(data, bsz, State(dev), left, dev.accept) == pre
      {
        var done := Round(bsz, dev);
        if done {
          break;
        }
        left := left - 1;
      }
    }

    /** One prefill round: fill, then write unless the source is exhausted;
        `done` tells whether priming is over. */
    method Round(bsz: nat, dev: Device) returns (done: bool)
      requires Valid() && dev.Valid()
      modifies this, dev
      ensures Valid() && dev.Valid()
      ensures var t := PrimeRound(data, bsz, old(State(dev)), dev.accept);
              State(dev) == t.state && (done <==> t.Done?)
    {
      var sz, chunk := Fill(bsz);
      if sz < 0 {
        return true;
      }
      var w := dev.Write(chunk);
      return w != sz;
    }

    /** One iteration of the steady-state loop: fill, then either stop,
        rewind, or write the chunk. `done` tells whether the loop is over. */
    method Iterate(bsz: nat, quitAt: nat -> bool, dev: Device, i: nat) returns (done: bool, stop: Stop)
      requires Valid() && dev.Valid()
      modifies this, dev
      ensures Valid() && dev.Valid()
      ensures var t := Step(data, bsz, old(State(dev)), i, quitAt, dev.accept);
              State(dev) == t.state && (done <==> t.Done?) && (done ==> stop == t.stop)
    {
      var sz, chunk := Fill(bsz);
      if sz < 0 || quitAt(i) {
        if repeat == 0 || quitAt(i) {
          return true, if quitAt(i) then Quit else Exhausted;
        }
        next, avail := 0, |data|;
        if repeat > 0 {
          repeat := repeat - 1;
        }
        return false, OutOfFuel;
      }
      var w := dev.Write(chunk);
      if w != sz {
        return true, ShortWrite;
      }
      return false, OutOfFuel;
    }

    /** The steady-state loop of `pcm_play`, run for at most `fuel` iterations;
        `quitAt(i)` is the value of `quit` at iteration `i`. */
    method Steady(bsz: nat, quitAt: nat -> bool, dev: Device, fuel: nat) returns (stop: Stop)
      requires Valid() && dev.Valid()
      modifies this, dev
      ensures Valid() && dev.Valid()
      ensures var r := Stream(data, bsz, old(State(dev)), 0, quitAt, dev.accept, fuel);
              stop == r.stop && State(dev) == r.state
    {
      ghost var g := State(dev);
      ghost var st := Outcome(Stream(data, bsz, g, 0, quitAt, dev.accept, fuel));
      var i, left := 0, fuel;
      var done := false;
      stop := OutOfFuel;
      while left > 0 && !done
        invariant Valid() && dev.Valid() && g == State(dev) && CursorOk(data, g.cur)
        invariant done ==> st == (g, stop)
        invariant !done ==> Outcome(Stream(data, bsz, g, i, quitAt, dev.accept, left)) == st
      {
        ghost var t := Step(data, bsz, g, i, quitAt, dev.accept);
        StreamUnfolds(data, bsz, g, i, quitAt, dev.accept, left);
        done, stop := Iterate(bsz, quitAt, dev, i);
        g := t.state;
        i, left := i + 1, left - 1;
      }
      if !done {
        stop := OutOfFuel;
      }
    }

    /** `pcm_play` with the source callback bound to `Fill`. */
    method Play(env: PlayEnv, dev: Device, fuel: nat) returns (ret: int, stop: Stop)
      requires Valid() && dev.Valid()
      modifies this, dev
      ensures Valid() && dev.Valid()
      ensures var r := PcmPlay(data, old(State(dev)), env, dev.accept, fuel);
              ret == r.ret && stop == r.stop && State(dev) == r.state
    {
      if !env.opens {
        return -1, OpenFailed;
      }
      if env.config.None? {
        return -1, ConfigFailed;
      }
      if !env.allocates {
        return -1, AllocFailed;
      }
      var bsz := env.config.value.bufferSize;
      Prime(bsz, env.config.value.bufferCount, dev);
      if !env.starts {
        return 0, StartFailed;
      }
      stop := Steady(bsz, env.quitAt, dev, fuel);
      ret := 0;
    }
  }

  // ===== wav_play and play_file =====

  /** `wav_play` and `play_file`: `file` is the file's contents (None when it
      cannot be opened) and `allocates` whether the `data_sz`-byte copy can
      be allocated. A file that cannot be opened, read or accepted, or a
      failed allocation, returns -1 before the device is touched; otherwise
      the samples are loaded into a new player with repeat count `repeat`
      and played on a fresh device session. */
  method WavPlay(file: Option<seq<byte>>, allocates: bool, repeat: int, env: PlayEnv,
                 accept: nat -> bool, fuel: nat) returns (ret: int, dev: Device)
    ensures fresh(dev) && dev.Valid() && dev.accept == accept
    ensures file.None? || LoadWav(file.value).Err? || !allocates ==> ret == -1 && dev.log == []
    ensures file.Some? && LoadWav(file.value).Ok? && allocates ==>
              var samples := LoadWav(file.value).value.samples;
              var r := PcmPlay(samples, Fresh(samples, repeat), env, accept, fuel);
              ret == r.ret && dev.log == r.state.log
  {
    dev := new Device(accept);
    if file.None? {
      return -1, dev;
    }
    var loaded := LoadWav(file.value);
    if loaded.Err? || !allocates {
      return -1, dev;
    }
    var player := new Player(loaded.value.samples, repeat);
    var stop;
    ret, stop := player.Play(env, dev, fuel);
  }
}
