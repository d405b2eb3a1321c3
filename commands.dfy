/** The command side of the test tool: the `playpcm` option tokens (with
    the `-repeat=` mapping) and the two control handlers that turn a
    `-cmd=stop` token into the stop flag of a running session. */
module Commands {
  import opened Wrappers
  import opened Bytes
  import opened PcmPlayback

  predicate HasPrefix(s: string, p: string)
  {
    |p| <= |s| && s[..|p|] == p
  }

  /** A token is the prefix followed by the rest exactly when it starts
      with the prefix and what follows it is that rest. */
  lemma PrefixSplit(s: string, p: string, rest: string)
    ensures HasPrefix(s, p) && s[|p|..] == rest <==> s == p + rest
  {
    if s == p + rest {
      assert s[..|p|] == p;
      assert s[|p|..] == rest;
    }
    if HasPrefix(s, p) && s[|p|..] == rest {
      assert s == s[..|p|] + s[|p|..];
    }
  }

  // ===== the -repeat= option =====

  /** `-repeat=N`: N >= 1 plays N passes, kept as the count N - 1 of
      repeats still to come; 0 (and, as written, any negative N) means
      for ever, since a negative count is never counted down. */
  function RepeatFromOption(n: int): (r: int)
    ensures r >= 0 <==> n >= 1
    ensures n >= 1 ==> r + 1 == n
    ensures n == 0 ==> r == -1
    ensures n != 0 ==> r == n - 1
  {
    if n == 0 then -1 else n - 1
  }

  /** `-repeat=N` with N >= 1: with a device that opens, configures, starts
      and takes every write and no stop command, the session plays the
      source exactly N times and ends by exhaustion. */
  lemma RepeatOptionPlaysNTimes(data: seq<byte>, n: int, env: PlayEnv, accept: nat -> bool, fuel: nat)
    requires n >= 1 && env.opens && env.allocates && env.starts
    requires env.config.Some? && env.config.value.bufferSize > 0
    requires forall k :: !env.quitAt(k)
    requires forall k :: accept(k)
    requires fuel >= n * (|Drain(data, Start(data), env.config.value.bufferSize)| + 1)
    ensures var res := PcmPlay(data, Fresh(data, RepeatFromOption(n)), env, accept, fuel);
            res.ret == 0 && res.stop == Exhausted && Flatten(res.state.log) == Repeat(data, n)
  {
    var r := RepeatFromOption(n);
    assert r + 1 == n;
    PlayRepeatsSource(data, r, env, accept, fuel);
  }

  /** `-repeat=N` with N <= 0: the session never ends by exhausting the
      source, whatever the device and the stop commands do. */
  lemma RepeatOptionForever(data: seq<byte>, n: int, env: PlayEnv, accept: nat -> bool, fuel: nat)
    requires n <= 0
    ensures PcmPlay(data, Fresh(data, RepeatFromOption(n)), env, accept, fuel).stop != Exhausted
  {
    NegativeRepeatNeverExhausts(data, RepeatFromOption(n), env, accept, fuel);
  }

  // ===== the playpcm options =====

  datatype PlayOption = IdOption | DeviceOption | RepeatOption | FileOption

  /** How a token is read: by its prefix, in the order the options are
      tried; anything else names the file to play. */
  function OptionKind(t: string): (k: PlayOption)
  {
    if HasPrefix(t, "-id=") then IdOption
    else if HasPrefix(t, "-dev=") then DeviceOption
    else if HasPrefix(t, "-repeat=") then RepeatOption
    else FileOption
  }

  /** The index of the last token of kind `k`, if any. */
  function LastOf(tokens: seq<string>, k: PlayOption): (r: Option<nat>)
    ensures r.Some? ==> r.value < |tokens| && OptionKind(tokens[r.value]) == k
                        && forall j :: r.value < j < |tokens| ==> OptionKind(tokens[j]) != k
    ensures r.None? ==> forall j :: 0 <= j < |tokens| ==> OptionKind(tokens[j]) != k
  {
    if |tokens| == 0 then None
    else if OptionKind(tokens[|tokens| - 1]) == k then Some(|tokens| - 1)
    else LastOf(tokens[..|tokens| - 1], k)
  }

  const DefaultPlayFile: string := "/data/data.wav"
  const DefaultPlayDevice: string := "/dev/msm_pcm_out"

  /** The session settings the options produce; `id` is None when no
      `-id=` token leaves the context id as it was. */
  datatype PlayParams = PlayParams(fileName: string, device: string, repeat: int, id: Option<int>)

  /** What a token list sets: for each setting the last token of its kind
      wins, and the defaults stand when there is none. `atoi` is the C
      library's number parser. */
  function OptionParams(tokens: seq<string>, atoi: string -> int): (p: PlayParams)
  {
    PlayParams(
      match LastOf(tokens, FileOption)
      case None => DefaultPlayFile
      case Some(j) => tokens[j],
      match LastOf(tokens, DeviceOption)
      case None => DefaultPlayDevice
      case Some(j) => tokens[j][5..],
      match LastOf(tokens, RepeatOption)
      case None => 0
      case Some(j) => RepeatFromOption(atoi(tokens[j][8..])),
      match LastOf(tokens, IdOption)
      case None => None
      case Some(j) => Some(atoi(tokens[j][4..])))
  }

  /** One more token overrides the one setting its kind names and leaves
      the others as they were. */
  lemma OptionParamsSnoc(ts: seq<string>, t: string, atoi: string -> int)
    ensures var p := OptionParams(ts, atoi);
            OptionParams(ts + [t], atoi)
            == match OptionKind(t)
               case IdOption => p.(id := Some(atoi(t[4..])))
               case DeviceOption => p.(device := t[5..])
               case RepeatOption => p.(repeat := RepeatFromOption(atoi(t[8..])))
               case FileOption => p.(fileName := t)
  {
    var ts' := ts + [t];
    assert ts'[..|ts'| - 1] == ts;
    assert ts'[|ts'| - 1] == t;
  }

  /** `pcmplay_read_params`: with no free context, -1; otherwise start from
      the defaults (repeat 0) and let each token in turn overwrite the
      setting it names. */
  method ReadPlayParams(tokens: seq<string>, atoi: string -> int, contextFree: bool)
    returns (ret: int, p: PlayParams)
    ensures ret == -1 <==> !contextFree
    ensures ret != -1 ==> ret == 0 && p == OptionParams(tokens, atoi)
  {
    if !contextFree {
      return -1, PlayParams(DefaultPlayFile, DefaultPlayDevice, 0, None);
    }
    ret := 0;
    p := PlayParams(DefaultPlayFile, DefaultPlayDevice, 0, None);
    var n := 0;
    while n < |tokens|
      invariant n <= |tokens| && p == OptionParams(tokens[..n], atoi)
    {
      var t := tokens[n];
      OptionParamsSnoc(tokens[..n], t, atoi);
      assert tokens[..n + 1] == tokens[..n] + [t];
      if HasPrefix(t, "-id=") {
        p := p.(id := Some(atoi(t[4..])));
      } else if HasPrefix(t, "-dev=") {
        p := p.(device := t[5..]);
      } else if HasPrefix(t, "-repeat=") {
        p := p.(repeat := RepeatFromOption(atoi(t[8..])));
      } else {
        p := p.(fileName := t);
      }
      n := n + 1;
    }
    assert tokens[..n] == tokens;
  }

  // ===== the control handlers =====

  /** What a control handler does: its return value and whether it raises
      the session's stop flag. */
  datatype ControlResult = ControlResult(ret: int, stop: bool)

  const CmdPrefix: string := "-cmd="

  /** `pcm_play_control_handler`: -1 without a session or a token, 0
      otherwise. Only the build with the session extensions (`stopBuild`)
      reads the command, and `-cmd=stop` then raises `quit`; any other
      token is ignored. */
  function PlayControl(hasPrivateData: bool, token: Option<string>, stopBuild: bool): (r: ControlResult)
    ensures r.ret == -1 <==> !hasPrivateData || token.None?
    ensures r.ret != -1 ==> r.ret == 0
    ensures r.stop <==> stopBuild && r.ret == 0 && token == Some(CmdPrefix + "stop")
  {
    if !hasPrivateData || token.None? then ControlResult(-1, false)
    else
      var t := token.value;
      PrefixSplit(t, CmdPrefix, "stop");
      if stopBuild && HasPrefix(t, CmdPrefix) then ControlResult(0, t[|CmdPrefix|..] == "stop")
      else ControlResult(0, false)
  }

  /** `pcm_rec_control_handler`: -1 without a session or a token, 0
      otherwise; `-cmd=stop` raises `rec_stop` in every build. */
  function RecControl(hasPrivateData: bool, token: Option<string>): (r: ControlResult)
    ensures r.ret == -1 <==> !hasPrivateData || token.None?
    ensures r.ret != -1 ==> r.ret == 0
    ensures r.stop <==> r.ret == 0 && token == Some(CmdPrefix + "stop")
  {
    if !hasPrivateData || token.None? then ControlResult(-1, false)
    else
      var t := token.value;
      PrefixSplit(t, CmdPrefix, "stop");
      if HasPrefix(t, CmdPrefix) then ControlResult(0, t[|CmdPrefix|..] == "stop")
      else ControlResult(0, false)
  }
}
