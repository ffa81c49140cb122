/** The SOS sequencer: the start/stop toggle, the coroutine that repeats
    beep, light pattern and pause, one pass of the light pattern, and the
    beep routine.

    The coroutine reads the shared `isSOSActive` flag at the head of each
    round and at each symbol boundary of a pass. Those reads are modelled as
    a sequence `flags` of observed values, consumed in order; once the
    sequence is exhausted the flag reads false (the session has been
    stopped). Time is not modelled: every suspension is a `Delay` command. */
module Sos {
  import opened Commands
  import opened Device

  const ShortMs: nat := 200
  const LongMs: nat := 600
  const PauseMs: nat := 400
  /** Pause after a complete pattern, before the next round. */
  const RoundPauseMs: nat := 3000

  /** On-durations of the eleven symbols of one pass: three short, a pause
      entry, three long, a pause entry, three short. The pause entries light
      the torch like every other entry. */
  const Pattern: seq<nat> := [ShortMs, ShortMs, ShortMs, PauseMs,
                              LongMs, LongMs, LongMs, PauseMs,
                              ShortMs, ShortMs, ShortMs]

  /** One symbol: light, beep, hold for `d`, dark, then a short gap. The
      torch is asked for on and then off, and the symbol waits its duration
      and then the gap; the beep is issued while the torch is lit. */
  function Group(d: nat): (r: seq<Command>)
    ensures Torches(r) == [true, false]
    ensures Delays(r) == [d, ShortMs]
    ensures |r| == 5 && r[0] == SetTorch(true) && r[1] == Beep
    // the torch stays lit through the hold and is dark through the gap
    ensures r[2] == Delay(d) && r[3] == SetTorch(false) && r[4] == Delay(ShortMs)
    ensures forall on :: LitTime(r, on) == d && !TorchAfter(r, on)
  {
    var r := [SetTorch(true), Beep, Delay(d), SetTorch(false), Delay(ShortMs)];
    GroupProjects(d, TorchOf);
    GroupProjects(d, DelayOf);
    GroupLitTime(d);
    r
  }

  /** Walking one symbol's commands: lit through the hold, dark after. */
  lemma GroupLitTime(d: nat)
    ensures forall on ::
              LitTime([SetTorch(true), Beep, Delay(d), SetTorch(false), Delay(ShortMs)], on) == d &&
              !TorchAfter([SetTorch(true), Beep, Delay(d), SetTorch(false), Delay(ShortMs)], on)
  {
    var t := [SetTorch(true), Beep, Delay(d), SetTorch(false), Delay(ShortMs)];
    assert t[1..] == [Beep, Delay(d), SetTorch(false), Delay(ShortMs)];
    assert t[2..] == [Delay(d), SetTorch(false), Delay(ShortMs)];
    assert t[3..] == [SetTorch(false), Delay(ShortMs)];
    assert t[4..] == [Delay(ShortMs)];
    assert LitTime(t[4..], false) == 0 && !TorchAfter(t[4..], false);
    assert LitTime(t[3..], true) == 0 && !TorchAfter(t[3..], true);
    assert LitTime(t[2..], true) == d && !TorchAfter(t[2..], true);
    assert LitTime(t[1..], true) == d && !TorchAfter(t[1..], true);
  }

  /** Projecting one symbol projects its five commands in turn. */
  lemma GroupProjects<T>(d: nat, f: Command -> seq<T>)
    ensures Project([SetTorch(true), Beep, Delay(d), SetTorch(false), Delay(ShortMs)], f) ==
            f(SetTorch(true)) + f(Beep) + f(Delay(d)) + f(SetTorch(false)) + f(Delay(ShortMs))
  {
    var t4 := [Delay(ShortMs)];
    var t3 := [SetTorch(false)] + t4;
    var t2 := [Delay(d)] + t3;
    var t1 := [Beep] + t2;
    ProjectSingle(Delay(ShortMs), f);
    ProjectCons(SetTorch(false), t4, f);
    ProjectCons(Delay(d), t3, f);
    ProjectCons(Beep, t2, f);
    ProjectCons(SetTorch(true), t1, f);
    assert [SetTorch(true)] + t1 ==
           [SetTorch(true), Beep, Delay(d), SetTorch(false), Delay(ShortMs)];
  }

  /** Back-to-back symbols keep the torch lit for exactly their durations
      and leave it dark. */
  lemma {:induction false} GroupsLit(ds: seq<nat>)
    ensures LitTime(Groups(ds), false) == Sum(ds)
    ensures !TorchAfter(Groups(ds), false)
  {
    if ds != [] {
      var g := Group(ds[0]);
      GroupsLit(ds[1..]);
      LitTimeAppend(g, Groups(ds[1..]), false);
    }
  }

  /** The symbols for `ds`, back to back, five commands each. */
  function Groups(ds: seq<nat>): (r: seq<Command>)
    ensures |r| == 5 * |ds|
  {
    if ds == [] then [] else Group(ds[0]) + Groups(ds[1..])
  }

  /** Number of leading `true` observations. */
  function LeadingTrue(flags: seq<bool>): nat
  {
    if flags == [] || !flags[0] then 0 else 1 + LeadingTrue(flags[1..])
  }

  function Min(a: nat, b: nat): nat
  {
    if a <= b then a else b
  }

  /** What a piece of the coroutine emitted, and the flag observations it
      left for later reads. */
  datatype Run = Run(trace: seq<Command>, rest: seq<bool>)

  /** The symbol loop of a pass over `ds`: before each symbol the flag is
      read, and a false read ends the pass at once. It never consumes more
      reads than it is given. */
  function PassRun(ds: seq<nat>, flags: seq<bool>): (r: Run)
    ensures |r.rest| <= |flags|
    decreases |ds|
  {
    if ds == [] then Run([], flags)
    else if flags == [] then Run([], [])
    else if !flags[0] then Run([], flags[1..])
    else
      var tail := PassRun(ds[1..], flags[1..]);
      Run(Group(ds[0]) + tail.trace, tail.rest)
  }

  /** The pass emits the complete symbols for exactly the entries before the
      first false read, and consumes those reads plus the false one. */
  lemma {:induction false} PassRunStopsAtFirstFalse(ds: seq<nat>, flags: seq<bool>)
    ensures var k := Min(|ds|, LeadingTrue(flags));
            var r := PassRun(ds, flags);
            r.trace == Groups(ds[..k]) &&
            r.rest == flags[Min(|flags|, if k < |ds| then k + 1 else k)..]
    decreases |ds|
  {
    if ds != [] && flags != [] && flags[0] {
      PassRunStopsAtFirstFalse(ds[1..], flags[1..]);
      assert ds[..Min(|ds|, LeadingTrue(flags))] ==
             [ds[0]] + ds[1..][..Min(|ds[1..]|, LeadingTrue(flags[1..]))];
    }
  }

  /** The symbol loop as the source writes it, an early-exit loop over the
      pattern, shown equal to the recursive definition. */
  method PassLoop(ds: seq<nat>, flags: seq<bool>) returns (trace: seq<Command>, rest: seq<bool>)
    ensures Run(trace, rest) == PassRun(ds, flags)
  {
    trace := [];
    rest := flags;
    var i := 0;
    while i < |ds|
      invariant 0 <= i <= |ds|
      invariant PassRun(ds, flags) ==
                Run(trace + PassRun(ds[i..], rest).trace, PassRun(ds[i..], rest).rest)
      decreases |ds| - i
    {
      ghost var p := PassRun(ds[i..], rest);
      assert ds[i..][1..] == ds[i + 1..];
      if rest == [] || !rest[0] {
        assert p.trace == [];
        rest := if rest == [] then [] else rest[1..];
        assert trace + [] == trace;
        return;
      }
      assert p.trace == Group(ds[i]) + PassRun(ds[i + 1..], rest[1..]).trace;
      assert trace + p.trace == (trace + Group(ds[i])) + PassRun(ds[i + 1..], rest[1..]).trace;
      trace := trace + Group(ds[i]);
      rest := rest[1..];
      i := i + 1;
    }
    assert ds[i..] == [];
    assert trace + [] == trace;
  }

  /** One call of the pattern routine. Without torch support it only shows a
      notice; without a camera id it does nothing; otherwise it runs the
      symbol loop over `Pattern`. */
  function FlashSos(env: Env, flags: seq<bool>): (r: Run)
    ensures |r.rest| <= |flags|
    ensures env.CanTorch() ==> r == PassRun(Pattern, flags)
    // otherwise no flag is read; without torch support the only command is
    // the notice, shown on every call, and without a camera id there is none
    ensures !env.CanTorch() ==>
              r == Run(if env.torchSupported then [] else [Show(SosUnsupported)], flags) &&
              Torches(r.trace) == []
  {
    if !env.torchSupported then Run([Show(SosUnsupported)], flags)
    else if !env.hasCamera then Run([], flags)
    else PassRun(Pattern, flags)
  }

  /** The coroutine: while the flag reads true, beep, run one pattern pass,
      and pause for `RoundPauseMs`. A pass cut short by a false read is still
      followed by the pause before the loop head reads the flag again. */
  function Job(env: Env, flags: seq<bool>): (r: seq<Command>)
    // the coroutine is silent exactly when its first read sees the flag false
    ensures r == [] <==> flags == [] || !flags[0]
    // every round opens with the beep and closes with the round pause
    ensures r != [] ==> r[0] == Beep && r[|r| - 1] == Delay(RoundPauseMs)
    decreases |flags|
  {
    if flags == [] || !flags[0] then []
    else
      var pass := FlashSos(env, flags[1..]);
      [Beep] + pass.trace + [Delay(RoundPauseMs)] + Job(env, pass.rest)
  }

  /** The beep routine: a player that is already playing is paused and
      rewound to position zero before it is started again, so cues never
      layer; without a media player nothing is issued. */
  function PlayBeep(env: Env, isPlaying: bool): (r: seq<Command>)
    ensures env.hasPlayer <==> MediaStart in r
    ensures env.hasPlayer ==> r[|r| - 1] == MediaStart && MediaStart !in r[..|r| - 1]
    ensures MediaPause in r <==> env.hasPlayer && isPlaying
    ensures MediaSeekTo(0) in r <==> env.hasPlayer && isPlaying
    ensures env.hasPlayer && isPlaying ==> r[..2] == [MediaPause, MediaSeekTo(0)]
    ensures |r| == (if !env.hasPlayer then 0 else if isPlaying then 3 else 1)
    ensures forall i :: 0 <= i < |r| ==> r[i] in {MediaPause, MediaSeekTo(0), MediaStart}
  {
    if !env.hasPlayer then []
    else if isPlaying then [MediaPause, MediaSeekTo(0), MediaStart]
    else [MediaStart]
  }

  /** The part of the media player the routines rely on: whether it is
      playing, and its playback position in milliseconds. An idle player
      (freshly prepared, or finished with its cue) starts the cue from the
      beginning, which is recorded here as position 0. */
  datatype Player = Player(playing: bool, pos: nat)

  /** The effect of one media command on the player; other commands leave it
      alone. Stopping and re-preparing returns it to the start of the cue. */
  function MediaStep(p: Player, c: Command): Player
  {
    match c
    case MediaPause => p.(playing := false)
    case MediaSeekTo(x) => p.(pos := x)
    case MediaStart => p.(playing := true)
    case MediaStop => p.(playing := false)
    case MediaPrepare => p.(pos := 0)
    case _ => p
  }

  /** The player after a sequence of commands. */
  function MediaRun(p: Player, t: seq<Command>): Player
    decreases |t|
  {
    if t == [] then p else MediaRun(MediaStep(p, t[0]), t[1..])
  }

  /** Whatever the player was doing, a beep leaves it playing the cue from
      its start: a cue in progress is restarted rather than continued. */
  lemma BeepRestartsCue(env: Env, p: Player)
    requires env.hasPlayer
    requires p.playing || p.pos == 0
    ensures MediaRun(p, PlayBeep(env, p.playing)) == Player(true, 0)
  {
    var t := PlayBeep(env, p.playing);
    if p.playing {
      var p1 := p.(playing := false);
      var p2 := p1.(pos := 0);
      assert t[1..] == [MediaSeekTo(0), MediaStart] && t[2..] == [MediaStart] && t[3..] == [];
      assert MediaRun(p, t) == MediaRun(p1, t[1..]);
      assert MediaRun(p1, t[1..]) == MediaRun(p2, t[2..]);
      assert MediaRun(p2, t[2..]) == MediaRun(p2.(playing := true), t[3..]);
    } else {
      assert t[1..] == [];
      assert MediaRun(p, t) == MediaRun(p.(playing := true), t[1..]);
    }
  }

  /** Stopping a session leaves the player idle at the start of the cue, so
      the next session's first beep starts the cue from the beginning. */
  lemma StopRewindsPlayer(s: State, env: Env, p: Player)
    requires s.isSOSActive && env.hasPlayer
    ensures var stop := ToggleSos(s, env);
            var q := MediaRun(p, stop.trace);
            q == Player(false, 0) &&
            MediaRun(q, PlayBeep(env, q.playing)) == Player(true, 0)
  {
    var t := ToggleSos(s, env).trace;
    assert t == [CancelSos, MediaStop, MediaPrepare];
    assert t[1..] == [MediaStop, MediaPrepare] && t[2..] == [MediaPrepare] && t[3..] == [];
    var p1 := p.(playing := false);
    assert MediaRun(p, t) == MediaRun(p, t[1..]);
    assert MediaRun(p, t[1..]) == MediaRun(p1, t[2..]);
    assert MediaRun(p1, t[2..]) == MediaRun(p1.(pos := 0), t[3..]);
    BeepRestartsCue(env, Player(false, 0));
  }

  /** The SOS control. Starting launches the coroutine; stopping cancels it
      and stops and re-prepares the media player. Stopping issues no torch
      request, so a torch that is on at that moment stays on. */
  function ToggleSos(s: State, env: Env): (r: Step)
    ensures r.state == s.(isSOSActive := !s.isSOSActive)
    ensures Torches(r.trace) == []
    ensures r.state.isSOSActive ==> r.trace == [LaunchSos]
    ensures !r.state.isSOSActive ==>
              r.trace == [CancelSos] + (if env.hasPlayer then [MediaStop, MediaPrepare] else [])
  {
    var t := s.(isSOSActive := !s.isSOSActive);
    if t.isSOSActive then
      ProjectSingle(LaunchSos, TorchOf);
      Step(t, [LaunchSos])
    else
      var media := if env.hasPlayer then [MediaStop, MediaPrepare] else [];
      ProjectCons(CancelSos, media, TorchOf);
      ProjectPair(MediaStop, MediaPrepare, TorchOf);
      Step(t, [CancelSos] + media)
  }

  // ---------------------------------------------------------------------
  // Properties of a pass

  /** Back-to-back symbols: torch requests alternate on/off, there are two
      per symbol and one on per symbol, and the waits sum to the symbol
      durations plus one gap per symbol. */
  lemma {:induction false} GroupsFacts(ds: seq<nat>)
    ensures Alternating(Torches(Groups(ds)))
    ensures |Torches(Groups(ds))| == 2 * |ds|
    ensures CountOn(Torches(Groups(ds))) == |ds|
    ensures TotalDelay(Groups(ds)) == Sum(ds) + ShortMs * |ds|
  {
    if ds != [] {
      var g := Group(ds[0]);
      var rest := Groups(ds[1..]);
      GroupsFacts(ds[1..]);
      ProjectAppend(g, rest, TorchOf);
      ProjectAppend(g, rest, DelayOf);
      AlternatingAppend([true, false], Torches(rest));
      CountOnAppend([true, false], Torches(rest));
      SumAppend([ds[0], ShortMs], Delays(rest));
      assert Sum([ds[0], ShortMs]) == ds[0] + ShortMs;
    }
  }

  /** Symbol `i` of back-to-back symbols sits at positions `5 * i` to
      `5 * i + 5`. */
  lemma {:induction false} GroupsIndex(ds: seq<nat>, i: nat)
    requires i < |ds|
    ensures |Groups(ds)| == 5 * |ds|
    ensures Groups(ds)[5 * i .. 5 * i + 5] == Group(ds[i])
  {
    GroupsFacts(ds);
    if i > 0 {
      GroupsIndex(ds[1..], i - 1);
      assert Groups(ds)[5 * i .. 5 * i + 5] == Groups(ds[1..])[5 * (i - 1) .. 5 * (i - 1) + 5];
    }
  }

  lemma PatternSum()
    ensures |Pattern| == 11
    ensures Sum(Pattern) == 3800
  {
    var p := Pattern;
    assert p[11..] == [];
    SumSuffix(p, 10);
    SumSuffix(p, 9);
    SumSuffix(p, 8);
    SumSuffix(p, 7);
    SumSuffix(p, 6);
    SumSuffix(p, 5);
    SumSuffix(p, 4);
    SumSuffix(p, 3);
    SumSuffix(p, 2);
    SumSuffix(p, 1);
    SumSuffix(p, 0);
    assert p[0..] == p;
  }

  /** A full pass, with every flag read true: eleven symbols in pattern
      order, eleven torch-on requests alternating with torch-off requests,
      6000 ms of waiting in total, and the torch left off. */
  lemma FullPass(env: Env, flags: seq<bool>)
    requires env.CanTorch()
    requires LeadingTrue(flags) >= |Pattern|
    ensures var t := FlashSos(env, flags).trace;
            |t| == 5 * 11 &&
            (forall i :: 0 <= i < 11 ==> t[5 * i .. 5 * i + 5] == Group(Pattern[i])) &&
            CountOn(Torches(t)) == 11 &&
            Alternating(Torches(t)) && |Torches(t)| == 22 &&
            Torches(t)[21] == false &&
            TotalDelay(t) == 6000
  {
    PatternSum();
    var t := FlashSos(env, flags).trace;
    PassRunStopsAtFirstFalse(Pattern, flags);
    assert Pattern[..11] == Pattern;
    assert t == Groups(Pattern);
    GroupsFacts(Pattern);
    forall i | 0 <= i < 11
      ensures t[5 * i .. 5 * i + 5] == Group(Pattern[i])
    {
      GroupsIndex(Pattern, i);
    }
  }

  /** A full pass keeps the torch lit for 3800 ms and dark for 2200 ms,
      and ends dark. */
  lemma FullPassLit(env: Env, flags: seq<bool>)
    requires env.CanTorch()
    requires LeadingTrue(flags) >= |Pattern|
    ensures var t := FlashSos(env, flags).trace;
            LitTime(t, false) == 3800 && TotalDelay(t) - LitTime(t, false) == 2200 &&
            !TorchAfter(t, false)
  {
    FullPass(env, flags);
    PatternSum();
    PassRunStopsAtFirstFalse(Pattern, flags);
    assert Pattern[..11] == Pattern;
    GroupsLit(Pattern);
    LitTimeBound(FlashSos(env, flags).trace, false);
  }

  /** A false read at symbol boundary `k` ends the pass: it emits exactly the
      first `k` complete symbols, nothing of the rest, whatever the later
      reads would have been. */
  lemma StopAtBoundary(env: Env, flags: seq<bool>, k: nat, later: seq<bool>)
    requires env.CanTorch()
    requires k < |Pattern| && k < |flags|
    requires !flags[k] && forall j :: 0 <= j < k ==> flags[j]
    ensures FlashSos(env, flags).trace == Groups(Pattern[..k])
    ensures FlashSos(env, flags[..k + 1] + later).trace == FlashSos(env, flags).trace
    ensures Torches(FlashSos(env, flags).trace) <= Torches(Groups(Pattern))
    ensures |Torches(FlashSos(env, flags).trace)| == 2 * k
  {
    LeadingTrueAt(flags, k);
    var f2 := flags[..k + 1] + later;
    assert f2[..k + 1] == flags[..k + 1];
    LeadingTrueAt(f2, k);
    PassRunStopsAtFirstFalse(Pattern, flags);
    PassRunStopsAtFirstFalse(Pattern, f2);
    assert Pattern == Pattern[..k] + Pattern[k..];
    GroupsAppend(Pattern[..k], Pattern[k..]);
    GroupsFacts(Pattern[..k]);
    ProjectAppend(Groups(Pattern[..k]), Groups(Pattern[k..]), TorchOf);
  }

  lemma {:induction false} LeadingTrueAt(flags: seq<bool>, k: nat)
    requires k < |flags|
    requires !flags[k] && forall j :: 0 <= j < k ==> flags[j]
    ensures LeadingTrue(flags) == k
  {
    if k > 0 {
      LeadingTrueAt(flags[1..], k - 1);
    }
  }

  lemma {:induction false} GroupsAppend(a: seq<nat>, b: seq<nat>)
    ensures Groups(a + b) == Groups(a) + Groups(b)
  {
    if a == [] {
      assert a + b == b;
    } else {
      assert (a + b)[1..] == a[1..] + b;
      GroupsAppend(a[1..], b);
    }
  }

  // ---------------------------------------------------------------------
  // Properties of the coroutine

  /** Whatever the flag reads, a pass requests the torch on and off in
      strict alternation and ends with it off. */
  lemma PassAlternates(env: Env, flags: seq<bool>)
    ensures Alternating(Torches(FlashSos(env, flags).trace))
    ensures |Torches(FlashSos(env, flags).trace)| % 2 == 0
  {
    if env.CanTorch() {
      PassRunStopsAtFirstFalse(Pattern, flags);
      GroupsFacts(Pattern[..Min(|Pattern|, LeadingTrue(flags))]);
    }
  }

  /** The torch requests of a running coroutine are those of its first pass
      followed by those of the rest of the coroutine. */
  lemma JobTorches(env: Env, flags: seq<bool>)
    requires flags != [] && flags[0]
    ensures var pass := FlashSos(env, flags[1..]);
            Torches(Job(env, flags)) == Torches(pass.trace) + Torches(Job(env, pass.rest))
  {
    var pass := FlashSos(env, flags[1..]);
    var rest := Job(env, pass.rest);
    ProjectSingle(Beep, TorchOf);
    ProjectSingle(Delay(RoundPauseMs), TorchOf);
    ProjectAppend([Beep], pass.trace, TorchOf);
    ProjectAppend([Beep] + pass.trace, [Delay(RoundPauseMs)], TorchOf);
    ProjectAppend([Beep] + pass.trace + [Delay(RoundPauseMs)], rest, TorchOf);
  }

  /** Whatever the flag reads, the coroutine's torch requests alternate on,
      off, on, ..., starting with on, and every completed trace leaves the
      torch off. */
  lemma {:induction false} JobAlternates(env: Env, flags: seq<bool>)
    ensures Alternating(Torches(Job(env, flags)))
    ensures |Torches(Job(env, flags))| % 2 == 0
    decreases |flags|
  {
    if flags != [] && flags[0] {
      var pass := FlashSos(env, flags[1..]);
      var rest := pass.rest;
      var first := Torches(pass.trace);
      var later := Torches(Job(env, rest));
      JobAlternates(env, rest);
      PassAlternates(env, flags[1..]);
      JobTorches(env, flags);
      AlternatingAppend(first, later);
    }
  }

  /** The alternation holds across every prefix of the coroutine's trace:
      at no point has the torch been asked for on twice, or for off before on. */
  lemma JobPrefixAlternates(env: Env, flags: seq<bool>, k: nat)
    requires k <= |Job(env, flags)|
    ensures Alternating(Torches(Job(env, flags)[..k]))
  {
    JobAlternates(env, flags);
    TorchesOfPrefix(Job(env, flags), k);
  }

  /** One uninterrupted round on a drivable torch. */
  function FullRound(): seq<Command>
  {
    [Beep] + Groups(Pattern) + [Delay(RoundPauseMs)]
  }

  function Repeat(t: seq<Command>, n: nat): seq<Command>
  {
    if n == 0 then [] else t + Repeat(t, n - 1)
  }

  /** An uninterrupted round waits 9000 ms: the 6000 ms pass and the
      3000 ms pause. */
  lemma FullRoundDelay()
    ensures TotalDelay(FullRound()) == 9000
  {
    PatternSum();
    GroupsFacts(Pattern);
    ProjectAppend([Beep], Groups(Pattern), DelayOf);
    ProjectAppend([Beep] + Groups(Pattern), [Delay(RoundPauseMs)], DelayOf);
    ProjectSingle(Beep, DelayOf);
    ProjectSingle(Delay(RoundPauseMs), DelayOf);
    SumAppend(Delays(Groups(Pattern)), [RoundPauseMs]);
    assert Sum([RoundPauseMs]) == RoundPauseMs + Sum([]);
    assert [] + Delays(Groups(Pattern)) == Delays(Groups(Pattern));
  }

  /** Twelve true reads (loop head and eleven boundaries) run one full round
      and leave the remaining reads to the next loop head. */
  lemma JobRound(env: Env, flags: seq<bool>)
    requires env.CanTorch()
    requires |flags| >= 12 && forall i :: 0 <= i < 12 ==> flags[i]
    ensures Job(env, flags) == FullRound() + Job(env, flags[12..])
  {
    var tail := flags[1..];
    assert LeadingTrue(tail) >= 11 by {
      assert forall i :: 0 <= i < 11 ==> tail[..11][i];
      AllTrueLeading(tail[..11]);
      LeadingTruePrefix(tail, 11);
    }
    PassRunStopsAtFirstFalse(Pattern, tail);
    assert Pattern[..11] == Pattern;
    assert tail[11..] == flags[12..];
  }

  lemma {:induction false} LeadingTruePrefix(flags: seq<bool>, k: nat)
    requires k <= |flags|
    ensures LeadingTrue(flags) >= LeadingTrue(flags[..k])
  {
    if k > 0 && flags[0] {
      assert flags[..k][1..] == flags[1..][..k - 1];
      LeadingTruePrefix(flags[1..], k - 1);
    }
  }

  /** While the flag stays true for `n` rounds (twelve reads each: the loop
      head and eleven symbol boundaries), the coroutine repeats the full
      round `n` times and then stops. */
  lemma {:induction false} JobRepeats(env: Env, flags: seq<bool>, n: nat)
    requires env.CanTorch()
    requires |flags| == 12 * n && forall i :: 0 <= i < |flags| ==> flags[i]
    ensures Job(env, flags) == Repeat(FullRound(), n)
  {
    if n > 0 {
      JobRound(env, flags);
      JobRepeats(env, flags[12..], n - 1);
    }
  }

  /** Repeating a round `n` times repeats its waiting `n` times. */
  lemma {:induction false} RepeatDelay(t: seq<Command>, n: nat)
    ensures TotalDelay(Repeat(t, n)) == n * TotalDelay(t)
  {
    if n > 0 {
      RepeatDelay(t, n - 1);
      ProjectAppend(t, Repeat(t, n - 1), DelayOf);
      SumAppend(Delays(t), Delays(Repeat(t, n - 1)));
      assert n * TotalDelay(t) == TotalDelay(t) + (n - 1) * TotalDelay(t);
    }
  }

  /** `n` uninterrupted rounds wait 9000 ms each. */
  lemma RoundsDelay(n: nat)
    ensures TotalDelay(Repeat(FullRound(), n)) == 9000 * n
  {
    var round := FullRound();
    RepeatDelay(round, n);
    FullRoundDelay();
    assert TotalDelay(round) == 9000;
  }

  lemma {:induction false} AllTrueLeading(flags: seq<bool>)
    requires forall i :: 0 <= i < |flags| ==> flags[i]
    ensures LeadingTrue(flags) == |flags|
  {
    if flags != [] {
      AllTrueLeading(flags[1..]);
    }
  }

  /** A start/stop pair restores the state and issues, in order, the launch,
      the cancel and the media reset, and no torch request. */
  lemma StartStopSession(s: State, env: Env)
    requires !s.isSOSActive && env.hasPlayer
    ensures var start := ToggleSos(s, env);
            var stop := ToggleSos(start.state, env);
            start.state.isSOSActive && stop.state == s &&
            start.trace + stop.trace == [LaunchSos, CancelSos, MediaStop, MediaPrepare] &&
            Torches(start.trace + stop.trace) == []
  {
    var start := ToggleSos(s, env);
    var stop := ToggleSos(start.state, env);
    ProjectAppend(start.trace, stop.trace, TorchOf);
  }
}
