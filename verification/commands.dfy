/** Abstract hardware commands issued by the activity, and projections of a
    command trace onto the channels the properties talk about (torch, haptic,
    time). Every platform call is recorded as one `Command`; every suspension
    of the SOS coroutine is recorded as a `Delay`. */
module Commands {

  /** The user-visible notices (toasts) the activity can raise. */
  datatype Notice = FlashUnsupported | TorchError | SosUnsupported

  datatype Command =
    | SetTorch(on: bool)        // torch mode request for the first camera id
    | Vibrate(ms: nat)          // one-shot vibration pulse
    | Beep                      // one call of the SOS beep routine
    | MediaPause
    | MediaSeekTo(pos: nat)
    | MediaStart
    | MediaStop
    | MediaPrepare
    | LaunchSos                 // the SOS coroutine is launched
    | CancelSos                 // the SOS coroutine is cancelled
    | Delay(ms: nat)            // the coroutine suspends for `ms` milliseconds
    | Show(notice: Notice)      // a toast

  /** Maps every command of `t` to a (possibly empty) piece and concatenates
      the pieces: the common shape of all trace projections below. */
  function Project<T>(t: seq<Command>, f: Command -> seq<T>): seq<T>
  {
    if t == [] then [] else f(t[0]) + Project(t[1..], f)
  }

  lemma {:induction false} ProjectAppend<T>(a: seq<Command>, b: seq<Command>, f: Command -> seq<T>)
    ensures Project(a + b, f) == Project(a, f) + Project(b, f)
  {
    if a == [] {
      assert a + b == b;
    } else {
      assert (a + b)[1..] == a[1..] + b;
      ProjectAppend(a[1..], b, f);
    }
  }

  /** Projecting a trace that starts with `c` projects `c` first. */
  lemma ProjectCons<T>(c: Command, t: seq<Command>, f: Command -> seq<T>)
    ensures Project([c] + t, f) == f(c) + Project(t, f)
  {
  }

  lemma ProjectSingle<T>(c: Command, f: Command -> seq<T>)
    ensures Project([c], f) == f(c)
  {
  }

  /** Projecting a two-command trace projects each command in turn. */
  lemma ProjectPair<T>(a: Command, b: Command, f: Command -> seq<T>)
    ensures Project([a, b], f) == f(a) + f(b)
  {
    assert [a, b][1..] == [b];
    assert [b][1..] == [];
    assert Project([b], f) == f(b) + Project([], f) == f(b);
  }

  function TorchOf(c: Command): seq<bool>
  {
    if c.SetTorch? then [c.on] else []
  }

  function VibrationOf(c: Command): seq<nat>
  {
    if c.Vibrate? then [c.ms] else []
  }

  function DelayOf(c: Command): seq<nat>
  {
    if c.Delay? then [c.ms] else []
  }

  /** The torch values requested by `t`, in order. */
  function Torches(t: seq<Command>): seq<bool>
  {
    Project(t, TorchOf)
  }

  /** The vibration durations requested by `t`, in order. */
  function Vibrations(t: seq<Command>): seq<nat>
  {
    Project(t, VibrationOf)
  }

  /** The delays `t` suspends for, in order. */
  function Delays(t: seq<Command>): seq<nat>
  {
    Project(t, DelayOf)
  }

  function Sum(xs: seq<nat>): nat
  {
    if xs == [] then 0 else xs[0] + Sum(xs[1..])
  }

  lemma {:induction false} SumAppend(a: seq<nat>, b: seq<nat>)
    ensures Sum(a + b) == Sum(a) + Sum(b)
  {
    if a == [] {
      assert a + b == b;
    } else {
      assert (a + b)[1..] == a[1..] + b;
      SumAppend(a[1..], b);
    }
  }

  lemma SumSuffix(xs: seq<nat>, i: nat)
    requires i < |xs|
    ensures Sum(xs[i..]) == xs[i] + Sum(xs[i + 1..])
  {
  }

  /** Total time, in milliseconds, that `t` spends suspended. */
  function TotalDelay(t: seq<Command>): nat
  {
    Sum(Delays(t))
  }

  /** The torch value after `t` runs, starting from `on`. */
  function TorchAfter(t: seq<Command>, on: bool): bool
  {
    if t == [] then on else TorchAfter(t[1..], if t[0].SetTorch? then t[0].on else on)
  }

  /** Milliseconds that `t` waits with the torch lit, starting from `on`. */
  function LitTime(t: seq<Command>, on: bool): nat
  {
    if t == [] then 0
    else (if on && t[0].Delay? then t[0].ms else 0) +
         LitTime(t[1..], if t[0].SetTorch? then t[0].on else on)
  }

  /** Lit time and the final torch value compose over concatenation. */
  lemma {:induction false} LitTimeAppend(a: seq<Command>, b: seq<Command>, on: bool)
    ensures LitTime(a + b, on) == LitTime(a, on) + LitTime(b, TorchAfter(a, on))
    ensures TorchAfter(a + b, on) == TorchAfter(b, TorchAfter(a, on))
  {
    if a == [] {
      assert a + b == b;
    } else {
      assert (a + b)[1..] == a[1..] + b;
      LitTimeAppend(a[1..], b, if a[0].SetTorch? then a[0].on else on);
    }
  }

  /** The lit time is part of the total wait, so the dark time
      `TotalDelay(t) - LitTime(t, on)` is never negative. */
  lemma {:induction false} LitTimeBound(t: seq<Command>, on: bool)
    ensures LitTime(t, on) <= TotalDelay(t)
  {
    if t != [] {
      LitTimeBound(t[1..], if t[0].SetTorch? then t[0].on else on);
      ProjectCons(t[0], t[1..], DelayOf);
      assert [t[0]] + t[1..] == t;
      SumAppend(DelayOf(t[0]), Delays(t[1..]));
    }
  }

  /** Number of torch-on requests in a list of torch values. */
  function CountOn(p: seq<bool>): nat
  {
    if p == [] then 0 else (if p[0] then 1 else 0) + CountOn(p[1..])
  }

  lemma {:induction false} CountOnAppend(a: seq<bool>, b: seq<bool>)
    ensures CountOn(a + b) == CountOn(a) + CountOn(b)
  {
    if a == [] {
      assert a + b == b;
    } else {
      assert (a + b)[1..] == a[1..] + b;
      CountOnAppend(a[1..], b);
    }
  }

  /** Torch requests alternate on, off, on, off, ... starting with on. */
  ghost predicate Alternating(p: seq<bool>)
  {
    forall i :: 0 <= i < |p| ==> p[i] == (i % 2 == 0)
  }

  /** Torch requests alternate, starting with `first`. */
  ghost predicate AlternatesFrom(p: seq<bool>, first: bool)
  {
    forall i :: 0 <= i < |p| ==> p[i] == (first == (i % 2 == 0))
  }

  /** An alternating run may be preceded by nothing, or by one request of
      the opposite of its first value. */
  lemma AlternatesAfter(a: seq<bool>, b: seq<bool>, first: bool, step: bool)
    requires a == (if step then [first] else [])
    requires AlternatesFrom(b, first != step)
    ensures AlternatesFrom(a + b, first)
  {
    forall i | 0 <= i < |a + b|
      ensures (a + b)[i] == (first == (i % 2 == 0))
    {
      if i >= |a| {
        assert (a + b)[i] == b[i - |a|];
      }
    }
  }

  /** An alternating run of even length ends with the torch off (or is empty),
      so another alternating run may follow it. */
  lemma AlternatingAppend(a: seq<bool>, b: seq<bool>)
    requires Alternating(a) && |a| % 2 == 0
    requires Alternating(b)
    ensures Alternating(a + b)
  {
  }

  /** The torch requests of a prefix of a trace are a prefix of the trace's
      torch requests; in particular alternation holds across every prefix. */
  lemma TorchesOfPrefix(t: seq<Command>, k: nat)
    requires k <= |t|
    ensures Torches(t[..k]) <= Torches(t)
    ensures Alternating(Torches(t)) ==> Alternating(Torches(t[..k]))
  {
    assert t == t[..k] + t[k..];
    ProjectAppend(t[..k], t[k..], TorchOf);
  }
}
