/** The flashlight toggle and its haptic acknowledgement. */
module Flashlight {
  import opened Commands
  import opened Device

  /** Vibration length chosen from the torch state after the flip: a longer
      pulse acknowledges switching on. */
  function VibrationMs(isOn: bool): (ms: nat)
    ensures ms == 200 <==> isOn
    ensures ms == 100 <==> !isOn
  {
    if isOn then 200 else 100
  }

  /** Which platform call, if any, throws inside the toggle's guarded block:
      the torch request, or the vibration request that follows it. */
  datatype Fault = NoFault | TorchThrows | VibratorThrows

  /** One press of the flashlight control. Without a camera id nothing
      happens; on a platform without torch control a notice is shown.
      Otherwise the state is flipped FIRST, then the torch is asked for the
      new value, then the vibrator. Both requests sit in one guarded block:
      whichever throws ends the block with the error notice, and the flipped
      state is kept. A throwing torch request therefore also skips the
      vibration. */
  function ToggleFlash(s: State, env: Env, fault: Fault): (r: Step)
    // nothing but the torch flag ever changes, and it changes iff the torch is drivable
    ensures r.state.lastShakeTime == s.lastShakeTime && r.state.isSOSActive == s.isSOSActive
    ensures r.state.isFlashOn != s.isFlashOn <==> env.CanTorch()
    // exactly one torch request, carrying the new state, and only when drivable
    ensures Torches(r.trace) == (if env.CanTorch() then [r.state.isFlashOn] else [])
    // exactly one vibration request, only after a torch request that did not throw
    ensures Vibrations(r.trace) ==
              (if env.CanTorch() && fault != TorchThrows then [VibrationMs(r.state.isFlashOn)] else [])
    // the error notice appears exactly when a guarded call threw, and comes last
    ensures Show(TorchError) in r.trace <==> env.CanTorch() && fault != NoFault
    ensures Show(TorchError) in r.trace ==> r.trace[|r.trace| - 1] == Show(TorchError)
    // the torch request always comes first, the vibration right after it
    ensures env.CanTorch() ==> |r.trace| >= 2 && r.trace[0] == SetTorch(r.state.isFlashOn)
    ensures env.CanTorch() && fault != TorchThrows ==>
              |r.trace| >= 2 && r.trace[1] == Vibrate(VibrationMs(r.state.isFlashOn))
    ensures env.CanTorch() && fault == NoFault ==> |r.trace| == 2
    ensures !env.hasCamera ==> r.trace == []
    // a camera without platform torch support only shows its notice
    ensures Show(FlashUnsupported) in r.trace <==> env.hasCamera && !env.torchSupported
    ensures env.hasCamera && !env.torchSupported ==> r.trace == [Show(FlashUnsupported)]
  {
    if !env.hasCamera then Step(s, [])
    else if !env.torchSupported then Step(s, [Show(FlashUnsupported)])
    else
      var flipped := s.(isFlashOn := !s.isFlashOn);
      var torch := SetTorch(flipped.isFlashOn);
      var buzz := Vibrate(VibrationMs(flipped.isFlashOn));
      match fault
      case NoFault =>
        ProjectPair(torch, buzz, TorchOf);
        ProjectPair(torch, buzz, VibrationOf);
        Step(flipped, [torch, buzz])
      case TorchThrows =>
        ProjectPair(torch, Show(TorchError), TorchOf);
        ProjectPair(torch, Show(TorchError), VibrationOf);
        Step(flipped, [torch, Show(TorchError)])
      case VibratorThrows =>
        ProjectCons(torch, [buzz, Show(TorchError)], TorchOf);
        ProjectCons(torch, [buzz, Show(TorchError)], VibrationOf);
        ProjectPair(buzz, Show(TorchError), TorchOf);
        ProjectPair(buzz, Show(TorchError), VibrationOf);
        Step(flipped, [torch, buzz, Show(TorchError)])
  }

  /** The vibration pulse tells the user which way the torch went: 200 ms
      exactly when the torch is now on, 100 ms exactly when it is now off. */
  lemma FeedbackMatchesTorch(s: State, env: Env, fault: Fault)
    requires env.CanTorch() && fault != TorchThrows
    ensures var r := ToggleFlash(s, env, fault);
            (Vibrations(r.trace) == [200] <==> r.state.isFlashOn) &&
            (Vibrations(r.trace) == [100] <==> !r.state.isFlashOn)
  {
  }

  /** Toggling is an involution: two drivable toggles restore the original
      state, whether or not the torch requests threw, and request the
      opposite value and then the original one. */
  lemma ToggleTwiceRestores(s: State, env: Env, fault1: Fault, fault2: Fault)
    requires env.CanTorch()
    ensures var r1 := ToggleFlash(s, env, fault1);
            var r2 := ToggleFlash(r1.state, env, fault2);
            r2.state == s &&
            Torches(r1.trace + r2.trace) == [!s.isFlashOn, s.isFlashOn]
  {
    var r1 := ToggleFlash(s, env, fault1);
    var r2 := ToggleFlash(r1.state, env, fault2);
    ProjectAppend(r1.trace, r2.trace, TorchOf);
  }

  /** The torch-unavailable paths change no state and request no torch
      value; only the missing-platform-support path shows a notice. */
  lemma UnavailableChangesNothing(s: State, env: Env, fault: Fault)
    requires !env.CanTorch()
    ensures var r := ToggleFlash(s, env, fault);
            r.state == s && Torches(r.trace) == [] && Vibrations(r.trace) == [] &&
            (r.trace == [] <==> !env.hasCamera) &&
            (env.hasCamera ==> r.trace == [Show(FlashUnsupported)])
  {
  }

  /** A throwing torch request leaves the flag flipped although the torch
      did not follow: the state and the hardware may now disagree. */
  lemma FailureKeepsFlip(s: State, env: Env)
    requires env.CanTorch()
    ensures var r := ToggleFlash(s, env, TorchThrows);
            r.state.isFlashOn == !s.isFlashOn && Vibrations(r.trace) == [] &&
            r.trace == [SetTorch(r.state.isFlashOn), Show(TorchError)]
  {
  }

  /** A throwing vibration request comes after the torch already followed
      the flipped flag: the pulse was requested, and the error notice is
      still shown. */
  lemma VibratorFailureAfterTorch(s: State, env: Env)
    requires env.CanTorch()
    ensures var r := ToggleFlash(s, env, VibratorThrows);
            r.state.isFlashOn == !s.isFlashOn &&
            Torches(r.trace) == [r.state.isFlashOn] &&
            r.trace == [SetTorch(r.state.isFlashOn), Vibrate(VibrationMs(r.state.isFlashOn)),
                        Show(TorchError)]
  {
  }
}
