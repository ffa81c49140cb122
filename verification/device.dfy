/** The activity's mutable fields, as an immutable record, and the platform
    capabilities its decisions depend on. */
module Device {
  import opened Commands

  /** What the platform provides: a first camera id, a platform level that
      supports torch control (API 23 or later), and a created media player. */
  datatype Env = Env(hasCamera: bool, torchSupported: bool, hasPlayer: bool)
  {
    /** The torch can be driven at all. */
    predicate CanTorch()
    {
      hasCamera && torchSupported
    }
  }

  /** `isFlashOn`, `lastShakeTime` (milliseconds) and `isSOSActive`. */
  datatype State = State(isFlashOn: bool, lastShakeTime: int, isSOSActive: bool)

  /** The field initialisers of the activity. */
  const Initial: State := State(false, 0, false)

  /** A transition: the new state and the commands issued, in order. */
  datatype Step = Step(state: State, trace: seq<Command>)
}
