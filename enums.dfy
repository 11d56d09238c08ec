/** Option, the usual value-or-nothing wrapper (Python's Optional). */
module Wrappers {
  datatype Option<+T> = None | Some(value: T)
}

/** A column value as the database driver returns or receives it. */
module DbValues {
  datatype Value =
    | Str(s: string)
    | Int(i: int)
    | Real(r: real)
    | Bool(b: bool)
    | Null
}

/**
 * The enumerations the core uses but does not define: the ranked status of a
 * beatmap, the game mode and the completion status of a score. Their
 * definitions (constants/ranked_status.py, constants/mode.py,
 * constants/score_status.py) are not part of this model; each is a closed
 * variant type with a table to and from its stored integer code. The codes
 * themselves are assumed, not derived: RankedStatus -1 to 5 with Ranked 2,
 * Approved 3 and Loved 5, Mode 0 to 7, and ScoreStatus Quit 0, Failed 1,
 * Submitted 2, Best 3. `ScoreModel.FlagsFollowStatus` depends on the order
 * Quit < Failed < Submitted < Best, and `BeatmapModel.GivesPp` on Ranked and
 * Approved being 2 and 3; everything else relies only on the tables being
 * inverse to each other.
 */
module Enums {
  import opened Wrappers

  datatype RankedStatus =
    | NotSubmitted
    | Pending
    | UpdateAvailable
    | Ranked
    | Approved
    | Qualified
    | Loved

  /** `RankedStatus.value`, the code stored in the `ranked` column. */
  function StatusCode(s: RankedStatus): int
  {
    match s
    case NotSubmitted => -1
    case Pending => 0
    case UpdateAvailable => 1
    case Ranked => 2
    case Approved => 3
    case Qualified => 4
    case Loved => 5
  }

  /** `RankedStatus(code)`: None where Python raises ValueError. */
  function StatusFromCode(c: int): (s: Option<RankedStatus>)
    ensures s.Some? <==> -1 <= c <= 5
    ensures s.Some? ==> StatusCode(s.value) == c
  {
    match c
    case -1 => Some(NotSubmitted)
    case 0 => Some(Pending)
    case 1 => Some(UpdateAvailable)
    case 2 => Some(Ranked)
    case 3 => Some(Approved)
    case 4 => Some(Qualified)
    case 5 => Some(Loved)
    case _ => None
  }

  lemma StatusCodeRoundTrip(s: RankedStatus)
    ensures StatusFromCode(StatusCode(s)) == Some(s)
  {
  }

  /** Game modes: the four vanilla modes and their relax and autopilot variants. */
  datatype Mode =
    | Std | Taiko | Catch | Mania
    | RelaxStd | RelaxTaiko | RelaxCatch
    | AutopilotStd

  /** `Mode.value`. */
  function ModeCode(m: Mode): int
  {
    match m
    case Std => 0
    case Taiko => 1
    case Catch => 2
    case Mania => 3
    case RelaxStd => 4
    case RelaxTaiko => 5
    case RelaxCatch => 6
    case AutopilotStd => 7
  }

  /** `Mode(code)`: None where Python raises ValueError. */
  function ModeFromCode(c: int): (m: Option<Mode>)
    ensures m.Some? <==> 0 <= c <= 7
    ensures m.Some? ==> ModeCode(m.value) == c
  {
    match c
    case 0 => Some(Std)
    case 1 => Some(Taiko)
    case 2 => Some(Catch)
    case 3 => Some(Mania)
    case 4 => Some(RelaxStd)
    case 5 => Some(RelaxTaiko)
    case 6 => Some(RelaxCatch)
    case 7 => Some(AutopilotStd)
    case _ => None
  }

  lemma ModeCodeRoundTrip(m: Mode)
    ensures ModeFromCode(ModeCode(m)) == Some(m)
  {
  }

  /** Completion status of a score, stored in the `completed` column. */
  datatype ScoreStatus = Quit | Failed | Submitted | Best

  function ScoreStatusCode(s: ScoreStatus): int
  {
    match s
    case Quit => 0
    case Failed => 1
    case Submitted => 2
    case Best => 3
  }

  /** `ScoreStatus(code)`: None where Python raises ValueError. */
  function ScoreStatusFromCode(c: int): (s: Option<ScoreStatus>)
    ensures s.Some? <==> 0 <= c <= 3
    ensures s.Some? ==> ScoreStatusCode(s.value) == c
  {
    match c
    case 0 => Some(Quit)
    case 1 => Some(Failed)
    case 2 => Some(Submitted)
    case 3 => Some(Best)
    case _ => None
  }

  lemma ScoreStatusCodeRoundTrip(s: ScoreStatus)
    ensures ScoreStatusFromCode(ScoreStatusCode(s)) == Some(s)
  {
  }
}
