/**
 * The `Score` record of models/score.py and its two conversions: `from_dict`
 * reads a row of a score table, `db_dict` builds the dictionary of columns
 * written back. `Mode.from_lb` and `Mode.as_vn` are defined outside this
 * model and are passed in as functions.
 */
module ScoreModel {
  import opened Wrappers
  import opened DbValues
  import opened Enums
  import opened Numerals

  /** The columns of a score table that the core reads or writes. */
  datatype ScoreColumn =
    | IdCol | BeatmapMd5 | UserId | ScoreCol | MaxCombo | FullCombo | ModsCol
    | Count300 | Count100 | Count50 | KatusCount | GekisCount | MissesCount
    | TimeCol | PlayMode | Completed | Accuracy | PpCol | Patcher

  /** The SQL name of each column, the key Python uses in the row dictionary. */
  function ColumnName(c: ScoreColumn): string
  {
    match c
    case IdCol => "id"
    case BeatmapMd5 => "beatmap_md5"
    case UserId => "userid"
    case ScoreCol => "score"
    case MaxCombo => "max_combo"
    case FullCombo => "full_combo"
    case ModsCol => "mods"
    case Count300 => "300_count"
    case Count100 => "100_count"
    case Count50 => "50_count"
    case KatusCount => "katus_count"
    case GekisCount => "gekis_count"
    case MissesCount => "misses_count"
    case TimeCol => "time"
    case PlayMode => "play_mode"
    case Completed => "completed"
    case Accuracy => "accuracy"
    case PpCol => "pp"
    case Patcher => "patcher"
  }

  /** The keys of the dictionary `db_dict` returns, as written there. */
  const DbDictNames: set<string> := {
    "beatmap_md5", "userid", "score", "max_combo", "full_combo", "mods", "300_count",
    "100_count", "50_count", "katus_count", "gekis_count", "misses_count", "time",
    "play_mode", "completed", "accuracy", "pp", "patcher"}

  /**
   * No two columns share a name, so a row keyed by column holds what the
   * name-keyed dictionary holds.
   */
  lemma ColumnNamesDistinct(c1: ScoreColumn, c2: ScoreColumn)
    requires ColumnName(c1) == ColumnName(c2)
    ensures c1 == c2
  {
  }

  /** The columns the model writes are named exactly as the keys `db_dict` emits. */
  lemma DbColumnNames()
    ensures (set c | c in DbColumns :: ColumnName(c)) == DbDictNames
  {
  }

  type ScoreRow = map<ScoreColumn, Value>

  /**
   * A play result. `mods` is the integer bit set of the `Mods` flag type;
   * floating-point fields are reals that are only copied. The four trailing
   * fields carry the dataclass defaults.
   */
  datatype Score = Score(
    id: int,
    mapMd5: string,
    userId: int,
    mode: Mode,
    mods: int,
    pp: real,
    sr: real,
    score: int,
    maxCombo: int,
    acc: real,
    n300: int,
    n100: int,
    n50: int,
    nmiss: int,
    ngeki: int,
    nkatu: int,
    passed: bool,
    quit: bool,
    fullCombo: bool,
    status: ScoreStatus,
    time: int,
    timeElapsed: int := 0,
    rank: int := 0,
    oldBest: Option<Score> := None,
    usingPatcher: bool := false)

  /** The keys `db_dict` emits. */
  const DbColumns: set<ScoreColumn> := {
    BeatmapMd5, UserId, ScoreCol, MaxCombo, FullCombo, ModsCol, Count300, Count100, Count50,
    KatusCount, GekisCount, MissesCount, TimeCol, PlayMode, Completed, Accuracy, PpCol, Patcher}

  /** The value `db_dict` stores under column `c`. */
  function Cell(s: Score, asVn: Mode -> int, c: ScoreColumn): Value
  {
    match c
    case IdCol => Int(s.id)
    case BeatmapMd5 => Str(s.mapMd5)
    case UserId => Int(s.userId)
    case ScoreCol => Int(s.score)
    case MaxCombo => Int(s.maxCombo)
    case FullCombo => Bool(s.fullCombo)
    case ModsCol => Int(s.mods)
    case Count300 => Int(s.n300)
    case Count100 => Int(s.n100)
    case Count50 => Int(s.n50)
    case KatusCount => Int(s.nkatu)
    case GekisCount => Int(s.ngeki)
    case MissesCount => Int(s.nmiss)
    case TimeCol => Int(s.time)
    case PlayMode => Int(asVn(s.mode))
    case Completed => Int(ScoreStatusCode(s.status))
    case Accuracy => Real(s.acc)
    case PpCol => Real(s.pp)
    case Patcher => Bool(s.usingPatcher)
  }

  /** `Score.db_dict`, with `Mode.as_vn` given as `asVn`. */
  function DbDict(s: Score, asVn: Mode -> int): (r: ScoreRow)
    ensures r.Keys == DbColumns
    ensures IdCol !in r
  {
    map c | c in DbColumns :: Cell(s, asVn, c)
  }

  /** `int(x)` of a float: truncation toward zero. */
  function Truncate(x: real): (i: int)
    ensures x >= 0.0 ==> i as real <= x < i as real + 1.0
    ensures x < 0.0 ==> i as real - 1.0 < x <= i as real
  {
    if x >= 0.0 then x.Floor else -((-x).Floor)
  }

  /**
   * `int(result["time"])`: an integer column as it is, a float truncated
   * toward zero, a boolean as 0 or 1, and a text column holding an optionally
   * negative decimal integer; NULL makes `int()` raise.
   */
  function TimeValue(v: Value): Option<int>
  {
    match v
    case Int(i) => Some(i)
    case Real(x) => Some(Truncate(x))
    case Bool(b) => Some(if b then 1 else 0)
    case Str(t) => ParseInt(t)
    case Null => None
  }

  /**
   * The row holds every column `from_dict` reads, with a value of the type
   * the record field has, a time `int()` accepts and a known completion code.
   */
  predicate Decodable(r: ScoreRow)
  {
    && IdCol in r && r[IdCol].Int?
    && BeatmapMd5 in r && r[BeatmapMd5].Str?
    && UserId in r && r[UserId].Int?
    && ScoreCol in r && r[ScoreCol].Int?
    && MaxCombo in r && r[MaxCombo].Int?
    && FullCombo in r && r[FullCombo].Bool?
    && ModsCol in r && r[ModsCol].Int?
    && Count300 in r && r[Count300].Int?
    && Count100 in r && r[Count100].Int?
    && Count50 in r && r[Count50].Int?
    && KatusCount in r && r[KatusCount].Int?
    && GekisCount in r && r[GekisCount].Int?
    && MissesCount in r && r[MissesCount].Int?
    && TimeCol in r && TimeValue(r[TimeCol]).Some?
    && PlayMode in r && r[PlayMode].Int?
    && Completed in r && r[Completed].Int? && ScoreStatusFromCode(r[Completed].i).Some?
    && Accuracy in r && r[Accuracy].Real?
    && PpCol in r && r[PpCol].Real?
  }

  /**
   * `Score.from_dict`, with `Mode.from_lb` given as `fromLb`. None stands for
   * the source raising: a missing column (KeyError), a time `int()` rejects or
   * an unknown completion code (ValueError); a column of the wrong type is None too.
   */
  function FromDict(r: ScoreRow, fromLb: (int, int) -> Mode): (s: Option<Score>)
    ensures s.Some? <==> Decodable(r)
    ensures s.Some? ==> s.value.sr == 0.0 && Some(s.value.time) == TimeValue(r[TimeCol])
    ensures s.Some? ==> (s.value.passed <==> r[Completed].i > ScoreStatusCode(Failed))
    ensures s.Some? ==> (s.value.quit <==> r[Completed].i == ScoreStatusCode(Quit))
  {
    if !Decodable(r) then None
    else
      var completed := r[Completed].i;
      Some(Score(
        id := r[IdCol].i,
        mapMd5 := r[BeatmapMd5].s,
        userId := r[UserId].i,
        score := r[ScoreCol].i,
        maxCombo := r[MaxCombo].i,
        fullCombo := r[FullCombo].b,
        mods := r[ModsCol].i,
        n300 := r[Count300].i,
        n100 := r[Count100].i,
        n50 := r[Count50].i,
        nkatu := r[KatusCount].i,
        ngeki := r[GekisCount].i,
        nmiss := r[MissesCount].i,
        time := TimeValue(r[TimeCol]).value,
        mode := fromLb(r[PlayMode].i, r[ModsCol].i),
        status := ScoreStatusFromCode(completed).value,
        acc := r[Accuracy].r,
        pp := r[PpCol].r,
        sr := 0.0,
        passed := completed > ScoreStatusCode(Failed),
        quit := completed == ScoreStatusCode(Quit)))
  }

  /**
   * The derived flags of a decoded score follow its status: it passed exactly
   * when it was submitted or is the best one, it quit exactly when the status
   * is QUIT, and never both.
   */
  lemma FlagsFollowStatus(r: ScoreRow, fromLb: (int, int) -> Mode)
    requires Decodable(r)
    ensures var s := FromDict(r, fromLb).value;
            && (s.passed <==> s.status == Submitted || s.status == Best)
            && (s.quit <==> s.status == Quit)
            && !(s.passed && s.quit)
  {
    var s := FromDict(r, fromLb).value;
    assert ScoreStatusCode(s.status) == r[Completed].i;
  }

  /**
   * A decoded score carries the defaults of the fields the row does not
   * hold, so the patcher flag it writes back is false.
   */
  lemma FromDictDefaults(r: ScoreRow, fromLb: (int, int) -> Mode, asVn: Mode -> int)
    requires Decodable(r)
    ensures var s := FromDict(r, fromLb).value;
            && s.timeElapsed == 0 && s.rank == 0 && s.oldBest == None && !s.usingPatcher
            && DbDict(s, asVn)[Patcher] == Bool(false)
  {
  }

  /** One kept column of a decoded row is written back with its stored value. */
  lemma KeptCell(r: ScoreRow, fromLb: (int, int) -> Mode, asVn: Mode -> int, c: ScoreColumn)
    requires Decodable(r)
    requires c in DbColumns - {TimeCol, PlayMode, Patcher}
    ensures Cell(FromDict(r, fromLb).value, asVn, c) == r[c]
  {
    var s := FromDict(r, fromLb).value;
    if c == Completed {
      assert ScoreStatusCode(s.status) == r[Completed].i;
    }
  }

  /**
   * Decoding a row and writing it back keeps the stored value of the map
   * hash, the player, the raw score, the combo fields, the mods, every hit
   * count (gekis under `gekis_count`, katus under `katus_count`), the
   * completion code, the accuracy and the pp. The time comes back as the
   * integer `int()` read, and the play mode as `as_vn` of what `from_lb` read.
   */
  lemma RoundTripKeepsColumns(r: ScoreRow, fromLb: (int, int) -> Mode, asVn: Mode -> int)
    requires Decodable(r)
    ensures var d := DbDict(FromDict(r, fromLb).value, asVn);
            && (forall c | c in DbColumns - {TimeCol, PlayMode, Patcher} :: d[c] == r[c])
            && d[TimeCol] == Int(TimeValue(r[TimeCol]).value)
            && d[PlayMode] == Int(asVn(fromLb(r[PlayMode].i, r[ModsCol].i)))
  {
    var s := FromDict(r, fromLb).value;
    var d := DbDict(s, asVn);
    assert d[TimeCol] == Int(s.time);
    forall c | c in DbColumns - {TimeCol, PlayMode, Patcher}
      ensures d[c] == r[c]
    {
      KeptCell(r, fromLb, asVn, c);
    }
  }

  /** A time stored as decimal text is written back as the integer it denotes. */
  lemma TimeTextRoundTrip(t: int)
    ensures TimeValue(Str(IntToString(t))) == Some(t)
  {
    ParseIntToString(t);
  }

  /** A time stored as a float reads back as that float truncated toward zero. */
  lemma TimeFloatTruncates(x: real)
    ensures var t := TimeValue(Real(x)).value;
            && (x >= 0.0 ==> 0 <= t && t as real <= x < t as real + 1.0)
            && (x < 0.0 ==> t <= 0 && t as real - 1.0 < x <= t as real)
  {
  }
}
