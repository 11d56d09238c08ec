/**
 * The `Beatmap` record of models/beatmap.py: its fields and defaults, the
 * `gives_pp` flag, and the two conversions to and from a row of the
 * `beatmaps` table.
 */
module BeatmapModel {
  import opened Wrappers
  import opened Enums
  import opened DbValues

  /** The columns of the `beatmaps` table that the core reads or writes. */
  datatype Column =
    | BeatmapMd5 | BeatmapId | BeatmapsetId | SongName | RankedCol | Playcount | Passcount
    | ModeCol | Od | Ar | DifficultyStd | DifficultyTaiko | DifficultyCtb | DifficultyMania
    | HitLength | LatestUpdate | MaxCombo | BpmCol | FileName | RankedStatusFreezed | RatingCol

  /** The SQL name of each column, the key Python uses in the row dictionary. */
  function ColumnName(c: Column): string
  {
    match c
    case BeatmapMd5 => "beatmap_md5"
    case BeatmapId => "beatmap_id"
    case BeatmapsetId => "beatmapset_id"
    case SongName => "song_name"
    case RankedCol => "ranked"
    case Playcount => "playcount"
    case Passcount => "passcount"
    case ModeCol => "mode"
    case Od => "od"
    case Ar => "ar"
    case DifficultyStd => "difficulty_std"
    case DifficultyTaiko => "difficulty_taiko"
    case DifficultyCtb => "difficulty_ctb"
    case DifficultyMania => "difficulty_mania"
    case HitLength => "hit_length"
    case LatestUpdate => "latest_update"
    case MaxCombo => "max_combo"
    case BpmCol => "bpm"
    case FileName => "file_name"
    case RankedStatusFreezed => "ranked_status_freezed"
    case RatingCol => "rating"
  }

  /** A row of `beatmaps`, or the parameter dictionary of `save`. */
  type Row = map<Column, Value>

  /**
   * A beatmap. Floating-point fields are reals that the core only copies.
   * The six trailing fields carry the defaults of the dataclass.
   */
  datatype Beatmap = Beatmap(
    md5: string,
    id: int,
    setId: int,
    songName: string,
    status: RankedStatus,
    plays: int,
    passes: int,
    mode: Mode,
    od: real,
    ar: real,
    difficultyStd: real,
    difficultyTaiko: real,
    difficultyCtb: real,
    difficultyMania: real,
    hitLength: int,
    lastUpdate: int := 0,
    maxCombo: int := 0,
    bpm: int := 0,
    filename: string := "",
    frozen: bool := false,
    rating: Option<real> := None)

  /**
   * Only ranked and approved maps award performance points: exactly the two
   * stored codes the statistics queries accept (`b.ranked IN (2, 3)`), so
   * loved maps do not count.
   */
  predicate GivesPp(b: Beatmap)
    ensures GivesPp(b) <==> StatusCode(b.status) in {2, 3}
    ensures b.status == Loved ==> !GivesPp(b)
  {
    b.status in {Ranked, Approved}
  }

  /** The columns of the `REPLACE INTO beatmaps` statement, in its order. */
  const SaveColumns: seq<Column> := [
    BeatmapId, BeatmapsetId, BeatmapMd5, SongName, Ar, Od, ModeCol, RatingCol,
    DifficultyStd, DifficultyTaiko, DifficultyCtb, DifficultyMania, MaxCombo,
    HitLength, BpmCol, Playcount, Passcount, RankedCol, LatestUpdate,
    RankedStatusFreezed, FileName]

  /** The column list of the `REPLACE INTO beatmaps` statement, as written there. */
  const SaveStatementNames: seq<string> := [
    "beatmap_id", "beatmapset_id", "beatmap_md5", "song_name", "ar", "od", "mode", "rating",
    "difficulty_std", "difficulty_taiko", "difficulty_ctb", "difficulty_mania", "max_combo",
    "hit_length", "bpm", "playcount", "passcount", "ranked", "latest_update",
    "ranked_status_freezed", "file_name"]

  /** Every column; `db_dict` and `from_dict` both cover exactly these. */
  const AllColumns: set<Column> := {
    BeatmapMd5, BeatmapId, BeatmapsetId, SongName, RankedCol, Playcount, Passcount,
    ModeCol, Od, Ar, DifficultyStd, DifficultyTaiko, DifficultyCtb, DifficultyMania,
    HitLength, LatestUpdate, MaxCombo, BpmCol, FileName, RankedStatusFreezed, RatingCol}

  function RatingValue(rating: Option<real>): Value
  {
    match rating
    case None => Null
    case Some(x) => Real(x)
  }

  /** The value `db_dict` stores under column `c`. */
  function Cell(b: Beatmap, c: Column): Value
  {
    match c
    case BeatmapMd5 => Str(b.md5)
    case BeatmapId => Int(b.id)
    case BeatmapsetId => Int(b.setId)
    case SongName => Str(b.songName)
    case RankedCol => Int(StatusCode(b.status))
    case Playcount => Int(b.plays)
    case Passcount => Int(b.passes)
    case ModeCol => Int(ModeCode(b.mode))
    case Od => Real(b.od)
    case Ar => Real(b.ar)
    case DifficultyStd => Real(b.difficultyStd)
    case DifficultyTaiko => Real(b.difficultyTaiko)
    case DifficultyCtb => Real(b.difficultyCtb)
    case DifficultyMania => Real(b.difficultyMania)
    case HitLength => Int(b.hitLength)
    case LatestUpdate => Int(b.lastUpdate)
    case MaxCombo => Int(b.maxCombo)
    case BpmCol => Int(b.bpm)
    case FileName => Str(b.filename)
    case RankedStatusFreezed => Bool(b.frozen)
    case RatingCol => RatingValue(b.rating)
  }

  /** `Beatmap.db_dict`: the parameters `save` binds into its statement. */
  function DbDict(b: Beatmap): (r: Row)
    ensures r.Keys == AllColumns
    ensures r[RankedCol] == Int(StatusCode(b.status))
    ensures r[RankedStatusFreezed] == Bool(b.frozen)
  {
    map c | c in AllColumns :: Cell(b, c)
  }

  /**
   * The row holds every column `from_dict` reads, with a value of the type
   * the record field has, and the status and mode codes are known ones.
   */
  predicate Decodable(r: Row)
  {
    && BeatmapMd5 in r && r[BeatmapMd5].Str?
    && BeatmapId in r && r[BeatmapId].Int?
    && BeatmapsetId in r && r[BeatmapsetId].Int?
    && SongName in r && r[SongName].Str?
    && RankedCol in r && r[RankedCol].Int? && StatusFromCode(r[RankedCol].i).Some?
    && Playcount in r && r[Playcount].Int?
    && Passcount in r && r[Passcount].Int?
    && ModeCol in r && r[ModeCol].Int? && ModeFromCode(r[ModeCol].i).Some?
    && Od in r && r[Od].Real?
    && Ar in r && r[Ar].Real?
    && DifficultyStd in r && r[DifficultyStd].Real?
    && DifficultyTaiko in r && r[DifficultyTaiko].Real?
    && DifficultyCtb in r && r[DifficultyCtb].Real?
    && DifficultyMania in r && r[DifficultyMania].Real?
    && HitLength in r && r[HitLength].Int?
    && LatestUpdate in r && r[LatestUpdate].Int?
    && MaxCombo in r && r[MaxCombo].Int?
    && BpmCol in r && r[BpmCol].Int?
    && FileName in r && r[FileName].Str?
    && RankedStatusFreezed in r && r[RankedStatusFreezed].Bool?
    && RatingCol in r && (r[RatingCol].Null? || r[RatingCol].Real?)
  }

  /**
   * `Beatmap.from_dict`. None stands for the source raising: a missing
   * column (KeyError) or an unknown status or mode code (ValueError); a
   * column of the wrong type, which the typed record cannot hold, is None too.
   */
  function FromDict(r: Row): (b: Option<Beatmap>)
    ensures b.Some? <==> Decodable(r)
    ensures b.Some? ==> Str(b.value.md5) == r[BeatmapMd5] && Int(b.value.id) == r[BeatmapId]
    ensures b.Some? ==> StatusCode(b.value.status) == r[RankedCol].i
    ensures b.Some? ==> b.value.frozen == r[RankedStatusFreezed].b
  {
    if !Decodable(r) then None
    else
      Some(Beatmap(
        md5 := r[BeatmapMd5].s,
        id := r[BeatmapId].i,
        setId := r[BeatmapsetId].i,
        songName := r[SongName].s,
        status := StatusFromCode(r[RankedCol].i).value,
        plays := r[Playcount].i,
        passes := r[Passcount].i,
        mode := ModeFromCode(r[ModeCol].i).value,
        od := r[Od].r,
        ar := r[Ar].r,
        difficultyStd := r[DifficultyStd].r,
        difficultyTaiko := r[DifficultyTaiko].r,
        difficultyCtb := r[DifficultyCtb].r,
        difficultyMania := r[DifficultyMania].r,
        hitLength := r[HitLength].i,
        lastUpdate := r[LatestUpdate].i,
        maxCombo := r[MaxCombo].i,
        bpm := r[BpmCol].i,
        filename := r[FileName].s,
        frozen := r[RankedStatusFreezed].b,
        rating := if r[RatingCol].Null? then None else Some(r[RatingCol].r)))
  }

  /** Reading back a saved row gives the record that was saved. */
  lemma FromDictDbDict(b: Beatmap)
    ensures FromDict(DbDict(b)) == Some(b)
  {
    var d := DbDict(b);
    StatusCodeRoundTrip(b.status);
    ModeCodeRoundTrip(b.mode);
    assert Decodable(d);
    var e := FromDict(d).value;
    assert e.md5 == b.md5 && e.id == b.id && e.setId == b.setId && e.songName == b.songName;
    assert e.status == b.status && e.mode == b.mode;
    assert e.rating == b.rating;
  }

  /** Decoding and re-encoding one column of a decodable row gives that column's value back. */
  lemma CellFromDict(r: Row, c: Column)
    requires Decodable(r)
    ensures Cell(FromDict(r).value, c) == r[c]
  {
    var b := FromDict(r).value;
    match c
    case RankedCol => assert StatusCode(b.status) == r[RankedCol].i;
    case ModeCol => assert ModeCode(b.mode) == r[ModeCol].i;
    case RatingCol => assert b.rating == if r[RatingCol].Null? then None else Some(r[RatingCol].r);
    case _ =>
  }

  /** Saving a decoded row that has exactly the saved columns writes that same row back. */
  lemma DbDictFromDict(r: Row)
    requires r.Keys == AllColumns
    requires Decodable(r)
    ensures DbDict(FromDict(r).value) == r
  {
    var d := DbDict(FromDict(r).value);
    forall c | c in r
      ensures d[c] == r[c]
    {
      CellFromDict(r, c);
    }
  }

  /** `save` binds exactly the parameters its statement names: the 21 columns. */
  lemma DbDictMatchesSaveColumns(b: Beatmap)
    ensures |SaveColumns| == 21
    ensures forall c :: c in DbDict(b) <==> c in SaveColumns
  {
    forall c | c in AllColumns ensures c in SaveColumns {
      match c
      case BeatmapId => assert SaveColumns[0] == c;
      case BeatmapsetId => assert SaveColumns[1] == c;
      case BeatmapMd5 => assert SaveColumns[2] == c;
      case SongName => assert SaveColumns[3] == c;
      case Ar => assert SaveColumns[4] == c;
      case Od => assert SaveColumns[5] == c;
      case ModeCol => assert SaveColumns[6] == c;
      case RatingCol => assert SaveColumns[7] == c;
      case DifficultyStd => assert SaveColumns[8] == c;
      case DifficultyTaiko => assert SaveColumns[9] == c;
      case DifficultyCtb => assert SaveColumns[10] == c;
      case DifficultyMania => assert SaveColumns[11] == c;
      case MaxCombo => assert SaveColumns[12] == c;
      case HitLength => assert SaveColumns[13] == c;
      case BpmCol => assert SaveColumns[14] == c;
      case Playcount => assert SaveColumns[15] == c;
      case Passcount => assert SaveColumns[16] == c;
      case RankedCol => assert SaveColumns[17] == c;
      case LatestUpdate => assert SaveColumns[18] == c;
      case RankedStatusFreezed => assert SaveColumns[19] == c;
      case FileName => assert SaveColumns[20] == c;
    }
  }

  /**
   * The columns saved are, position by position, the ones the statement
   * names, so each bound parameter lands in the column of the same name.
   */
  lemma SaveColumnNames()
    ensures |SaveColumns| == |SaveStatementNames|
    ensures forall i | 0 <= i < |SaveColumns| :: ColumnName(SaveColumns[i]) == SaveStatementNames[i]
  {
  }

  /**
   * No two columns share a name, so a row keyed by column holds what the
   * name-keyed dictionary holds.
   */
  lemma ColumnNamesDistinct(c1: Column, c2: Column)
    requires ColumnName(c1) == ColumnName(c2)
    ensures c1 == c2
  {
  }

  /** The fields a record built with only its required fields gets by default. */
  lemma Defaults(md5: string, id: int, setId: int, songName: string, status: RankedStatus,
                 plays: int, passes: int, mode: Mode, od: real, ar: real,
                 dStd: real, dTaiko: real, dCtb: real, dMania: real, hitLength: int)
    ensures var b := Beatmap(md5, id, setId, songName, status, plays, passes, mode, od, ar,
                             dStd, dTaiko, dCtb, dMania, hitLength);
            && b.lastUpdate == 0 && b.maxCombo == 0 && b.bpm == 0 && b.filename == ""
            && !b.frozen && b.rating == None
  {
  }
}
