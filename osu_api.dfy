/**
 * Turning records of the remote beatmap API into `Beatmap`s
 * (`parse_from_osu_api`), and picking the record a lookup asked for
 * (the selection loops of `md5_from_api` and `id_from_api`).
 */
module OsuApi {
  import opened Wrappers
  import opened Enums
  import opened BeatmapModel

  /**
   * One element of the API's JSON list, with its fields already converted to
   * the types the parser turns them into. `maxCombo` and `bpm` are None when
   * the field is missing or falsy (null or an empty string); `bpm` holds the
   * rounded value. `approved` is the API's own status code.
   */
  datatype ApiRecord = ApiRecord(
    fileMd5: string,
    beatmapId: int,
    beatmapsetId: int,
    artist: string,
    title: string,
    creator: string,
    version: string,
    hitLength: int,
    maxCombo: Option<int>,
    approved: int,
    mode: Mode,
    bpm: Option<int>,
    diffOverall: real,
    diffApproach: real)

  // The characters removed from song names: colon, backslash, slash, asterisk,
  // less-than, greater-than, question mark, double quote and vertical bar.
  const IgnoredChars: set<char> := {':', '\\', '/', '*', '<', '>', '?', '"', '|'}

  /** `str.translate` with every ignored character mapped to nothing. */
  function StripIgnored(s: string): (r: string)
    ensures forall i | 0 <= i < |r| :: r[i] !in IgnoredChars
  {
    if s == [] then []
    else if s[0] in IgnoredChars then StripIgnored(s[1..])
    else [s[0]] + StripIgnored(s[1..])
  }

  /** Stripping keeps every other character, as often as it occurs. */
  lemma {:induction false} StripIgnoredKeepsOthers(s: string, c: char)
    requires c !in IgnoredChars
    ensures multiset(StripIgnored(s))[c] == multiset(s)[c]
  {
    if s != [] {
      StripIgnoredKeepsOthers(s[1..], c);
      assert s == [s[0]] + s[1..];
    }
  }

  /** A name that holds no ignored character is left as it is. */
  lemma {:induction false} StripIgnoredKeepsCleanNames(s: string)
    requires forall i | 0 <= i < |s| :: s[i] !in IgnoredChars
    ensures StripIgnored(s) == s
  {
    if s != [] {
      StripIgnoredKeepsCleanNames(s[1..]);
    }
  }

  /** Statuses that freeze a map: ranked, approved and loved. */
  predicate FreezesStatus(s: RankedStatus)
  {
    s in {Ranked, Approved, Loved}
  }

  /** `"{artist} - {title} [{version}]"`, before the ignored characters are stripped. */
  function SongTitle(rec: ApiRecord): string
  {
    rec.artist + " - " + rec.title + " [" + rec.version + "]"
  }

  /** `"{artist} - {title} ({creator}) [{version}].osu"`, kept as it is. */
  function OsuFileName(rec: ApiRecord): string
  {
    rec.artist + " - " + rec.title + " (" + rec.creator + ") [" + rec.version + "].osu"
  }

  /**
   * The beatmap built from one record, once its status has been converted
   * and the frozen flag of this iteration is known; `now` is the clock.
   */
  function ToBeatmap(rec: ApiRecord, status: RankedStatus, frozen: bool, now: int): (b: Beatmap)
    ensures forall k | 0 <= k < |b.songName| :: b.songName[k] !in IgnoredChars
    ensures b.plays == 0 && b.passes == 0
    ensures b.md5 == rec.fileMd5 && b.id == rec.beatmapId && b.lastUpdate == now
  {
    Beatmap(
      md5 := rec.fileMd5,
      id := rec.beatmapId,
      setId := rec.beatmapsetId,
      songName := StripIgnored(SongTitle(rec)),
      status := status,
      plays := 0,
      passes := 0,
      mode := rec.mode,
      od := rec.diffOverall,
      ar := rec.diffApproach,
      difficultyStd := 0.0,
      difficultyTaiko := 0.0,
      difficultyCtb := 0.0,
      difficultyMania := 0.0,
      hitLength := rec.hitLength,
      lastUpdate := now,
      maxCombo := if rec.maxCombo.Some? then rec.maxCombo.value else 0,
      bpm := if rec.bpm.Some? then rec.bpm.value else 0,
      filename := OsuFileName(rec),
      frozen := frozen,
      rating := Some(10.0))
  }

  /**
   * What `parse_from_osu_api(recs, frozen)` returns. `fromOsuApi` is
   * `RankedStatus.from_osu_api`. The frozen flag is carried from each
   * element to the next.
   */
  function Parse(recs: seq<ApiRecord>, frozen: bool, now: int, fromOsuApi: int -> RankedStatus): (maps: seq<Beatmap>)
    ensures |maps| == |recs|
    ensures frozen ==> forall i | 0 <= i < |maps| :: maps[i].frozen
    decreases |recs|
  {
    if recs == [] then []
    else
      var status := fromOsuApi(recs[0].approved);
      var f := frozen || FreezesStatus(status);
      [ToBeatmap(recs[0], status, f, now)] + Parse(recs[1..], f, now, fromOsuApi)
  }

  /** Some element among the first `n` of `recs` has a status that freezes. */
  predicate FrozenWithin(recs: seq<ApiRecord>, n: nat, fromOsuApi: int -> RankedStatus)
    requires n <= |recs|
  {
    exists j | 0 <= j < n :: FreezesStatus(fromOsuApi(recs[j].approved))
  }

  /** A freezing status within the first n+1 records is at the head or within the first n of the rest. */
  lemma FrozenWithinShift(recs: seq<ApiRecord>, n: nat, fromOsuApi: int -> RankedStatus)
    requires n < |recs|
    ensures FrozenWithin(recs, n + 1, fromOsuApi)
            <==> FreezesStatus(fromOsuApi(recs[0].approved)) || FrozenWithin(recs[1..], n, fromOsuApi)
  {
    if FrozenWithin(recs, n + 1, fromOsuApi) && !FreezesStatus(fromOsuApi(recs[0].approved)) {
      var j :| 0 <= j < n + 1 && FreezesStatus(fromOsuApi(recs[j].approved));
      assert recs[1..][j - 1] == recs[j];
    }
    if FrozenWithin(recs[1..], n, fromOsuApi) {
      var j :| 0 <= j < n && FreezesStatus(fromOsuApi(recs[1..][j].approved));
      assert recs[j + 1] == recs[1..][j];
    }
  }

  /**
   * The parser yields one beatmap per record, in order: element i is record i
   * with its converted status, and it is frozen exactly when the caller's flag
   * was set or some record up to and including i has a freezing status.
   */
  lemma {:induction false} ParseElements(recs: seq<ApiRecord>, frozen: bool, now: int, fromOsuApi: int -> RankedStatus)
    ensures |Parse(recs, frozen, now, fromOsuApi)| == |recs|
    ensures forall i | 0 <= i < |recs| ::
      Parse(recs, frozen, now, fromOsuApi)[i] ==
        ToBeatmap(recs[i], fromOsuApi(recs[i].approved), frozen || FrozenWithin(recs, i + 1, fromOsuApi), now)
    decreases |recs|
  {
    if recs != [] {
      var status := fromOsuApi(recs[0].approved);
      var f := frozen || FreezesStatus(status);
      var tail := recs[1..];
      var ps := Parse(recs, frozen, now, fromOsuApi);
      ParseElements(tail, f, now, fromOsuApi);
      assert ps == [ToBeatmap(recs[0], status, f, now)] + Parse(tail, f, now, fromOsuApi);
      forall i | 0 <= i < |recs|
        ensures ps[i] == ToBeatmap(recs[i], fromOsuApi(recs[i].approved), frozen || FrozenWithin(recs, i + 1, fromOsuApi), now)
      {
        FrozenWithinShift(recs, i, fromOsuApi);
        if i > 0 {
          assert ps[i] == Parse(tail, f, now, fromOsuApi)[i - 1];
          assert tail[i - 1] == recs[i];
        } else {
          assert !FrozenWithin(tail, 0, fromOsuApi);
        }
      }
    }
  }

  /**
   * Every parsed beatmap has a song name free of the ignored characters, no
   * plays and no passes, a max combo of 0 when the record had none, and the
   * record's hash, id and set id.
   */
  lemma ParsedFields(recs: seq<ApiRecord>, frozen: bool, now: int, fromOsuApi: int -> RankedStatus)
    ensures var maps := Parse(recs, frozen, now, fromOsuApi);
      && |maps| == |recs|
      && forall i | 0 <= i < |maps| ::
        && (forall k | 0 <= k < |maps[i].songName| :: maps[i].songName[k] !in IgnoredChars)
        && maps[i].plays == 0 && maps[i].passes == 0
        && (recs[i].maxCombo.None? ==> maps[i].maxCombo == 0)
        && maps[i].md5 == recs[i].fileMd5 && maps[i].id == recs[i].beatmapId
        && maps[i].setId == recs[i].beatmapsetId
        && maps[i].status == fromOsuApi(recs[i].approved)
        && maps[i].lastUpdate == now
  {
    ParseElements(recs, frozen, now, fromOsuApi);
  }

  /** A parsed beatmap that awards pp is always frozen: its own status freezes it. */
  lemma ParsedPpMapsAreFrozen(recs: seq<ApiRecord>, frozen: bool, now: int, fromOsuApi: int -> RankedStatus)
    ensures var maps := Parse(recs, frozen, now, fromOsuApi);
            forall i | 0 <= i < |maps| :: GivesPp(maps[i]) ==> maps[i].frozen
  {
    var maps := Parse(recs, frozen, now, fromOsuApi);
    ParseElements(recs, frozen, now, fromOsuApi);
    forall i | 0 <= i < |maps| && GivesPp(maps[i]) ensures maps[i].frozen {
      assert FreezesStatus(fromOsuApi(recs[i].approved));
      assert FrozenWithin(recs, i + 1, fromOsuApi);
    }
  }

  /** `parse_from_osu_api`: one loop over the records, carrying `frozen` across iterations. */
  method ParseFromOsuApi(recs: seq<ApiRecord>, frozen: bool, now: int, fromOsuApi: int -> RankedStatus)
    returns (maps: seq<Beatmap>)
    ensures maps == Parse(recs, frozen, now, fromOsuApi)
  {
    maps := [];
    var carried := frozen;
    var i := 0;
    while i < |recs|
      invariant 0 <= i <= |recs|
      invariant maps + Parse(recs[i..], carried, now, fromOsuApi) == Parse(recs, frozen, now, fromOsuApi)
    {
      var rec := recs[i];
      var status := fromOsuApi(rec.approved);
      if FreezesStatus(status) {
        carried := true;
      }
      assert recs[i..][1..] == recs[i + 1..];
      maps := maps + [ToBeatmap(rec, status, carried, now)];
      i := i + 1;
    }
  }

  /** The first beatmap whose `key` is `want`, or None when none is. */
  function FirstWithKey<K(==)>(maps: seq<Beatmap>, key: Beatmap -> K, want: K): Option<Beatmap>
    decreases |maps|
  {
    if maps == [] then None
    else if key(maps[0]) == want then Some(maps[0])
    else FirstWithKey(maps[1..], key, want)
  }

  /**
   * The selection returns the element at the first position whose key
   * matches, and None exactly when no element matches.
   */
  lemma {:induction false} FirstWithKeyIsFirst<K>(maps: seq<Beatmap>, key: Beatmap -> K, want: K)
    ensures FirstWithKey(maps, key, want).None? <==> forall j | 0 <= j < |maps| :: key(maps[j]) != want
    ensures FirstWithKey(maps, key, want).Some? ==>
      exists i | 0 <= i < |maps| ::
        && maps[i] == FirstWithKey(maps, key, want).value
        && key(maps[i]) == want
        && forall j | 0 <= j < i :: key(maps[j]) != want
    decreases |maps|
  {
    if maps != [] && key(maps[0]) != want {
      FirstWithKeyIsFirst(maps[1..], key, want);
      var r := FirstWithKey(maps, key, want);
      if r.Some? {
        var i :| 0 <= i < |maps| - 1 && maps[1..][i] == r.value && key(maps[1..][i]) == want
                 && forall j | 0 <= j < i :: key(maps[1..][j]) != want;
        assert maps[i + 1] == r.value;
        assert forall j | 0 <= j < i + 1 :: key(maps[j]) != want by {
          forall j | 0 <= j < i + 1 ensures key(maps[j]) != want {
            if j > 0 { assert maps[j] == maps[1..][j - 1]; }
          }
        }
      } else {
        forall j | 0 <= j < |maps| ensures key(maps[j]) != want {
          if j > 0 { assert maps[j] == maps[1..][j - 1]; }
        }
      }
    }
  }

  function Md5Of(b: Beatmap): string { b.md5 }

  function IdOf(b: Beatmap): int { b.id }

  /** The scan for the record a lookup asked for: the first whose key matches. */
  method FindFirst<K(==)>(maps: seq<Beatmap>, key: Beatmap -> K, want: K) returns (r: Option<Beatmap>)
    ensures r == FirstWithKey(maps, key, want)
  {
    var i := 0;
    while i < |maps|
      invariant 0 <= i <= |maps|
      invariant FirstWithKey(maps[i..], key, want) == FirstWithKey(maps, key, want)
    {
      if key(maps[i]) == want {
        return Some(maps[i]);
      }
      assert maps[i..][1..] == maps[i + 1..];
      i := i + 1;
    }
    return None;
  }
}
