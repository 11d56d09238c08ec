/**
 * The beatmap resolver of usecases/beatmap.py: a lookup by content hash
 * (md5) through a negative cache, a positive cache, the `beatmaps` table and
 * the remote API, with the update protocol that replaces or removes a stored
 * map when the API reports a new version or none at all.
 *
 * The process-wide caches and the tables are the fields of `Resolver`; each
 * of its methods is proved to produce exactly the state and result of a pure
 * specification function over `State`, and the properties of the resolver
 * are lemmas about those functions.
 */
module BeatmapResolver {
  import opened Wrappers
  import opened Enums
  import opened BeatmapModel
  import opened OsuApi
  import opened DbValues

  /** The three score tables, one per play-modifier category. */
  datatype ScoreTable = Scores | ScoresRelax | ScoresAp

  /** The tables the deletion loops visit, in their order. */
  const ScoreTables: seq<ScoreTable> := [Scores, ScoresRelax, ScoresAp]

  /** A row of a score table, reduced to what deletion looks at. */
  datatype ScoreRef = ScoreRef(id: int, md5: string)

  /**
   * What the resolver consults but does not own: the API queried by hash and
   * by id (an empty answer also stands for a failed request or an empty JSON
   * body, on which the source returns None as well), `RankedStatus.from_osu_api`,
   * and the `deserves_update` attribute, which the `Beatmap` class shown does
   * not define and which is left uninterpreted here.
   */
  datatype Env = Env(
    apiByMd5: string -> seq<ApiRecord>,
    apiById: int -> seq<ApiRecord>,
    fromOsuApi: int -> RankedStatus,
    deservesUpdate: Beatmap -> bool)

  /** The three caches and the four tables. */
  datatype State = State(
    md5Cache: map<string, Beatmap>,
    updatedCache: map<string, Beatmap>,
    unsubCache: set<string>,
    beatmaps: map<string, Row>,
    scores: map<ScoreTable, set<ScoreRef>>)

  /** Every stored row decodes and is filed under its own hash, the table's primary key. */
  predicate RowsKeyed(table: map<string, Row>)
  {
    forall md5 | md5 in table :: Decodable(table[md5]) && table[md5][BeatmapMd5] == Str(md5)
  }

  /** Every score table exists and every stored beatmap row decodes under its own hash. */
  predicate Consistent(st: State)
  {
    st.scores.Keys == {Scores, ScoresRelax, ScoresAp} && RowsKeyed(st.beatmaps)
  }

  function WithoutMd5(rows: set<ScoreRef>, md5: string): set<ScoreRef>
  {
    set r | r in rows && r.md5 != md5
  }

  /** The `DELETE ... WHERE beatmap_md5 = :old_md5` on `beatmaps` and on each score table. */
  function DeleteMap(st: State, md5: string): (r: State)
    ensures md5 !in r.beatmaps
    ensures forall k | k != md5 :: (k in r.beatmaps <==> k in st.beatmaps) && (k in st.beatmaps ==> r.beatmaps[k] == st.beatmaps[k])
    ensures r.scores.Keys == st.scores.Keys
    ensures forall t, row | t in st.scores :: row in r.scores[t] <==> row in st.scores[t] && row.md5 != md5
    ensures r.md5Cache == st.md5Cache && r.updatedCache == st.updatedCache && r.unsubCache == st.unsubCache
    ensures Consistent(st) ==> Consistent(r)
  {
    st.(beatmaps := st.beatmaps - {md5},
        scores := map t | t in st.scores :: WithoutMd5(st.scores[t], md5))
  }

  /** `save` of each beatmap in turn, each an upsert keyed by hash. */
  function UpsertAll(table: map<string, Row>, maps: seq<Beatmap>): map<string, Row>
    decreases |maps|
  {
    if maps == [] then table
    else
      var last := maps[|maps| - 1];
      UpsertAll(table, maps[..|maps| - 1])[last.md5 := DbDict(last)]
  }

  /** The API tier: parse the answer, save every parsed beatmap, pick the first whose key matches. */
  function ApiTier<K(==)>(st: State, env: Env, recs: seq<ApiRecord>, key: Beatmap -> K, want: K, now: int)
    : (State, Option<Beatmap>)
  {
    var maps := Parse(recs, false, now, env.fromOsuApi);
    (st.(beatmaps := UpsertAll(st.beatmaps, maps)), FirstWithKey(maps, key, want))
  }

  /** `md5_from_api(md5)` after the HTTP request. */
  function Md5FromApiSpec(st: State, env: Env, md5: string, now: int): (r: (State, Option<Beatmap>))
    ensures r.0 == st.(beatmaps := r.0.beatmaps)
    ensures r.1.Some? ==> r.1.value.md5 == md5 && md5 in r.0.beatmaps
    ensures Consistent(st) ==> Consistent(r.0)
  {
    var maps := Parse(env.apiByMd5(md5), false, now, env.fromOsuApi);
    UpsertAllCovers(st.beatmaps, maps);
    FirstWithKeyIsFirst(maps, Md5Of, md5);
    if Consistent(st) then
      UpsertAllDecodable(st.beatmaps, maps);
      ApiTier(st, env, env.apiByMd5(md5), Md5Of, md5, now)
    else
      ApiTier(st, env, env.apiByMd5(md5), Md5Of, md5, now)
  }

  /** `id_from_api(id)` after the HTTP request. */
  function IdFromApiSpec(st: State, env: Env, id: int, now: int): (r: (State, Option<Beatmap>))
    ensures r.0 == st.(beatmaps := r.0.beatmaps)
    ensures r.1.Some? ==> r.1.value.id == id && r.1.value.md5 in r.0.beatmaps
    ensures Consistent(st) ==> Consistent(r.0)
  {
    var maps := Parse(env.apiById(id), false, now, env.fromOsuApi);
    UpsertAllCovers(st.beatmaps, maps);
    FirstWithKeyIsFirst(maps, IdOf, id);
    if Consistent(st) then
      UpsertAllDecodable(st.beatmaps, maps);
      ApiTier(st, env, env.apiById(id), IdOf, id, now)
    else
      ApiTier(st, env, env.apiById(id), IdOf, id, now)
  }

  /**
   * `update_beatmap(b)`. When the API has the id under another hash, the new
   * record takes the old status if the old one was frozen; `UPDATED_CACHE`
   * holds the same object whose `last_update` is set afterwards, so the value
   * it keeps carries the new time too.
   */
  function UpdateSpec(st: State, env: Env, b: Beatmap, now: int): (r: (State, Option<Beatmap>))
    ensures r.0.unsubCache == st.unsubCache
    ensures r.1.None? ==> b.md5 !in r.0.beatmaps && r.0.md5Cache == st.md5Cache
    ensures r.1.Some? && env.deservesUpdate(b) && b.md5 !in st.updatedCache ==>
              && r.1.value.lastUpdate == now
              && r.1.value.md5 in r.0.md5Cache && r.0.md5Cache[r.1.value.md5] == r.1.value
  {
    if !env.deservesUpdate(b) then (st, Some(b))
    else if b.md5 in st.updatedCache then (st, Some(st.updatedCache[b.md5]))
    else
      var (st1, found) := IdFromApiSpec(st, env, b.id, now);
      if found.None? then (DeleteMap(st1, b.md5), None)
      else
        var (st2, n) := AdoptSpec(st1, b, found.value, now);
        (st2, Some(n))
  }

  /**
   * The tail of `update_beatmap(b)` once the API returned `found` for its id:
   * a new hash replaces the old one (the old status kept if the old map was
   * frozen), then the record, stamped with the current time, is saved and cached.
   */
  function AdoptSpec(st: State, b: Beatmap, found: Beatmap, now: int): (r: (State, Beatmap))
    ensures r.1.md5 == found.md5 && r.1.lastUpdate == now
    ensures r.0.unsubCache == st.unsubCache
    ensures r.1.md5 in r.0.md5Cache && r.0.md5Cache[r.1.md5] == r.1
  {
    var changed := found.md5 != b.md5;
    var n := found.(status := if changed && b.frozen then b.status else found.status, lastUpdate := now);
    var st1 :=
      if changed then
        DeleteMap(st.(md5Cache := st.md5Cache - {b.md5}), b.md5).(updatedCache := st.updatedCache[b.md5 := n])
      else st;
    (st1.(beatmaps := st1.beatmaps[n.md5 := DbDict(n)], md5Cache := st1.md5Cache[n.md5 := n]), n)
  }

  /** `md5_from_database(md5)`: the stored row, decoded and brought up to date. */
  function DatabaseSpec(st: State, env: Env, md5: string, now: int): (r: (State, Option<Beatmap>))
    requires Consistent(st)
    ensures md5 !in st.beatmaps ==> r == (st, None)
    ensures r.0.unsubCache == st.unsubCache
  {
    if md5 !in st.beatmaps then (st, None)
    else UpdateSpec(st, env, FromDict(st.beatmaps[md5]).value, now)
  }

  /** `fetch_by_md5(md5)`: negative cache, positive cache, database, API by hash. */
  function FetchSpec(st: State, env: Env, md5: string, now: int): (r: (State, Option<Beatmap>))
    requires Consistent(st)
    ensures r.1.None? <==> md5 in r.0.unsubCache
    ensures r.1.Some? ==> md5 in r.0.md5Cache && r.0.md5Cache[md5] == r.1.value
  {
    if md5 in st.unsubCache then (st, None)
    else if md5 in st.md5Cache then (st, Some(st.md5Cache[md5]))
    else
      var (st1, fromDb) := DatabaseSpec(st, env, md5, now);
      if fromDb.Some? then (st1.(md5Cache := st1.md5Cache[md5 := fromDb.value]), fromDb)
      else
        var (st2, fromApi) := Md5FromApiSpec(st1, env, md5, now);
        if fromApi.Some? then (st2.(md5Cache := st2.md5Cache[md5 := fromApi.value]), fromApi)
        else (st2.(unsubCache := st2.unsubCache + {md5}), None)
  }

  // ---------------------------------------------------------------------
  // Properties of the specification
  // ---------------------------------------------------------------------

  /** After saving a list of beatmaps, every hash of the list has a row. */
  lemma {:induction false} UpsertAllCovers(table: map<string, Row>, maps: seq<Beatmap>)
    ensures forall i | 0 <= i < |maps| :: maps[i].md5 in UpsertAll(table, maps)
    decreases |maps|
  {
    if maps != [] {
      var n := |maps| - 1;
      var init := maps[..n];
      UpsertAllCovers(table, init);
      forall i | 0 <= i < n ensures maps[i].md5 in UpsertAll(table, maps) {
        assert init[i] == maps[i];
      }
    }
  }

  /** The row under a saved hash is the row of the last beatmap in the list with that hash. */
  lemma {:induction false} UpsertAllLastWins(table: map<string, Row>, maps: seq<Beatmap>, i: nat)
    requires i < |maps|
    requires forall j | i < j < |maps| :: maps[j].md5 != maps[i].md5
    ensures maps[i].md5 in UpsertAll(table, maps)
    ensures UpsertAll(table, maps)[maps[i].md5] == DbDict(maps[i])
    decreases |maps|
  {
    var n := |maps| - 1;
    if i < n {
      var init := maps[..n];
      assert maps[n].md5 != maps[i].md5;
      assert init[i] == maps[i];
      forall j | i < j < n ensures init[j].md5 != init[i].md5 {
        assert init[j] == maps[j];
      }
      UpsertAllLastWins(table, init, i);
    }
  }

  /** Rows under a hash no saved beatmap has are as before. */
  lemma {:induction false} UpsertAllKeepsOthers(table: map<string, Row>, maps: seq<Beatmap>, k: string)
    requires forall i | 0 <= i < |maps| :: maps[i].md5 != k
    ensures k in UpsertAll(table, maps) <==> k in table
    ensures k in table ==> UpsertAll(table, maps)[k] == table[k]
    decreases |maps|
  {
    if maps != [] {
      var n := |maps| - 1;
      var init := maps[..n];
      forall i | 0 <= i < n ensures init[i].md5 != k {
        assert init[i] == maps[i];
      }
      UpsertAllKeepsOthers(table, init, k);
    }
  }

  /** Saving beatmaps keeps every row decodable and filed under its own hash. */
  lemma {:induction false} UpsertAllDecodable(table: map<string, Row>, maps: seq<Beatmap>)
    requires RowsKeyed(table)
    ensures RowsKeyed(UpsertAll(table, maps))
    decreases |maps|
  {
    if maps != [] {
      UpsertAllDecodable(table, maps[..|maps| - 1]);
      FromDictDbDict(maps[|maps| - 1]);
    }
  }

  /**
   * `md5_from_api` saves every parsed record and returns the first one whose
   * hash is the one asked for, or None when no parsed record has it. Nothing
   * but the `beatmaps` table changes.
   */
  lemma Md5LookupSavesAndSelects(st: State, env: Env, md5: string, now: int)
    ensures var maps := Parse(env.apiByMd5(md5), false, now, env.fromOsuApi);
            var (st1, r) := Md5FromApiSpec(st, env, md5, now);
            && st1 == st.(beatmaps := UpsertAll(st.beatmaps, maps))
            && (forall i | 0 <= i < |maps| :: maps[i].md5 in st1.beatmaps)
            && (r.None? <==> forall i | 0 <= i < |maps| :: maps[i].md5 != md5)
            && (r.Some? ==> exists i | 0 <= i < |maps| :: maps[i] == r.value && r.value.md5 == md5
                                                      && forall j | 0 <= j < i :: maps[j].md5 != md5)
  {
    var maps := Parse(env.apiByMd5(md5), false, now, env.fromOsuApi);
    UpsertAllCovers(st.beatmaps, maps);
    FirstWithKeyIsFirst(maps, Md5Of, md5);
  }

  /**
   * `id_from_api` saves every parsed record and returns the first one whose
   * id is the one asked for, or None when no parsed record has it. Nothing
   * but the `beatmaps` table changes.
   */
  lemma IdLookupSavesAndSelects(st: State, env: Env, id: int, now: int)
    ensures var maps := Parse(env.apiById(id), false, now, env.fromOsuApi);
            var (st1, r) := IdFromApiSpec(st, env, id, now);
            && st1 == st.(beatmaps := UpsertAll(st.beatmaps, maps))
            && (forall i | 0 <= i < |maps| :: maps[i].md5 in st1.beatmaps)
            && (r.None? <==> forall i | 0 <= i < |maps| :: maps[i].id != id)
            && (r.Some? ==> exists i | 0 <= i < |maps| :: maps[i] == r.value && r.value.id == id
                                                      && forall j | 0 <= j < i :: maps[j].id != id)
  {
    var maps := Parse(env.apiById(id), false, now, env.fromOsuApi);
    UpsertAllCovers(st.beatmaps, maps);
    FirstWithKeyIsFirst(maps, IdOf, id);
  }

  /** A hash in the negative cache resolves to None and changes nothing. */
  lemma FetchUnsubmitted(st: State, env: Env, md5: string, now: int)
    requires Consistent(st)
    requires md5 in st.unsubCache
    ensures FetchSpec(st, env, md5, now) == (st, None)
  {
  }

  /**
   * A hash that misses the caches, the table and the API resolves to None
   * and is added to the negative cache; any later lookup of it resolves to
   * None without touching the tables or asking the API.
   */
  lemma FetchMissIsRemembered(st: State, env: Env, md5: string, now: int, later: int)
    requires Consistent(st)
    requires md5 !in st.unsubCache && md5 !in st.md5Cache && md5 !in st.beatmaps
    requires forall i | 0 <= i < |Parse(env.apiByMd5(md5), false, now, env.fromOsuApi)| ::
               Parse(env.apiByMd5(md5), false, now, env.fromOsuApi)[i].md5 != md5
    ensures var (st1, r) := FetchSpec(st, env, md5, now);
            && r.None?
            && st1.unsubCache == st.unsubCache + {md5}
            && st1.md5Cache == st.md5Cache && st1.updatedCache == st.updatedCache
            && st1.scores == st.scores
            && Consistent(st1)
            && FetchSpec(st1, env, md5, later) == (st1, None)
  {
    var maps := Parse(env.apiByMd5(md5), false, now, env.fromOsuApi);
    FirstWithKeyIsFirst(maps, Md5Of, md5);
    UpsertAllDecodable(st.beatmaps, maps);
  }

  /** The stored map an update starts from, for a hash found in the table. */
  function StoredMap(st: State, md5: string): Beatmap
    requires Consistent(st) && md5 in st.beatmaps
  {
    FromDict(st.beatmaps[md5]).value
  }

  /**
   * The API has the map's id under another hash: the old hash leaves the
   * hash cache and the `beatmaps` table, every score row under it leaves all
   * three score tables while rows under other hashes stay, the new record
   * keeps the old status exactly when the old map was frozen, carries the
   * current time and is remembered under the old hash in the updated cache.
   */
  lemma UpdateReplacesResubmittedMap(st: State, env: Env, b: Beatmap, now: int)
    requires env.deservesUpdate(b) && b.md5 !in st.updatedCache
    requires var f := IdFromApiSpec(st, env, b.id, now).1; f.Some? && f.value.md5 != b.md5
    ensures var found := IdFromApiSpec(st, env, b.id, now).1.value;
            var (st1, r) := UpdateSpec(st, env, b, now);
            && r.Some?
            && r.value.md5 == found.md5 && r.value.id == found.id
            && r.value.status == (if b.frozen then b.status else found.status)
            && r.value.frozen == found.frozen
            && r.value.lastUpdate == now
            && b.md5 !in st1.md5Cache && st1.md5Cache[found.md5] == r.value
            && b.md5 !in st1.beatmaps && FromDict(st1.beatmaps[found.md5]) == r
            && st1.updatedCache == st.updatedCache[b.md5 := r.value]
            && st1.unsubCache == st.unsubCache
            && st1.scores.Keys == st.scores.Keys
            && (forall t, row | t in st.scores :: row in st1.scores[t] <==> row in st.scores[t] && row.md5 != b.md5)
  {
    var r := UpdateSpec(st, env, b, now).1;
    FromDictDbDict(r.value);
  }

  /**
   * The API confirms the map's hash: the API record is returned with the
   * API's own status and the current time; no row is deleted and the updated
   * cache is untouched.
   */
  lemma UpdateKeepsSameMap(st: State, env: Env, b: Beatmap, now: int)
    requires env.deservesUpdate(b) && b.md5 !in st.updatedCache
    requires var f := IdFromApiSpec(st, env, b.id, now).1; f.Some? && f.value.md5 == b.md5
    ensures var found := IdFromApiSpec(st, env, b.id, now).1.value;
            var (st1, r) := UpdateSpec(st, env, b, now);
            && r == Some(found.(lastUpdate := now))
            && r.value.status == found.status
            && st1.md5Cache == st.md5Cache[b.md5 := r.value]
            && st1.updatedCache == st.updatedCache
            && st1.unsubCache == st.unsubCache
            && st1.scores == st.scores
            && FromDict(st1.beatmaps[b.md5]) == r
  {
    var r := UpdateSpec(st, env, b, now).1;
    FromDictDbDict(r.value);
  }

  /**
   * The frozen override lasts one update: the re-uploaded record gets the old
   * status but keeps the API's own frozen flag, so when the API did not
   * freeze it, a later update that confirms the new hash takes the API's
   * status again.
   */
  lemma FrozenOverrideLastsOneUpdate(st: State, env: Env, b: Beatmap, now: int, later: int)
    requires env.deservesUpdate(b) && b.md5 !in st.updatedCache && b.frozen
    requires var f := IdFromApiSpec(st, env, b.id, now).1;
             f.Some? && f.value.md5 != b.md5 && !f.value.frozen
    requires var (st1, r) := UpdateSpec(st, env, b, now);
             && r.Some? && env.deservesUpdate(r.value) && r.value.md5 !in st1.updatedCache
             && var g := IdFromApiSpec(st1, env, r.value.id, later).1;
                g.Some? && g.value.md5 == r.value.md5
    ensures var (st1, r) := UpdateSpec(st, env, b, now);
            && r.value.status == b.status && !r.value.frozen
            && UpdateSpec(st1, env, r.value, later).1.value.status == IdFromApiSpec(st1, env, r.value.id, later).1.value.status
  {
    var (st1, r) := UpdateSpec(st, env, b, now);
    UpdateReplacesResubmittedMap(st, env, b, now);
    UpdateKeepsSameMap(st1, env, r.value, later);
  }

  /**
   * The API no longer has the map's id: its row and every score row under
   * its hash are deleted, the caches are left as they were, and the update
   * yields None.
   */
  lemma UpdateDropsUnsubmittedMap(st: State, env: Env, b: Beatmap, now: int)
    requires env.deservesUpdate(b) && b.md5 !in st.updatedCache
    requires IdFromApiSpec(st, env, b.id, now).1.None?
    ensures var (st1, r) := UpdateSpec(st, env, b, now);
            && r.None?
            && b.md5 !in st1.beatmaps
            && st1.md5Cache == st.md5Cache && st1.updatedCache == st.updatedCache
            && st1.unsubCache == st.unsubCache
            && st1.scores.Keys == st.scores.Keys
            && (forall t, row | t in st.scores :: row in st1.scores[t] <==> row in st.scores[t] && row.md5 != b.md5)
  {
  }

  /**
   * A map the database holds but the API dropped is not reported missing
   * straight away: the lookup goes on to the API by hash, from the state the
   * deletion left behind.
   */
  lemma FetchFallsThroughAfterDrop(st: State, env: Env, md5: string, now: int)
    requires Consistent(st)
    requires md5 !in st.unsubCache && md5 !in st.md5Cache && md5 in st.beatmaps
    requires UpdateSpec(st, env, StoredMap(st, md5), now).1.None?
    ensures var st1 := UpdateSpec(st, env, StoredMap(st, md5), now).0;
            var (st2, fromApi) := Md5FromApiSpec(st1, env, md5, now);
            FetchSpec(st, env, md5, now) ==
              if fromApi.Some? then (st2.(md5Cache := st2.md5Cache[md5 := fromApi.value]), fromApi)
              else (st2.(unsubCache := st2.unsubCache + {md5}), None)
  {
  }

  /**
   * A database hit whose update moves the map from hash A to hash B leaves
   * the new record under B in the hash cache, under A in the updated cache,
   * and, because the lookup re-inserts the hash it was asked for after the
   * update popped it, under A in the hash cache as well.
   */
  lemma FetchAfterResubmissionCachesBothHashes(st: State, env: Env, md5: string, now: int)
    requires Consistent(st)
    requires md5 !in st.unsubCache && md5 !in st.md5Cache && md5 in st.beatmaps
    requires var b := StoredMap(st, md5);
             && env.deservesUpdate(b) && md5 !in st.updatedCache
             && var f := IdFromApiSpec(st, env, b.id, now).1; f.Some? && f.value.md5 != md5
    ensures var newMd5 := IdFromApiSpec(st, env, StoredMap(st, md5).id, now).1.value.md5;
            var (st1, r) := FetchSpec(st, env, md5, now);
            && r.Some? && r.value.md5 == newMd5 && newMd5 != md5
            && st1.updatedCache[md5] == r.value
            && st1.md5Cache[newMd5] == r.value
            && st1.md5Cache[md5] == r.value
            && md5 !in st1.beatmaps
  {
    var b := StoredMap(st, md5);
    assert b.md5 == md5;
    UpdateReplacesResubmittedMap(st, env, b, now);
  }

  // ---------------------------------------------------------------------
  // The resolver itself
  // ---------------------------------------------------------------------

  /** The module-level caches of usecases/beatmap.py, with the tables they sit in front of. */
  class Resolver {
    var md5Cache: map<string, Beatmap>
    var updatedCache: map<string, Beatmap>
    var unsubCache: set<string>
    var beatmaps: map<string, Row>
    var scores: map<ScoreTable, set<ScoreRef>>
    const env: Env

    function Current(): State
      reads this
    {
      State(md5Cache, updatedCache, unsubCache, beatmaps, scores)
    }

    ghost predicate Valid()
      reads this
    {
      Consistent(Current())
    }

    /** Empty caches in front of the given tables, as at process start. */
    constructor (env: Env, beatmaps: map<string, Row>, scores: map<ScoreTable, set<ScoreRef>>)
      requires Consistent(State(map[], map[], {}, beatmaps, scores))
      ensures Valid() && this.env == env
      ensures Current() == State(map[], map[], {}, beatmaps, scores)
    {
      this.env := env;
      this.md5Cache := map[];
      this.updatedCache := map[];
      this.unsubCache := {};
      this.beatmaps := beatmaps;
      this.scores := scores;
    }

    /** `save(b)`: an upsert of the row `db_dict` gives. */
    method Save(b: Beatmap)
      requires Valid()
      modifies this
      ensures Valid()
      ensures Current() == old(Current()).(beatmaps := old(beatmaps)[b.md5 := DbDict(b)])
    {
      FromDictDbDict(b);
      beatmaps := beatmaps[b.md5 := DbDict(b)];
    }

    /** The save loop of the API lookups. */
    method SaveAll(maps: seq<Beatmap>)
      requires Valid()
      modifies this
      ensures Valid()
      ensures Current() == old(Current()).(beatmaps := UpsertAll(old(beatmaps), maps))
    {
      var i := 0;
      while i < |maps|
        invariant 0 <= i <= |maps|
        invariant Valid()
        invariant Current() == old(Current()).(beatmaps := UpsertAll(old(beatmaps), maps[..i]))
      {
        assert maps[..i + 1][..i] == maps[..i];
        Save(maps[i]);
        i := i + 1;
      }
      assert maps[..i] == maps;
    }

    /** The deletion of a map's row and of its score rows in each of the three tables. */
    method DeleteMapRows(md5: string)
      requires Valid()
      modifies this
      ensures Valid()
      ensures Current() == DeleteMap(old(Current()), md5)
    {
      beatmaps := beatmaps - {md5};
      var i := 0;
      while i < |ScoreTables|
        invariant 0 <= i <= |ScoreTables|
        invariant scores.Keys == old(scores).Keys
        invariant beatmaps == old(beatmaps) - {md5}
        invariant md5Cache == old(md5Cache) && updatedCache == old(updatedCache) && unsubCache == old(unsubCache)
        invariant forall t | t in scores ::
          scores[t] == if t in ScoreTables[..i] then WithoutMd5(old(scores)[t], md5) else old(scores)[t]
      {
        var t := ScoreTables[i];
        assert ScoreTables[..i + 1] == ScoreTables[..i] + [t];
        scores := scores[t := WithoutMd5(scores[t], md5)];
        i := i + 1;
      }
      assert ScoreTables[..i] == ScoreTables;
      assert scores == DeleteMap(old(Current()), md5).scores;
      assert Current() == DeleteMap(old(Current()), md5);
    }

    /** `id_from_api(id)`, the HTTP request replaced by the `apiById` answer. */
    method IdFromApi(id: int, now: int) returns (r: Option<Beatmap>)
      requires Valid()
      modifies this
      ensures Valid()
      ensures (Current(), r) == IdFromApiSpec(old(Current()), env, id, now)
    {
      var maps := ParseFromOsuApi(env.apiById(id), false, now, env.fromOsuApi);
      SaveAll(maps);
      r := FindFirst(maps, IdOf, id);
    }

    /** `md5_from_api(md5)`, the HTTP request replaced by the `apiByMd5` answer. */
    method Md5FromApi(md5: string, now: int) returns (r: Option<Beatmap>)
      requires Valid()
      modifies this
      ensures Valid()
      ensures (Current(), r) == Md5FromApiSpec(old(Current()), env, md5, now)
    {
      var maps := ParseFromOsuApi(env.apiByMd5(md5), false, now, env.fromOsuApi);
      SaveAll(maps);
      r := FindFirst(maps, Md5Of, md5);
    }

    /** `update_beatmap(b)`. */
    method UpdateBeatmap(b: Beatmap, now: int) returns (r: Option<Beatmap>)
      requires Valid()
      modifies this
      ensures Valid()
      ensures (Current(), r) == UpdateSpec(old(Current()), env, b, now)
    {
      if !env.deservesUpdate(b) {
        return Some(b);
      }
      if b.md5 in updatedCache {
        return Some(updatedCache[b.md5]);
      }
      var found := IdFromApi(b.id, now);
      if found.None? {
        DeleteMapRows(b.md5);
        return None;
      }
      var n := Adopt(b, found.value, now);
      r := Some(n);
    }

    /** The tail of `update_beatmap(b)` once the API returned `found`. */
    method Adopt(b: Beatmap, found: Beatmap, now: int) returns (n: Beatmap)
      requires Valid()
      modifies this
      ensures Valid()
      ensures (Current(), n) == AdoptSpec(old(Current()), b, found, now)
    {
      n := found;
      if n.md5 != b.md5 {
        md5Cache := md5Cache - {b.md5};
        DeleteMapRows(b.md5);
        if b.frozen {
          n := n.(status := b.status);
        }
        n := n.(lastUpdate := now);
        updatedCache := updatedCache[b.md5 := n];
      } else {
        n := n.(lastUpdate := now);
      }
      Save(n);
      md5Cache := md5Cache[n.md5 := n];
    }

    /** `md5_from_cache(md5)`. */
    function Md5FromCache(md5: string): Option<Beatmap>
      reads this
    {
      if md5 in md5Cache then Some(md5Cache[md5]) else None
    }

    /** `md5_from_database(md5)`. */
    method Md5FromDatabase(md5: string, now: int) returns (r: Option<Beatmap>)
      requires Valid()
      modifies this
      ensures Valid()
      ensures (Current(), r) == DatabaseSpec(old(Current()), env, md5, now)
    {
      if md5 !in beatmaps {
        return None;
      }
      var stored := FromDict(beatmaps[md5]).value;
      r := UpdateBeatmap(stored, now);
    }

    /** `fetch_by_md5(md5)`. */
    method FetchByMd5(md5: string, now: int) returns (r: Option<Beatmap>)
      requires Valid()
      modifies this
      ensures Valid()
      ensures (Current(), r) == FetchSpec(old(Current()), env, md5, now)
    {
      if md5 in unsubCache {
        return None;
      }
      var cached := Md5FromCache(md5);
      if cached.Some? {
        return cached;
      }
      var fromDb := Md5FromDatabase(md5, now);
      if fromDb.Some? {
        md5Cache := md5Cache[md5 := fromDb.value];
        return fromDb;
      }
      var fromApi := Md5FromApi(md5, now);
      if fromApi.Some? {
        md5Cache := md5Cache[md5 := fromApi.value];
        return fromApi;
      }
      unsubCache := unsubCache + {md5};
      r := None;
    }
  }
}
