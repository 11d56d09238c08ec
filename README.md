# recalc core in Dafny

This project models the beatmap and player-statistics core of the Akatsuki
`recalc` service. The service recomputes the pp of stored scores. To do so it
resolves each score's beatmap by content hash (md5) and writes beatmaps,
scores and player statistics back to the database and to the leaderboard
sorted sets.

The model covers five files:

- **`models/beatmap.py`, `models/score.py`** (`BeatmapModel`, `ScoreModel`).
  - The `Beatmap` and `Score` records are datatypes with the dataclass defaults.
  - `db_dict` builds a row keyed by a column datatype.
  - `from_dict` is partial. It returns `None` where Python would raise: a missing column, an unknown enum code, or a time that the modelled `int()` rejects (NULL, or text other than an optionally negative run of digits).
  - It also returns `None` for a column whose value has a type the record field cannot hold. Python copies such a value into the record without raising.
  - Round trips between the two are proved.
- **`usecases/beatmap.py`** (`OsuApi`, `BeatmapResolver`).
  - The API parser is a loop that carries the frozen flag forward. It is proved equal to a recursive definition, and the flag of element *i* is characterised.
  - Two selection loops pick the record a lookup asked for.
  - The resolver is a class. Its fields are the three process-wide caches (`MD5_CACHE`, `UPDATED_CACHE`, `UNSUB_CACHE`), the `beatmaps` table and the three score tables.
  - Each method is proved to produce exactly the state and the result of a pure function over a `State` value. The resolver's properties are lemmas about those functions:
    - the negative cache;
    - deletion of orphaned rows;
    - frozen-status carry-over;
    - the fall-through after an unsubmitted map;
    - the hashes that stay cached.
- **`usecases/countries.py`** (`Countries`). `get_country` is a method on a write-once memo over the `users_stats.country` column.
- **`usecases/stats.py`** (`PlayerStats`).
  - Leaderboard keys, including the country key.
  - The 0-based sorted-set rank is turned into a displayed rank. The falsy-zero quirk is kept.
  - A sorted-set store class.
  - `fetch`, `get_redis_rank` and `update_rank` on a `Stats` class.
  - The `full_recalc` loop and its `last_idx` counter. Its result is proved to be a weighted average of the best scores' accuracies.
  - `calc_bonus`, with its bounds.

The enumerations `RankedStatus`, `Mode` and `ScoreStatus` are defined in files
that are not part of this model. They are closed datatypes with a table to and
from their stored integer codes. The codes themselves are assumed, not derived
from those files:

- `RankedStatus` codes: -1 to 5, Ranked 2, Approved 3, Loved 5.
- `Mode` codes: 0 to 7.
- `ScoreStatus` codes: Quit 0, Failed 1, Submitted 2, Best 3.

Two results depend on these concrete codes:

- `ScoreModel.FlagsFollowStatus` depends on the order Quit < Failed < Submitted < Best.
- `BeatmapModel.GivesPp` depends on Ranked and Approved being 2 and 3, the codes the stats queries filter on.

Every other result relies only on the tables being inverse to each other.

These conversions are passed in as functions:

- `RankedStatus.from_osu_api`
- `Mode.from_lb`
- `Mode.as_vn`
- `Mode.redis_leaderboard`
- `Mode.stats_prefix`
- the `deserves_update` attribute, which the `Beatmap` class shown does not define

The remote API is a function from the query (a hash or an id) to the list of
records it returns. Database query results are inputs.

The clock is a `now` parameter. One reading is assumed per call:

- every record parsed by one `parse_from_osu_api` call gets the same `latest_update` (usecases/beatmap.py:239);
- `update_beatmap` stamps the record with that same `now` (usecases/beatmap.py:66).

Where the code and its intended design disagree, the model follows the code:

- A player at the top of a sorted set has reverse rank 0. That value is falsy, so the player is displayed with rank 0, the same as an absent player, not 1.
- When a frozen map is re-uploaded, the new record takes the old status but not the old frozen flag. So the override lasts only until the next update of the new hash (`FrozenOverrideLastsOneUpdate`).
- The `LIMIT 25397` in `calc_bonus` applies to the single row of `COUNT(*)`, not to the count. The bonus count is therefore not capped.
- Concurrent resolutions of the same hash are not deduplicated. `UPDATED_CACHE` is filled only after an update that changed the hash has finished.

## Model

| member | source | states |
|---|---|---|
| Enums.StatusFromCode | models/beatmap.py:79 | `RankedStatus(code)` succeeds exactly for codes -1..5 and yields the status whose code it was given |
| Enums.ModeFromCode | models/beatmap.py:82 | `Mode(code)` succeeds exactly for codes 0..7 and yields the mode whose code it was given |
| Enums.ScoreStatusFromCode | models/score.py:89 | `ScoreStatus(code)` succeeds exactly for codes 0..3 and yields the status whose code it was given |
| Enums.StatusCodeRoundTrip | models/beatmap.py:53 | the ranked code written by `db_dict` reads back as the same status |
| Enums.ModeCodeRoundTrip | models/beatmap.py:56 | the mode code written by `db_dict` reads back as the same mode |
| Enums.ScoreStatusCodeRoundTrip | models/score.py:64 | the completion code written by `db_dict` reads back as the same status |
| BeatmapModel.DbDict | models/beatmap.py:46-70 | the row has exactly the 21 beatmap columns; `ranked` holds the status code and `ranked_status_freezed` the frozen flag |
| BeatmapModel.FromDict | models/beatmap.py:72-96 | decoding succeeds exactly when every column is present, well typed and the status and mode codes are known; the hash, id, status code and frozen flag come from their columns |
| BeatmapModel.FromDictDbDict | models/beatmap.py:46-96 | decoding the row a beatmap writes gives back that beatmap, every field included |
| BeatmapModel.CellFromDict | models/beatmap.py:72-96 | every column of a decodable row is what the decoded beatmap writes back under it |
| BeatmapModel.DbDictFromDict | models/beatmap.py:46-96 | a decodable row with exactly the 21 columns is rebuilt unchanged by decoding and writing back |
| BeatmapModel.DbDictMatchesSaveColumns | usecases/beatmap.py:114-124 | the `REPLACE INTO` column list has 21 entries and names exactly the keys of `db_dict` |
| BeatmapModel.Defaults | models/beatmap.py:34-40 | a beatmap built without the optional fields has last update 0, max combo 0, bpm 0, empty file name, not frozen and no rating |
| BeatmapModel.GivesPp | models/beatmap.py:42-44 | a map gives pp exactly when its stored status code is 2 or 3 (ranked or approved); a loved map gives none |
| BeatmapModel.SaveColumnNames | usecases/beatmap.py:117-121 | position by position, the columns saved are the ones the `REPLACE INTO` statement names, so each bound parameter lands in its own column |
| BeatmapModel.ColumnNamesDistinct | models/beatmap.py:48-96 | no two beatmap columns share a name, so a row keyed by column holds exactly what the name-keyed dictionary holds |
| Numerals.NatToStringDigits | usecases/stats.py:148 | `str(n)` of a natural is a non-empty string of digits denoting n |
| Numerals.ParseIntToString | models/score.py:87 | `int(str(n)) == n` for every integer |
| Numerals.IntToStringInjective | usecases/stats.py:148 | distinct user ids give distinct sorted-set members |
| ScoreModel.DbDict | models/score.py:47-69 | the row has exactly the 18 written columns and never the id |
| ScoreModel.FromDict | models/score.py:71-96 | decoding succeeds exactly when the columns read are present and valid; star rating is 0, time is `int()` of the column, passed iff completed > FAILED, quit iff completed == QUIT |
| ScoreModel.FlagsFollowStatus | models/score.py:94-95 | a decoded score passed exactly when it is submitted or best, quit exactly when its status is QUIT, and never both |
| ScoreModel.FromDictDefaults | models/score.py:41-45 | a decoded score has time elapsed 0, rank 0, no old best and no patcher, so the row it writes has `patcher` false |
| ScoreModel.RoundTripKeepsColumns | models/score.py:47-96 | decoding and writing back keeps every written column except time and play mode, which come back as `int(time)` and `as_vn(from_lb(play_mode, mods))` |
| ScoreModel.TimeTextRoundTrip | models/score.py:87 | a time stored as decimal text is read back as the integer it denotes |
| ScoreModel.Truncate | models/score.py:87 | `int()` of a float truncates toward zero: the result is within 1 of the float, on the side of zero |
| ScoreModel.TimeFloatTruncates | models/score.py:87 | a time stored as a float is read back truncated toward zero |
| ScoreModel.ColumnNamesDistinct | models/score.py:48-96 | no two score columns share a name, so a row keyed by column holds exactly what the name-keyed dictionary holds |
| ScoreModel.DbColumnNames | models/score.py:48-69 | the columns written are named exactly as the 18 keys `db_dict` emits |
| OsuApi.StripIgnored | usecases/beatmap.py:195-199 | no ignored character is left in a song name |
| OsuApi.StripIgnoredKeepsOthers | usecases/beatmap.py:175 | every other character keeps its number of occurrences |
| OsuApi.StripIgnoredKeepsCleanNames | usecases/beatmap.py:195-199 | a name without ignored characters is unchanged |
| OsuApi.ToBeatmap | usecases/beatmap.py:187-245 | a beatmap built from a record has a song name free of ignored characters, no plays and no passes, the record's hash and id, and the current time |
| OsuApi.Parse | usecases/beatmap.py:180-248 | one beatmap per record; when the caller passes `frozen`, every parsed beatmap is frozen |
| OsuApi.ParsedPpMapsAreFrozen | usecases/beatmap.py:177-210 | every parsed beatmap that awards pp is frozen, since its own status freezes it |
| OsuApi.ParseElements | usecases/beatmap.py:180-248 | one beatmap per record, in order; element i is frozen exactly when the caller's flag was set or some record up to i has a ranked, approved or loved status |
| OsuApi.ParsedFields | usecases/beatmap.py:186-246 | parsed beatmaps have clean song names, no plays or passes, max combo 0 when missing, the record's hash, id, set id and converted status, and the current time |
| OsuApi.ParseFromOsuApi | usecases/beatmap.py:180-248 | the parse loop, with the frozen flag carried across iterations, yields exactly the recursive definition |
| OsuApi.FirstWithKeyIsFirst | usecases/beatmap.py:146-148 | the selection yields the element at the first matching position, and None exactly when no element matches |
| OsuApi.FindFirst | usecases/beatmap.py:170-172 | the selection loop yields the first match |
| BeatmapResolver.UpsertAllCovers | usecases/beatmap.py:143-144 | after the save loop every parsed hash has a row |
| BeatmapResolver.UpsertAllLastWins | usecases/beatmap.py:114-124 | the row under a hash is the one of the last saved beatmap with that hash |
| BeatmapResolver.UpsertAllKeepsOthers | usecases/beatmap.py:114-124 | rows under hashes not saved are untouched |
| BeatmapResolver.UpsertAllDecodable | usecases/beatmap.py:114-124 | saving keeps every row decodable and filed under its own hash |
| BeatmapResolver.DeleteMap | usecases/beatmap.py:34-43 | the map's row is gone and every other row stays; no score row under the hash remains in any score table, and every other score row stays; the caches are untouched; consistent tables stay consistent |
| BeatmapResolver.Md5FromApiSpec | usecases/beatmap.py:127-148 | only the `beatmaps` table changes and it stays consistent; a returned beatmap has the hash asked for and a row under it |
| BeatmapResolver.IdFromApiSpec | usecases/beatmap.py:151-172 | only the `beatmaps` table changes and it stays consistent; a returned beatmap has the id asked for and a row under its hash |
| BeatmapResolver.UpdateSpec | usecases/beatmap.py:19-71 | the negative cache never changes; a None result means the map's row is gone and the hash cache is untouched; an updated map carries the current time and is cached under its hash |
| BeatmapResolver.AdoptSpec | usecases/beatmap.py:30-71 | the adopted record has the API's hash and the current time, is cached under that hash, and the negative cache is untouched |
| BeatmapResolver.DatabaseSpec | usecases/beatmap.py:98-108 | a hash with no row changes nothing and yields None; the negative cache never changes |
| BeatmapResolver.FetchSpec | usecases/beatmap.py:74-91 | every lookup ends with the hash either in the negative cache (result None) or in the hash cache under the returned beatmap |
| BeatmapResolver.Md5LookupSavesAndSelects | usecases/beatmap.py:127-148 | `md5_from_api` saves every parsed record, changes nothing else, and returns the first record with the asked hash, None when none has it |
| BeatmapResolver.IdLookupSavesAndSelects | usecases/beatmap.py:151-172 | `id_from_api` saves every parsed record, changes nothing else, and returns the first record with the asked id, None when none has it |
| BeatmapResolver.FetchUnsubmitted | usecases/beatmap.py:75-76 | a hash in the negative cache resolves to None and changes nothing |
| BeatmapResolver.FetchMissIsRemembered | usecases/beatmap.py:86-91 | a hash missed everywhere resolves to None, joins the negative cache, and any later lookup of it returns None without touching anything |
| BeatmapResolver.UpdateReplacesResubmittedMap | usecases/beatmap.py:30-49 | on a new hash the old hash leaves the hash cache and the tables, score rows under it leave all three score tables while others stay, the status is kept exactly when the old map was frozen, and the record is cached under the old hash |
| BeatmapResolver.UpdateKeepsSameMap | usecases/beatmap.py:65-71 | on the same hash the API record is returned with its own status and the current time, cached and saved, and no row is deleted |
| BeatmapResolver.FrozenOverrideLastsOneUpdate | usecases/beatmap.py:45-47 | the override copies the status but not the frozen flag, so a later update confirming the new hash takes the API's status |
| BeatmapResolver.UpdateDropsUnsubmittedMap | usecases/beatmap.py:50-63 | when the API no longer has the id, the map's row and its score rows are deleted, the caches are untouched and the result is None |
| BeatmapResolver.FetchFallsThroughAfterDrop | usecases/beatmap.py:81-91 | a stored map the API dropped is looked up by hash at the API next, from the state the deletion left |
| BeatmapResolver.FetchAfterResubmissionCachesBothHashes | usecases/beatmap.py:78-84 | a database hit moved from hash A to B leaves the new record under B and A in the hash cache and under A in the updated cache |
| BeatmapResolver.Resolver.constructor | usecases/beatmap.py:14-16 | the caches start empty in front of consistent tables |
| BeatmapResolver.Resolver.Save | usecases/beatmap.py:114-124 | `save` replaces the row under the beatmap's hash and keeps the tables consistent |
| BeatmapResolver.Resolver.SaveAll | usecases/beatmap.py:143-144 | the save loop upserts every parsed beatmap in order |
| BeatmapResolver.Resolver.DeleteMapRows | usecases/beatmap.py:34-43 | the deletion removes the beatmap row and the score rows of the hash in each of the three tables |
| BeatmapResolver.Resolver.IdFromApi | usecases/beatmap.py:151-172 | `id_from_api` has exactly the effect and result of its specification |
| BeatmapResolver.Resolver.Md5FromApi | usecases/beatmap.py:127-148 | `md5_from_api` has exactly the effect and result of its specification |
| BeatmapResolver.Resolver.UpdateBeatmap | usecases/beatmap.py:19-71 | `update_beatmap` has exactly the effect and result of its specification |
| BeatmapResolver.Resolver.Adopt | usecases/beatmap.py:30-71 | the tail of `update_beatmap` after the API found the map has exactly the effect and result of its specification |
| BeatmapResolver.Resolver.Md5FromDatabase | usecases/beatmap.py:98-108 | `md5_from_database` decodes the stored row and updates it, as specified |
| BeatmapResolver.Resolver.FetchByMd5 | usecases/beatmap.py:74-95 | `fetch_by_md5` has exactly the effect and result of its specification |
| Countries.CountryFor | usecases/countries.py:12-26 | the answer is never empty when the memo holds no empty value |
| Countries.MemoHitIgnoresDatabase | usecases/countries.py:13-14 | a memo hit answers the same whatever the database holds |
| Countries.FalsyCountryIsUnknown | usecases/countries.py:21-23 | a missing or empty country becomes "XX" |
| Countries.SecondLookupAgrees | usecases/countries.py:13-26 | a second lookup of a user returns the first answer, even if the database changed |
| Countries.CountryCache.constructor | usecases/countries.py:8 | the memo starts empty |
| Countries.CountryCache.GetCountry | usecases/countries.py:12-26 | the answer is non-empty and recorded under the user; no other entry changes; a memo hit changes nothing |
| PlayerStats.DisplayRank | usecases/stats.py:58-65 | a displayed rank is never negative and never 1; it is 0 exactly for an absent member and for the top member |
| PlayerStats.DisplayRankCases | usecases/stats.py:58-65 | absent and top members display 0, the others their position plus one |
| PlayerStats.Lower | usecases/stats.py:62 | lower-casing keeps the length and lower-cases each character |
| PlayerStats.GlobalKey | usecases/stats.py:55 | every global set key lies in the `ripple:` namespace |
| PlayerStats.CountryKey | usecases/stats.py:62 | a country key is its mode's global key followed by `:` and as many characters as the country has |
| PlayerStats.CountryKeysAreDistinct | usecases/stats.py:55-62 | a country set is never the global set, and two countries share a set exactly when they agree lower-cased |
| PlayerStats.RevRank | usecases/stats.py:54-57 | a reverse rank exists exactly when the set exists and holds the member |
| PlayerStats.TopOfSet | usecases/stats.py:54-58 | reverse rank 0 means no member is ahead |
| PlayerStats.ZAdded | usecases/stats.py:146-155 | after an add the member is in the keyed set with the new score; the other members keep their scores, and no member is added but this one |
| PlayerStats.ZAddedRanks | usecases/stats.py:146-149 | after an add the member is ranked in that set, other sets are untouched, and a strictly highest score is at position 0 and displayed as 0 |
| PlayerStats.RankStore.constructor | usecases/stats.py:146-155 | the store starts with the given sorted sets |
| PlayerStats.RankStore.ZAdd | usecases/stats.py:146-149 | the add sets the member's score in the keyed set |
| PlayerStats.Saved | usecases/stats.py:108-140 | `save` keeps the set of players with a row |
| PlayerStats.SavedRows | usecases/stats.py:108-140 | after `save` the player's row holds the saved values if it existed, nothing is added otherwise, and other rows stay |
| PlayerStats.Stats.constructor | usecases/stats.py:31-45 | a record holds the row's values and the given ranks |
| PlayerStats.GetRedisRank | usecases/stats.py:53-67 | both ranks are display ranks of the member in the global set and in the set of the cached country |
| PlayerStats.Fetch | usecases/stats.py:13-45 | no record and no rank lookup iff the player has no row; otherwise a new record with the row's values and the display ranks |
| PlayerStats.UpdateRank | usecases/stats.py:143-157 | the pp goes into the global set and the country set under `str(user_id)`, and the ranks are read back from those two sets, where the player is now present |
| PlayerStats.PowBounds | usecases/stats.py:89 | powers of 0.95 are in (0, 1] and below 1 from the first on, so the normaliser never divides by zero |
| PlayerStats.PowDecreasing | usecases/stats.py:105 | larger exponents give smaller powers |
| PlayerStats.WeightedSumBounds | usecases/stats.py:83-87 | a decayed sum of values in [lo, hi] lies within lo and hi times the total weight |
| PlayerStats.DecaySums | usecases/stats.py:79-87 | the loop computes both decayed sums, and `last_idx` is n-1 for n scores and 0 for none |
| PlayerStats.AccuracyFormula | usecases/stats.py:89 | the scaling by 100 and back cancels: the stored accuracy is the decayed sum over the positive total weight of `last_idx + 1` scores |
| PlayerStats.NormalisedAccuracy | usecases/stats.py:79-89 | with no scores the accuracy is 0; otherwise it is the decayed accuracy sum over the total weight of the n scores |
| PlayerStats.AccuracyIsWeightedAverage | usecases/stats.py:89 | the stored accuracy lies between the lowest and highest accuracy of the best scores, and is 0 with none |
| PlayerStats.Bonus | usecases/stats.py:93-105 | the bonus lies in [0, 416.6667) |
| PlayerStats.BonusBounds | usecases/stats.py:93-105 | the bonus is 0 for no scores and grows with the count |
| PlayerStats.FullRecalc | usecases/stats.py:70-90 | accuracy and pp become the normalised accuracy and the decayed pp plus the bonus; no other field changes |

## Left out

- HTTP: the API key choice, the status code check and JSON decoding (usecases/beatmap.py:128-139, 152-163) are not modelled. An empty record list stands for a failed request and for an empty answer, on which the source also returns None.
- The conversions `int()`, `float()` and `Mode()` of the API fields are treated as always succeeding. So is `round(float(bpm))`. The record type holds the converted values.
- Floating-point rounding is not modelled: floats are exact reals. The decayed sums, the accuracy formula and the bonus are computed over reals.
- Concurrency is not modelled. The fire-and-forget `asyncio.create_task` saves are sequential upserts, applied before the call returns.
- `refresh_stats` publishes a notification and has no state in the model, so it is not modelled. The same goes for logging.
- services.py, main.py, models/stats.py and the enumeration files are not part of this model.
- The SQL joins and filters of the stats queries are not modelled. Their results are inputs:
  - the best-scores list (at most 100, by pp descending);
  - the bonus count;
  - the stats row of the mode's table.
- Sorted-set members are compared character by character. Redis compares bytes, which agrees for the decimal user ids used as members.
- PlayerStats.Lower: lower-cases ASCII letters only, because Python's Unicode case mapping is not modelled.
- BeatmapResolver.Resolver.Md5FromCache is the plain lookup of `md5_from_cache` (usecases/beatmap.py:94-95). It is used by `FetchByMd5` and has no contract of its own.
- BeatmapResolver.Resolver.constructor: the tables hold only rows that `from_dict` accepts, each filed under its own hash (the `Consistent` invariant). A stored row with an unknown `ranked` or `mode` code, or a missing column, makes `from_dict` raise inside `md5_from_database` (models/beatmap.py:79, 82; usecases/beatmap.py:107), and `fetch_by_md5` propagates the error. That error path is not modelled.
- OsuApi.ApiRecord: every record has every field. A record missing a key that `parse_from_osu_api` reads raises KeyError there (usecases/beatmap.py:187-220); that error is not modelled.
- ScoreModel.FromDict: the modelled `int()` of a text time accepts only an optional `-` followed by ASCII digits. Python's `int()` also accepts a leading `+`, surrounding whitespace, single underscores between digits and non-ASCII decimal digits; such times give None here. A column of a type the record field cannot hold also gives None, where Python copies the value into the record.
- BeatmapModel.FromDict: a column of a type the record field cannot hold gives None, where Python copies the value into the record without raising.
- OsuApi.Parse: every record of one call is stamped with the same `now`, and `update_beatmap` reuses it. Python reads the clock once per record and once more in `update_beatmap`, so its timestamps may differ by the seconds that pass between readings.
