/**
 * The player statistics of usecases/stats.py: reading a stats row, turning
 * positions in the leaderboard sorted sets into displayed ranks, writing a
 * player's pp to the global and country sets, and recomputing pp and
 * accuracy from the player's best scores.
 *
 * Floating-point values are exact reals here. `Mode.redis_leaderboard` and
 * `Mode.stats_prefix` are defined outside this model and are passed in as
 * `ModeNames`.
 */
module PlayerStats {
  import opened Wrappers
  import opened Enums
  import opened Numerals
  import opened Countries

  // ---------------------------------------------------------------------
  // Displayed ranks
  // ---------------------------------------------------------------------

  /**
   * `int(r) + 1 if r else 0` on the 0-based reverse rank of the sorted set.
   * A 0 is falsy, so the player at the top of a set is shown as 0, as an
   * unranked player is.
   */
  function DisplayRank(r: Option<nat>): (d: int)
    ensures d >= 0 && d != 1
    ensures d == 0 <==> r.None? || r.value == 0
  {
    if r.Some? && r.value != 0 then r.value + 1 else 0
  }

  /**
   * An absent member and the top member both display 0, every other member
   * its position plus one; 1 is never displayed.
   */
  lemma DisplayRankCases(r: Option<nat>)
    ensures r.None? ==> DisplayRank(r) == 0
    ensures r == Some(0) ==> DisplayRank(r) == 0
    ensures r.Some? && r.value >= 1 ==> DisplayRank(r) == r.value + 1
  {
  }

  // ---------------------------------------------------------------------
  // Leaderboard keys
  // ---------------------------------------------------------------------

  /** `Mode.redis_leaderboard` and `Mode.stats_prefix`. */
  datatype ModeNames = ModeNames(leaderboard: Mode -> string, statsPrefix: Mode -> string)

  /** ASCII lower-casing of one character. */
  function LowerChar(c: char): char
  {
    if 'A' <= c <= 'Z' then (c as int + 32) as char else c
  }

  /** `str.lower()` on ASCII text. */
  function Lower(s: string): (r: string)
    ensures |r| == |s|
    ensures forall i | 0 <= i < |s| :: r[i] == LowerChar(s[i])
  {
    if s == [] then [] else [LowerChar(s[0])] + Lower(s[1..])
  }

  /** `"ripple:{leaderboard}:{stats_prefix}"`, the global set of a mode. */
  function GlobalKey(names: ModeNames, mode: Mode): (k: string)
    ensures |k| > 7 && k[..7] == "ripple:"
  {
    "ripple:" + names.leaderboard(mode) + ":" + names.statsPrefix(mode)
  }

  /** The global key followed by `":"` and the lower-cased country. */
  function CountryKey(names: ModeNames, mode: Mode, country: string): (k: string)
    ensures var g := GlobalKey(names, mode); |k| == |g| + 1 + |country| && k[..|g|] == g && k[|g|] == ':'
  {
    GlobalKey(names, mode) + ":" + Lower(country)
  }

  /**
   * A country set is never the global set of the same mode, and two
   * countries share a set exactly when they agree once lower-cased.
   */
  lemma CountryKeysAreDistinct(names: ModeNames, mode: Mode, c1: string, c2: string)
    ensures CountryKey(names, mode, c1) != GlobalKey(names, mode)
    ensures CountryKey(names, mode, c1) == CountryKey(names, mode, c2) <==> Lower(c1) == Lower(c2)
  {
    var g := GlobalKey(names, mode);
    assert |CountryKey(names, mode, c1)| > |g|;
    if CountryKey(names, mode, c1) == CountryKey(names, mode, c2) {
      assert Lower(c1) == CountryKey(names, mode, c1)[|g| + 1..];
      assert Lower(c2) == CountryKey(names, mode, c2)[|g| + 1..];
    }
  }

  // ---------------------------------------------------------------------
  // The sorted sets
  // ---------------------------------------------------------------------

  /** Lexicographic order of strings, by character code. */
  predicate LexLess(a: string, b: string)
    decreases |a|
  {
    if a == [] then b != []
    else if b == [] then false
    else if a[0] != b[0] then a[0] < b[0]
    else LexLess(a[1..], b[1..])
  }

  lemma {:induction false} LexLessIrreflexive(a: string)
    ensures !LexLess(a, a)
    decreases |a|
  {
    if a != [] {
      LexLessIrreflexive(a[1..]);
    }
  }

  /** One sorted set: member to score. */
  type SortedSet = map<string, real>

  /**
   * `m` is ahead of `x` in reverse order: a higher score, or the same score
   * and a lexicographically greater member.
   */
  predicate Ahead(z: SortedSet, m: string, x: string)
    requires m in z && x in z
  {
    z[m] > z[x] || (z[m] == z[x] && LexLess(x, m))
  }

  /** The members ahead of `x`. */
  function AheadOf(z: SortedSet, x: string): set<string>
    requires x in z
  {
    set m | m in z && Ahead(z, m, x)
  }

  /** `ZREVRANK key member`: the 0-based position in reverse order, None when absent. */
  function RevRank(sets: map<string, SortedSet>, key: string, member: string): (r: Option<nat>)
    ensures r.Some? <==> key in sets && member in sets[key]
  {
    if key in sets && member in sets[key] then Some(|AheadOf(sets[key], member)|) else None
  }

  /** A member is at position 0 exactly when no member is ahead of it. */
  lemma TopOfSet(sets: map<string, SortedSet>, key: string, member: string)
    requires key in sets && member in sets[key]
    ensures RevRank(sets, key, member) == Some(0) <==> forall m | m in sets[key] :: !Ahead(sets[key], m, member)
  {
    var above := AheadOf(sets[key], member);
    if |above| == 0 {
      forall m | m in sets[key] ensures !Ahead(sets[key], m, member) {
        assert m in above <==> Ahead(sets[key], m, member);
      }
    } else {
      var m :| m in above;
    }
  }

  /** `ZADD key {member: score}`: sets the member's score, creating the set if needed. */
  function ZAdded(sets: map<string, SortedSet>, key: string, member: string, score: real): (r: map<string, SortedSet>)
    ensures key in r && member in r[key] && r[key][member] == score
    ensures key in sets ==> r[key].Keys == sets[key].Keys + {member}
    ensures forall m | m in r[key] && m != member :: key in sets && m in sets[key] && r[key][m] == sets[key][m]
  {
    var z := if key in sets then sets[key] else map[];
    sets[key := z[member := score]]
  }

  /**
   * After an add, the member is in the set and ranked there; every other
   * set is untouched. A member whose score is above every other member's is
   * at position 0 and so displayed as 0.
   */
  lemma ZAddedRanks(sets: map<string, SortedSet>, key: string, member: string, score: real)
    ensures var s := ZAdded(sets, key, member, score);
            && RevRank(s, key, member).Some?
            && (forall k | k != key :: (k in s <==> k in sets) && (k in sets ==> s[k] == sets[k]))
            && ((forall m | m in s[key] && m != member :: s[key][m] < score) ==>
                  RevRank(s, key, member) == Some(0) && DisplayRank(RevRank(s, key, member)) == 0)
  {
    var s := ZAdded(sets, key, member, score);
    if forall m | m in s[key] && m != member :: s[key][m] < score {
      LexLessIrreflexive(member);
      TopOfSet(s, key, member);
    }
  }

  /** The sorted-set store. */
  class RankStore {
    var sets: map<string, SortedSet>

    constructor (sets: map<string, SortedSet>)
      ensures this.sets == sets
    {
      this.sets := sets;
    }

    method ZAdd(key: string, member: string, score: real)
      modifies this
      ensures sets == ZAdded(old(sets), key, member, score)
    {
      var z := if key in sets then sets[key] else map[];
      sets := sets[key := z[member := score]];
    }
  }

  // ---------------------------------------------------------------------
  // The stats record
  // ---------------------------------------------------------------------

  /** The columns `fetch` reads and `save` writes, under the mode's prefix. */
  datatype StatsRow = StatsRow(
    rankedScore: int,
    totalScore: int,
    pp: real,
    accuracy: real,
    playcount: int,
    playtime: int,
    maxCombo: int,
    totalHits: int,
    replaysWatched: int)

  /** A player's statistics in one mode; models/stats.py is not part of this model. */
  class Stats {
    const userId: int
    const mode: Mode
    var rankedScore: int
    var totalScore: int
    var pp: real
    var rank: int
    var countryRank: int
    var accuracy: real
    var playcount: int
    var playtime: int
    var maxCombo: int
    var totalHits: int
    var replaysWatched: int

    constructor (userId: int, mode: Mode, row: StatsRow, rank: int, countryRank: int)
      ensures this.userId == userId && this.mode == mode
      ensures Row() == row && this.rank == rank && this.countryRank == countryRank
    {
      this.userId := userId;
      this.mode := mode;
      this.rankedScore := row.rankedScore;
      this.totalScore := row.totalScore;
      this.pp := row.pp;
      this.rank := rank;
      this.countryRank := countryRank;
      this.accuracy := row.accuracy;
      this.playcount := row.playcount;
      this.playtime := row.playtime;
      this.maxCombo := row.maxCombo;
      this.totalHits := row.totalHits;
      this.replaysWatched := row.replaysWatched;
    }

    /** The values `save` binds to the columns it updates. */
    function Row(): StatsRow
      reads this
    {
      StatsRow(rankedScore, totalScore, pp, accuracy, playcount, playtime, maxCombo, totalHits, replaysWatched)
    }
  }

  /**
   * `save(stats)` on the rows of the mode's table: an `UPDATE ... WHERE id`,
   * which changes nothing when the player has no row.
   */
  function Saved(table: map<int, StatsRow>, userId: int, row: StatsRow): (t: map<int, StatsRow>)
    ensures t.Keys == table.Keys
  {
    if userId in table then table[userId := row] else table
  }

  /**
   * After a save, the player's row holds the saved values if the player had
   * a row, and every other player's row is as before.
   */
  lemma SavedRows(table: map<int, StatsRow>, userId: int, row: StatsRow)
    ensures userId in table ==> Saved(table, userId, row)[userId] == row
    ensures userId !in table ==> Saved(table, userId, row) == table
    ensures forall u | u in table && u != userId :: Saved(table, userId, row)[u] == table[u]
  {
  }

  // ---------------------------------------------------------------------
  // Reading and writing ranks
  // ---------------------------------------------------------------------

  /**
   * `get_redis_rank(userId, mode)`: the displayed ranks in the global set and
   * in the set of the player's country; the country lookup may fill the
   * country cache.
   */
  method GetRedisRank(store: RankStore, cache: CountryCache, names: ModeNames, userId: int, mode: Mode)
    returns (globalRank: int, countryRank: int)
    requires cache.Valid()
    modifies cache
    ensures cache.Valid()
    ensures var c := CountryFor(old(cache.countries), cache.usersStats, userId);
            && cache.countries == old(cache.countries)[userId := c]
            && globalRank == DisplayRank(RevRank(store.sets, GlobalKey(names, mode), IntToString(userId)))
            && countryRank == DisplayRank(RevRank(store.sets, CountryKey(names, mode, c), IntToString(userId)))
  {
    var member := IntToString(userId);
    globalRank := DisplayRank(RevRank(store.sets, GlobalKey(names, mode), member));
    var country := cache.GetCountry(userId);
    countryRank := DisplayRank(RevRank(store.sets, CountryKey(names, mode, country), member));
  }

  /**
   * `fetch(userId, mode)` given the rows of the mode's stats table: no
   * record and no rank lookup when the player has no row, otherwise a new
   * record holding the row's values and the displayed ranks.
   */
  method Fetch(table: map<int, StatsRow>, store: RankStore, cache: CountryCache, names: ModeNames,
               userId: int, mode: Mode)
    returns (s: Stats?)
    requires cache.Valid()
    modifies cache
    ensures cache.Valid()
    ensures s == null <==> userId !in table
    ensures s == null ==> cache.countries == old(cache.countries)
    ensures s != null ==>
      var c := CountryFor(old(cache.countries), cache.usersStats, userId);
      && fresh(s)
      && s.userId == userId && s.mode == mode && s.Row() == table[userId]
      && s.rank == DisplayRank(RevRank(store.sets, GlobalKey(names, mode), IntToString(userId)))
      && s.countryRank == DisplayRank(RevRank(store.sets, CountryKey(names, mode, c), IntToString(userId)))
  {
    if userId !in table {
      return null;
    }
    var globalRank, countryRank := GetRedisRank(store, cache, names, userId, mode);
    s := new Stats(userId, mode, table[userId], globalRank, countryRank);
  }

  /**
   * `update_rank(stats)`: the player's pp goes into the global set and into
   * the set of the player's country, under the decimal text of the user id;
   * the ranks are then read back from the same two sets, where the player
   * is now present, so a displayed 0 means the top of the set.
   */
  method UpdateRank(stats: Stats, store: RankStore, cache: CountryCache, names: ModeNames)
    requires cache.Valid()
    modifies stats, store, cache
    ensures cache.Valid()
    ensures var c := CountryFor(old(cache.countries), cache.usersStats, stats.userId);
            var member := IntToString(stats.userId);
            var gk := GlobalKey(names, stats.mode);
            var ck := CountryKey(names, stats.mode, c);
            && cache.countries == old(cache.countries)[stats.userId := c]
            && store.sets == ZAdded(ZAdded(old(store.sets), gk, member, stats.pp), ck, member, stats.pp)
            && RevRank(store.sets, gk, member).Some? && RevRank(store.sets, ck, member).Some?
            && stats.rank == DisplayRank(RevRank(store.sets, gk, member))
            && stats.countryRank == DisplayRank(RevRank(store.sets, ck, member))
    ensures stats.Row() == old(stats.Row())
  {
    var member := IntToString(stats.userId);
    var gk := GlobalKey(names, stats.mode);
    store.ZAdd(gk, member, stats.pp);
    var country := cache.GetCountry(stats.userId);
    var ck := CountryKey(names, stats.mode, country);
    store.ZAdd(ck, member, stats.pp);
    stats.rank, stats.countryRank := GetRedisRank(store, cache, names, stats.userId, stats.mode);
  }

  // ---------------------------------------------------------------------
  // Recomputing pp and accuracy
  // ---------------------------------------------------------------------

  /** One row of the best-scores query: its accuracy and its pp. */
  datatype TopScore = TopScore(accuracy: real, pp: real)

  /** The decay factor between consecutive best scores. */
  const Decay: real := 0.95

  function Pow(x: real, n: nat): real
  {
    if n == 0 then 1.0 else x * Pow(x, n - 1)
  }

  /** Powers of a factor strictly between 0 and 1 lie in (0, 1], and below 1 from the first on. */
  lemma {:induction false} PowBounds(x: real, n: nat)
    requires 0.0 < x < 1.0
    ensures 0.0 < Pow(x, n) <= 1.0
    ensures n >= 1 ==> Pow(x, n) < 1.0 && Pow(x, n) <= Pow(x, n - 1)
  {
    if n > 0 {
      PowBounds(x, n - 1);
      assert x * Pow(x, n - 1) <= Pow(x, n - 1);
    }
  }

  /** Multiplying by a non-negative factor keeps an order. */
  lemma MulMonotone(a: real, b: real, c: real)
    requires a <= b && 0.0 <= c
    ensures a * c <= b * c
  {
    assert b * c - a * c == (b - a) * c;
  }

  /** Larger exponents give smaller powers. */
  lemma {:induction false} PowDecreasing(x: real, m: nat, n: nat)
    requires 0.0 < x < 1.0 && m <= n
    ensures Pow(x, n) <= Pow(x, m)
    decreases n
  {
    if m < n {
      PowDecreasing(x, m, n - 1);
      PowBounds(x, n);
    }
  }

  /** The sum of `xs[i] * 0.95^i`. */
  function WeightedSum(xs: seq<real>): real
    decreases |xs|
  {
    if xs == [] then 0.0 else WeightedSum(xs[..|xs| - 1]) + xs[|xs| - 1] * Pow(Decay, |xs| - 1)
  }

  /** The sum of `0.95^i` over the first n positions, times 20: the weight a uniform list gets. */
  function TotalWeight(n: nat): real
  {
    20.0 * (1.0 - Pow(Decay, n))
  }

  /** One more term keeps a weighted sum between its bounds. */
  lemma StepBounds(lo: real, hi: real, w: real, s: real, x: real, p: real)
    requires lo * w <= s <= hi * w && lo <= x <= hi && 0.0 <= p
    ensures lo * (w + p) <= s + x * p <= hi * (w + p)
  {
    MulMonotone(lo, x, p);
    MulMonotone(x, hi, p);
    assert lo * (w + p) == lo * w + lo * p;
    assert hi * (w + p) == hi * w + hi * p;
  }

  /**
   * A weighted sum of values between `lo` and `hi` lies between `lo` and `hi`
   * times the total weight.
   */
  lemma {:induction false} WeightedSumBounds(xs: seq<real>, lo: real, hi: real)
    requires forall i | 0 <= i < |xs| :: lo <= xs[i] <= hi
    ensures lo * TotalWeight(|xs|) <= WeightedSum(xs) <= hi * TotalWeight(|xs|)
    decreases |xs|
  {
    if xs != [] {
      var n := |xs| - 1;
      var p := Pow(Decay, n);
      var init := xs[..n];
      assert forall i | 0 <= i < |init| :: init[i] == xs[i];
      WeightedSumBounds(init, lo, hi);
      PowBounds(Decay, n);
      assert Pow(Decay, n + 1) == Decay * p;
      assert TotalWeight(n + 1) == TotalWeight(n) + p;
      assert WeightedSum(xs) == WeightedSum(init) + xs[n] * p;
      StepBounds(lo, hi, TotalWeight(n), WeightedSum(init), xs[n], p);
    }
  }

  function Pps(scores: seq<TopScore>): (r: seq<real>)
    ensures |r| == |scores| && forall i | 0 <= i < |scores| :: r[i] == scores[i].pp
  {
    seq(|scores|, i requires 0 <= i < |scores| => scores[i].pp)
  }

  function Accs(scores: seq<TopScore>): (r: seq<real>)
    ensures |r| == |scores| && forall i | 0 <= i < |scores| :: r[i] == scores[i].accuracy
  {
    seq(|scores|, i requires 0 <= i < |scores| => scores[i].accuracy)
  }

  /** The loop of `full_recalc`: both decayed sums, and the index of the last score seen. */
  method DecaySums(scores: seq<TopScore>) returns (totalPp: real, totalAcc: real, lastIdx: nat)
    ensures totalPp == WeightedSum(Pps(scores))
    ensures totalAcc == WeightedSum(Accs(scores))
    ensures lastIdx == if |scores| == 0 then 0 else |scores| - 1
    ensures lastIdx + 1 == if |scores| == 0 then 1 else |scores|
  {
    totalPp, totalAcc, lastIdx := 0.0, 0.0, 0;
    var idx := 0;
    while idx < |scores|
      invariant 0 <= idx <= |scores|
      invariant totalPp == WeightedSum(Pps(scores)[..idx])
      invariant totalAcc == WeightedSum(Accs(scores)[..idx])
      invariant lastIdx == if idx == 0 then 0 else idx - 1
    {
      assert Pps(scores)[..idx + 1][..idx] == Pps(scores)[..idx];
      assert Accs(scores)[..idx + 1][..idx] == Accs(scores)[..idx];
      totalPp := totalPp + scores[idx].pp * Pow(Decay, idx);
      totalAcc := totalAcc + scores[idx].accuracy * Pow(Decay, idx);
      lastIdx := idx;
      idx := idx + 1;
    }
    assert Pps(scores)[..idx] == Pps(scores);
    assert Accs(scores)[..idx] == Accs(scores);
  }

  /**
   * The accuracy `full_recalc` stores from the decayed accuracy sum and the
   * last index: the sum over the total weight of `lastIdx + 1` scores,
   * written as the source scales it by 100 and back.
   */
  function AccuracyFormula(totalAcc: real, lastIdx: nat): (acc: real)
    ensures TotalWeight(lastIdx + 1) > 0.0
    ensures acc == totalAcc / TotalWeight(lastIdx + 1)
  {
    PowBounds(Decay, lastIdx + 1);
    ScaledDivision(totalAcc, TotalWeight(lastIdx + 1));
    (totalAcc * (100.0 / (20.0 * (1.0 - Pow(Decay, lastIdx + 1))))) / 100.0
  }

  /** The stored accuracy for a list of best scores: normalised by max(n, 1) scores. */
  function NormalisedAccuracy(scores: seq<TopScore>): (acc: real)
    ensures |scores| == 0 ==> acc == 0.0
    ensures |scores| > 0 ==> TotalWeight(|scores|) > 0.0 && acc == WeightedSum(Accs(scores)) / TotalWeight(|scores|)
  {
    AccuracyFormula(WeightedSum(Accs(scores)), if |scores| == 0 then 0 else |scores| - 1)
  }

  /** The scaling by 100 and back is a plain division. */
  lemma ScaledDivision(s: real, w: real)
    requires w > 0.0
    ensures (s * (100.0 / w)) / 100.0 == s / w
  {
  }

  /** Dividing bounds by a positive weight. */
  lemma DivideBounds(lo: real, hi: real, s: real, w: real)
    requires w > 0.0 && lo * w <= s <= hi * w
    ensures lo <= s / w <= hi
  {
    assert (s / w) * w == s;
    if s / w < lo {
      MulMonotone(s / w, lo, w);
    }
    if s / w > hi {
      MulMonotone(hi, s / w, w);
    }
  }

  /**
   * The stored accuracy is a weighted average: when every best score's
   * accuracy lies between `lo` and `hi`, so does the result; with no scores
   * it is 0.
   */
  lemma AccuracyIsWeightedAverage(scores: seq<TopScore>, lo: real, hi: real)
    requires forall i | 0 <= i < |scores| :: lo <= scores[i].accuracy <= hi
    ensures |scores| == 0 ==> NormalisedAccuracy(scores) == 0.0
    ensures |scores| > 0 ==> lo <= NormalisedAccuracy(scores) <= hi
  {
    var n := |scores|;
    if n > 0 {
      var xs := Accs(scores);
      var w := TotalWeight(n);
      WeightedSumBounds(xs, lo, hi);
      PowBounds(Decay, n);
      var s := WeightedSum(xs);
      assert 20.0 * (1.0 - Pow(Decay, n)) == w;
      ScaledDivision(s, w);
      assert NormalisedAccuracy(scores) == s / w;
      DivideBounds(lo, hi, s, w);
    }
  }

  /** `calc_bonus` given the count of the player's best scores on ranked maps. */
  function Bonus(count: nat): (bonus: real)
    ensures 0.0 <= bonus < 416.6667
  {
    PowBounds(0.9994, count);
    416.6667 * (1.0 - Pow(0.9994, count))
  }

  /**
   * The bonus is 0 for no scores, grows with the count, and stays below
   * 416.6667.
   */
  lemma BonusBounds(count: nat, more: nat)
    requires count <= more
    ensures Bonus(0) == 0.0
    ensures Bonus(count) <= Bonus(more)
  {
    PowBounds(0.9994, count);
    PowDecreasing(0.9994, count, more);
  }

  /**
   * `full_recalc(stats)` given the rows of the best-scores query (at most
   * 100, by pp descending) and the count `calc_bonus` reads: accuracy and pp
   * are recomputed, nothing else changes.
   */
  method FullRecalc(stats: Stats, scores: seq<TopScore>, count: nat)
    modifies stats
    ensures stats.accuracy == NormalisedAccuracy(scores)
    ensures stats.pp == WeightedSum(Pps(scores)) + Bonus(count)
    ensures stats.rankedScore == old(stats.rankedScore) && stats.totalScore == old(stats.totalScore)
    ensures stats.playcount == old(stats.playcount) && stats.playtime == old(stats.playtime)
    ensures stats.maxCombo == old(stats.maxCombo) && stats.totalHits == old(stats.totalHits)
    ensures stats.replaysWatched == old(stats.replaysWatched)
    ensures stats.rank == old(stats.rank) && stats.countryRank == old(stats.countryRank)
  {
    var totalPp, totalAcc, lastIdx := DecaySums(scores);
    stats.accuracy := AccuracyFormula(totalAcc, lastIdx);
    stats.pp := totalPp + Bonus(count);
  }
}
