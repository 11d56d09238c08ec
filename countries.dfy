/**
 * The country cache of usecases/countries.py: a process-wide memo from
 * user id to country code in front of the `users_stats.country` column,
 * filled on first use and never invalidated.
 */
module Countries {

  /** The code recorded for a user with no country. */
  const Unknown: string := "XX"

  /**
   * The answer `get_country(userId)` gives when the memo is `memo` and the
   * `users_stats.country` column is `db`; a user missing from `db` stands
   * for a missing row or a NULL column. Every falsy database value, the
   * empty string included, becomes "XX".
   */
  function CountryFor(memo: map<int, string>, db: map<int, string>, userId: int): (c: string)
    ensures (forall k | k in memo :: memo[k] != "") ==> c != ""
  {
    if userId in memo then memo[userId]
    else if userId !in db || db[userId] == "" then Unknown
    else db[userId]
  }

  /** A memo whose values are all non-empty, as every value the cache stores is. */
  predicate NonEmptyValues(memo: map<int, string>)
  {
    forall k | k in memo :: memo[k] != ""
  }

  /**
   * A memo hit answers from the memo whatever the database holds, so the
   * database is not consulted.
   */
  lemma MemoHitIgnoresDatabase(memo: map<int, string>, db: map<int, string>, userId: int)
    requires userId in memo
    ensures forall other: map<int, string> :: CountryFor(memo, other, userId) == memo[userId]
  {
  }

  /** A user with no row, or with an empty country, is recorded as "XX". */
  lemma FalsyCountryIsUnknown(memo: map<int, string>, db: map<int, string>, userId: int)
    requires userId !in memo
    requires userId !in db || db[userId] == ""
    ensures CountryFor(memo, db, userId) == Unknown && Unknown != ""
  {
  }

  /**
   * A second lookup of the same user gives the first answer, even if the
   * database changed in between.
   */
  lemma SecondLookupAgrees(memo: map<int, string>, db: map<int, string>, later: map<int, string>, userId: int)
    ensures var c := CountryFor(memo, db, userId);
            CountryFor(memo[userId := c], later, userId) == c
  {
  }

  /** The `COUNTRIES` dictionary together with the column it caches. */
  class CountryCache {
    var countries: map<int, string>
    const usersStats: map<int, string>

    ghost predicate Valid()
      reads this
    {
      NonEmptyValues(countries)
    }

    /** An empty memo, as at process start. */
    constructor (usersStats: map<int, string>)
      ensures Valid() && countries == map[] && this.usersStats == usersStats
    {
      this.countries := map[];
      this.usersStats := usersStats;
    }

    /**
     * `get_country(userId)`: the answer is recorded under `userId` and no
     * other entry is added, changed or removed; a memo hit changes nothing.
     */
    method GetCountry(userId: int) returns (country: string)
      requires Valid()
      modifies this
      ensures Valid()
      ensures country == CountryFor(old(countries), usersStats, userId)
      ensures country != ""
      ensures countries == old(countries)[userId := country]
      ensures userId in old(countries) ==> countries == old(countries)
    {
      if userId in countries {
        return countries[userId];
      }
      if userId !in usersStats || usersStats[userId] == "" {
        countries := countries[userId := Unknown];
        return Unknown;
      }
      country := usersStats[userId];
      countries := countries[userId := country];
    }
  }
}
