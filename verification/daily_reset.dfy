/**
 * The periodic daily reset (go/smsq/main.go `periodic`, `storedMidnight`, `storeMidnight`):
 * when the current UTC midnight is later than the stored one, it is stored and every user's
 * daily counters go back to zero. The current midnight is an input.
 */
module DailyReset {
  import opened Basics
  import opened Database

  /** `storedMidnight`: a missing row reads as 0, and the read inserts that row. */
  function StoredMidnight(db: Db): (m: int)
    ensures db.midnight.Some? ==> m == db.midnight.value
    ensures db.midnight.None? ==> m == 0
  {
    db.midnight.GetOr(0)
  }

  /** `periodic` with `midnight()` returning `now`. */
  function Periodic(db: Db, now: int): (r: Db)
    ensures r.midnight.Some?
    ensures r.feedback == db.feedback
    ensures SameAccounts(db.users, r.users)
  {
    var stored := StoredMidnight(db);
    if now > stored then
      CounterUpdatesKeepAccounts(db.users, ResetToday, Everyone);
      db.(midnight := Some(now), users := Update(db.users, ResetToday, Everyone))
    else
      db.(midnight := Some(stored))
  }

  /** Every daily counter is zero. */
  predicate FreshDay(t: Table) {
    forall i :: 0 <= i < |t| ==> t[i].deliveredToday == 0 && t[i].receivedToday == 0
  }

  /**
   * The reset happens exactly when the midnight advances: then the new midnight is stored and
   * every daily counter is zero, with the totals kept; otherwise the users are untouched.
   */
  lemma PeriodicResetsIffAdvanced(db: Db, now: int)
    ensures var r := Periodic(db, now);
            && r.midnight == Some(if now > StoredMidnight(db) then now else StoredMidnight(db))
            && (now > StoredMidnight(db) ==> FreshDay(r.users))
            && (forall i :: 0 <= i < |db.users| ==> r.users[i].delivered == db.users[i].delivered)
            && (now <= StoredMidnight(db) ==> r.users == db.users)
  {
  }

  /** A second run with the same midnight changes nothing. */
  lemma PeriodicIdempotent(db: Db, now: int)
    ensures Periodic(Periodic(db, now), now) == Periodic(db, now)
  {
  }

  /** The stored midnight never goes back, whatever the clock says. */
  lemma PeriodicMonotone(db: Db, now: int)
    ensures StoredMidnight(Periodic(db, now)) >= StoredMidnight(db)
    ensures StoredMidnight(Periodic(db, now)) >= now
  {
  }

  /** A clock that goes back (or stands still) never resets the counters. */
  lemma PeriodicIgnoresEarlierMidnight(db: Db, now: int, earlier: int)
    requires earlier <= now
    ensures Periodic(Periodic(db, now), earlier).users == Periodic(db, now).users
  {
  }
}
