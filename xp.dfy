/**
 The levelling store of cogs/xp.py: a table from user to (xp, level), the
 award a relayed message earns, and the read-only `xp` query.
 */
module Xp {
  import opened Platform

  /** One row of the `xp` table. */
  datatype XpRecord = XpRecord(xp: int, level: int)

  /** What one award produces: the record to write and whether the level rose. */
  datatype Awarded = Awarded(record: XpRecord, leveledUp: bool)

  /** Points per relayed message: a constant, independent of the message text. */
  const XpPerRelay: int := 10

  /** The xp at which a user of the given level moves to the next one. */
  function Threshold(level: int): (t: int)
  {
    100 * level
  }

  /** The column defaults of the table: what a user without a row has. */
  const Default: XpRecord := XpRecord(0, 1)

  /** Every stored record has a non-negative xp and a level of at least 1. */
  predicate WellFormed(records: map<UserId, XpRecord>)
  {
    forall u :: u in records ==> records[u].xp >= 0 && records[u].level >= 1
  }

  /** The `SELECT xp, level ... WHERE user_id = ?` row, if any. */
  function Load(records: map<UserId, XpRecord>, user: UserId): (row: Option<XpRecord>)
  {
    if user in records then Some(records[user]) else None
  }

  /** The `xp` command: the stored pair, or (0, 1) for a user without a row. */
  function Query(records: map<UserId, XpRecord>, user: UserId): (r: XpRecord)
    ensures user !in records ==> r == XpRecord(0, 1)
    ensures user in records ==> r == records[user]
    ensures WellFormed(records) ==> r.xp >= 0 && r.level >= 1
  {
    match Load(records, user)
    case Some(row) => row
    case None => Default
  }

  /**
   The award rule of add_xp on the loaded row: a user without a row starts at
   (10, 1), otherwise 10 is added; then at most one level is gained, when the
   new xp reaches the threshold of the level held before the award.  The
   contract is stated against the query's view of the old record, so it also
   says that the two defaults of the source agree.
   */
  function Award(row: Option<XpRecord>): (a: Awarded)
    ensures row.None? ==> a.record == XpRecord(10, 1)
    ensures var before := if row.Some? then row.value else Default;
      && a.record.xp == before.xp + XpPerRelay
      && (a.leveledUp <==> a.record.xp >= Threshold(before.level))
      && a.record.level == (if a.leveledUp then before.level + 1 else before.level)
  {
    var (xp, level) := if row.Some? then (row.value.xp + 10, row.value.level) else (10, 1);
    if xp >= Threshold(level) then Awarded(XpRecord(xp, level + 1), true)
    else Awarded(XpRecord(xp, level), false)
  }

  /** The table after one award to `user` under the corrected rule (the write is kept on a level-up). */
  function AwardedRecords(records: map<UserId, XpRecord>, user: UserId): (r: map<UserId, XpRecord>)
    ensures r.Keys == records.Keys + {user}
    ensures forall v :: v != user ==> Load(r, v) == Load(records, v)
    ensures Query(r, user).xp == Query(records, user).xp + XpPerRelay
    ensures Query(records, user).level <= Query(r, user).level <= Query(records, user).level + 1
    ensures WellFormed(records) ==> WellFormed(r)
  {
    records[user := Award(Load(records, user)).record]
  }

  /**
   The notification an award under the corrected rule emits into `channel`:
   one exactly on a level-up.  As written, the source never sends it (see
   AddXpAsWritten).
   */
  function LevelUpNotices(records: map<UserId, XpRecord>, user: UserId, channel: Channel): (r: seq<Effect>)
    ensures |r| <= 1
    ensures r != [] <==> Query(AwardedRecords(records, user), user).level == Query(records, user).level + 1
    ensures forall e :: e in r ==> e == LevelUpNotice(channel, user, Query(AwardedRecords(records, user), user).level)
  {
    var a := Award(Load(records, user));
    if a.leveledUp then [LevelUpNotice(channel, user, a.record.level)] else []
  }

  /** The table after a sequence of corrected awards, in order. */
  function RunAwards(records: map<UserId, XpRecord>, users: seq<UserId>): (r: map<UserId, XpRecord>)
    decreases |users|
  {
    if users == [] then records else RunAwards(AwardedRecords(records, users[0]), users[1..])
  }

  /** Any sequence of awards keeps the table well formed, and nobody's xp or level goes down. */
  lemma {:induction false} RunAwardsMonotone(records: map<UserId, XpRecord>, users: seq<UserId>)
    requires WellFormed(records)
    ensures WellFormed(RunAwards(records, users))
    ensures forall u :: u in records ==> u in RunAwards(records, users)
    ensures forall u :: u in records ==>
      && RunAwards(records, users)[u].xp >= records[u].xp
      && RunAwards(records, users)[u].level >= records[u].level
    decreases |users|
  {
    if users != [] {
      var next := AwardedRecords(records, users[0]);
      RunAwardsMonotone(next, users[1..]);
      forall u | u in records
        ensures next[u].xp >= records[u].xp && next[u].level >= records[u].level
      {
        assert Query(next, u).xp >= Query(records, u).xp;
      }
    }
  }

  /** A user who is not awarded keeps exactly the row they had. */
  lemma {:induction false} RunAwardsOthersUntouched(records: map<UserId, XpRecord>, users: seq<UserId>, v: UserId)
    requires v !in users
    ensures Load(RunAwards(records, users), v) == Load(records, v)
    decreases |users|
  {
    if users != [] {
      assert v != users[0] && v !in users[1..];
      RunAwardsOthersUntouched(AwardedRecords(records, users[0]), users[1..], v);
    }
  }

  /** `n` awards in a row to the same user. */
  function Repeat(user: UserId, n: nat): (r: seq<UserId>)
    ensures |r| == n && forall i :: 0 <= i < n ==> r[i] == user
  {
    seq(n, i => user)
  }

  /**
   Corrected behaviour: once the awards to a user add up to the threshold of
   their current level, that user has moved up a level.
   */
  lemma {:induction false} RepeatedAwardsPromote(records: map<UserId, XpRecord>, user: UserId, n: nat)
    requires WellFormed(records)
    requires n >= 1
    requires n * XpPerRelay >= Threshold(Query(records, user).level) - Query(records, user).xp
    ensures Query(RunAwards(records, Repeat(user, n)), user).level > Query(records, user).level
    decreases n
  {
    var next := AwardedRecords(records, user);
    var rest := Repeat(user, n - 1);
    assert Repeat(user, n)[0] == user && Repeat(user, n)[1..] == rest;
    assert RunAwards(records, Repeat(user, n)) == RunAwards(next, rest);
    if Award(Load(records, user)).leveledUp {
      RunAwardsMonotone(next, rest);
      assert user in next;
    } else {
      assert Query(next, user).level == Query(records, user).level;
      RepeatedAwardsPromote(next, user, n - 1);
    }
  }

  // ---------------------------------------------------------------------------
  // add_xp as written.  cogs/xp.py calls asyncio.create_task on a level-up but
  // never imports asyncio, so that call raises NameError.  It raises before the
  // REPLACE, so an award that would promote the user stores nothing at all.
  // The class below models the evidently intended behaviour instead: write the
  // new record, then emit the notification as an event.
  // ---------------------------------------------------------------------------

  /** The outcome of add_xp as written: the table it leaves, and whether it raised. */
  datatype AsWrittenOutcome = AsWrittenOutcome(records: map<UserId, XpRecord>, raised: bool)

  function AddXpAsWritten(records: map<UserId, XpRecord>, user: UserId): (o: AsWrittenOutcome)
    ensures o.raised <==> Query(AwardedRecords(records, user), user).level != Query(records, user).level
    ensures o.raised ==> o.records == records
    ensures !o.raised ==> o.records == AwardedRecords(records, user)
  {
    var a := Award(Load(records, user));
    if a.leveledUp then AsWrittenOutcome(records, true)
    else AsWrittenOutcome(records[user := a.record], false)
  }

  /** The table after a sequence of as-written awards; a raising award leaves it as it was. */
  function RunAsWritten(records: map<UserId, XpRecord>, users: seq<UserId>): (r: map<UserId, XpRecord>)
    decreases |users|
  {
    if users == [] then records else RunAsWritten(AddXpAsWritten(records, users[0]).records, users[1..])
  }

  /** Every user is still on level 1 and below its threshold. */
  predicate Stalled(records: map<UserId, XpRecord>)
  {
    forall u :: u in records ==> records[u].level == 1 && 0 <= records[u].xp < Threshold(1)
  }

  /** As written, no sequence of awards ever lifts anybody past level 1. */
  lemma {:induction false} AsWrittenNeverPromotes(records: map<UserId, XpRecord>, users: seq<UserId>)
    requires Stalled(records)
    ensures Stalled(RunAsWritten(records, users))
    decreases |users|
  {
    if users != [] {
      var o := AddXpAsWritten(records, users[0]);
      assert Stalled(o.records) by {
        if !o.raised {
          forall u | u in o.records ensures o.records[u].level == 1 && 0 <= o.records[u].xp < Threshold(1) {
            if u != users[0] {
              assert Load(o.records, u) == Load(records, u);
            }
          }
        }
      }
      AsWrittenNeverPromotes(o.records, users[1..]);
    }
  }

  /** A fresh table, run through any awards as written, still has everybody on level 1. */
  lemma AsWrittenLevelStaysOne(users: seq<UserId>, u: UserId)
    ensures u in RunAsWritten(map[], users) ==> RunAsWritten(map[], users)[u].level == 1
  {
    AsWrittenNeverPromotes(map[], users);
  }

  /** The input that shows the bug: a user at (90, 1) earns 10, which raises and saves nothing. */
  lemma AsWrittenDropsLevelUp()
    ensures var m := map["42" := XpRecord(90, 1)];
      AddXpAsWritten(m, "42") == AsWrittenOutcome(m, true)
  {
  }

  /** The same input under the corrected rule: the promotion is stored and announced. */
  lemma CorrectedKeepsLevelUp(channel: Channel)
    ensures var m := map["42" := XpRecord(90, 1)];
      && AwardedRecords(m, "42") == map["42" := XpRecord(100, 2)]
      && LevelUpNotices(m, "42", channel) == [LevelUpNotice(channel, "42", 2)]
  {
  }

  /** The cog that owns the `xp` table. */
  class XpCog {
    var records: map<UserId, XpRecord>

    ghost predicate Valid()
      reads this
    {
      WellFormed(records)
    }

    /** `CREATE TABLE IF NOT EXISTS xp`: the model starts from an empty table. */
    constructor ()
      ensures Valid() && records == map[]
    {
      records := map[];
    }

    /**
     add_xp: load the row or default it, add 10, compare with 100 * level,
     gain at most one level, write the row; on a level-up, return the
     notification for `channel`, emitted after the write (see the comment
     above AsWrittenOutcome for how this departs from the source).
     */
    method AddXp(user: UserId, channel: Channel) returns (notices: seq<Effect>)
      requires Valid()
      modifies this
      ensures Valid()
      ensures records == AwardedRecords(old(records), user)
      ensures notices == LevelUpNotices(old(records), user, channel)
    {
      var xp, level;
      if user in records {
        xp, level := records[user].xp, records[user].level;
        xp := xp + XpPerRelay;
      } else {
        xp, level := XpPerRelay, 1;
      }
      var nextLevelXp := Threshold(level);
      notices := [];
      if xp >= nextLevelXp {
        level := level + 1;
        notices := [LevelUpNotice(channel, user, level)];
      }
      records := records[user := XpRecord(xp, level)];
    }
  }
}
