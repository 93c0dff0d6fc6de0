/**
 * `ButtonCooldown`: a table of the last time each user used each action.
 * A use is blocked while less than `cooldown` has passed since the recorded
 * one; an allowed use records its time. The monotonic clock is a parameter,
 * in whole ticks.
 */
module Cooldown {
  import opened Common

  type UserId = int

  /** When `user` last used `action`, if ever. */
  function LastUsed(table: map<UserId, map<string, int>>, user: UserId, action: string): Option<int> {
    if user in table && action in table[user] then Some(table[user][action]) else None
  }

  /**
   * A use at `now` is blocked iff a time is recorded, it is not 0 (a 0 reads
   * as false and counts as never used), and less than `cooldown` has passed.
   */
  function Blocked(last: Option<int>, now: int, cooldown: int): (b: bool)
    ensures last.None? || last == Some(0) ==> !b
    ensures last.Some? && last.value != 0 ==> (b <==> now - last.value < cooldown)
  {
    last.Some? && last.value != 0 && now - last.value < cooldown
  }

  /** The table after recording a use at `now`. */
  function Recorded(table: map<UserId, map<string, int>>, user: UserId, action: string, now: int): (t: map<UserId, map<string, int>>)
    ensures LastUsed(t, user, action) == Some(now)
    ensures t.Keys == table.Keys + {user}
  {
    table[user := (if user in table then table[user] else map[])[action := now]]
  }

  /** Recording a use changes no other user's or action's entry. */
  lemma RecordedKeepsOthers(table: map<UserId, map<string, int>>, user: UserId, action: string, now: int, u: UserId, a: string)
    requires u != user || a != action
    ensures LastUsed(Recorded(table, user, action, now), u, a) == LastUsed(table, u, a)
  {
  }

  class ButtonCooldown {
    var table: map<UserId, map<string, int>>

    /** `ButtonCooldown()`: nothing recorded. */
    constructor ()
      ensures table == map[]
    {
      table := map[];
    }

    /**
     * `check`: when blocked, the time still to wait and no change; otherwise
     * `None`, and the use is recorded at `now`.
     */
    method Check(user: UserId, action: string, cooldown: int, now: int) returns (remaining: Option<int>)
      modifies this
      ensures remaining.Some? <==> Blocked(LastUsed(old(table), user, action), now, cooldown)
      ensures remaining.Some? ==>
        table == old(table) && remaining.value == cooldown - (now - LastUsed(old(table), user, action).value)
      ensures remaining.None? ==> table == Recorded(old(table), user, action, now)
    {
      var row := if user in table then table[user] else map[];
      var lastUsed := if action in row then Some(row[action]) else None;
      if lastUsed.Some? && lastUsed.value != 0 && now - lastUsed.value < cooldown {
        return Some(cooldown - (now - lastUsed.value));
      }
      table := table[user := row[action := now]];
      remaining := None;
    }
  }

  /** The first use of a pair is allowed. */
  lemma FirstUseAllowed(table: map<UserId, map<string, int>>, user: UserId, action: string, now: int, cooldown: int)
    requires LastUsed(table, user, action).None?
    ensures !Blocked(LastUsed(table, user, action), now, cooldown)
  {
  }

  /** With a clock that has not gone back, the time left when blocked lies in (0, cooldown]. */
  lemma RemainingInRange(last: int, now: int, cooldown: int)
    requires Blocked(Some(last), now, cooldown) && now >= last
    ensures 0 < cooldown - (now - last) <= cooldown
  {
  }

  /**
   * Right after an allowed use at a non-zero time, a second use of the same
   * pair at the same time is blocked for the whole cooldown.
   */
  lemma ImmediateRepeatBlocked(table: map<UserId, map<string, int>>, user: UserId, action: string, now: int, cooldown: int)
    requires now != 0 && cooldown > 0
    ensures Blocked(LastUsed(Recorded(table, user, action, now), user, action), now, cooldown)
    ensures cooldown - (now - LastUsed(Recorded(table, user, action, now), user, action).value) == cooldown
  {
  }
}
