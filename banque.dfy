/** The bank cog: the `banque` balance table with its implicit opening balance,
    the append-only transaction log kept in a JSON file, the `give` command, the
    casino with its per-user cooldown, and the tail shown by `logs`.

    Times are integer seconds. Which of the three casino ranges is drawn, and the
    amount inside it, are nondeterministic choices; whether the log file could be
    read back is a parameter of each write. */
module Banque {
  import opened Collections

  const OpeningBalance: int := 1000
  const CasinoCooldown: int := 300
  const WinMin: int := 50
  const WinMax: int := 200
  const SmallLossMin: int := 10
  const SmallLossMax: int := 50
  const BigLossMin: int := 50
  const BigLossMax: int := 150

  /** An entry of `banque_logs.json`. */
  datatype LogEntry = LogEntry(timestamp: int, action: string, userId: nat, targetId: Option<nat>,
                               amount: Option<int>, success: bool)

  datatype GiveOutcome = NotPositive | Given(before: int, after: int)

  datatype CasinoOutcome = OnCooldown(minutes: int, seconds: int) | Won(amount: int) | Lost(amount: int)

  /** The balance a user has: the stored one, or the opening balance for a user
      with no account. */
  function BalanceOf(balances: map<nat, int>, user: nat): int {
    if user in balances then balances[user] else OpeningBalance
  }

  /** After `update_balance`, the user holds the old balance plus the amount (the
      opening balance plus the amount for a new account), and every other user's
      balance, stored or implicit, is unchanged. */
  lemma BalanceAfterUpdate(balances: map<nat, int>, user: nat, amount: int, other: nat)
    ensures var after := balances[user := BalanceOf(balances, user) + amount];
      && BalanceOf(after, user) == BalanceOf(balances, user) + amount
      && (user !in balances ==> BalanceOf(after, user) == OpeningBalance + amount)
      && (other != user ==> BalanceOf(after, other) == BalanceOf(balances, other))
  {
  }

  /** The cooldown message: the `300 - elapsed` seconds still to wait, as whole
      minutes and the seconds left over. */
  function CooldownRemaining(elapsed: int): (r: (int, int))
    requires elapsed < CasinoCooldown
    ensures 60 * r.0 + r.1 == CasinoCooldown - elapsed
    ensures 0 <= r.1 < 60 && r.0 >= 0
    ensures elapsed >= 0 ==> r.0 <= 5
  {
    var remaining := CasinoCooldown - elapsed;
    (remaining / 60, remaining % 60)
  }

  /** The change of balance a casino play can make: a win of 50 to 200, a small
      loss of 10 to 50 or a big loss of 50 to 150. */
  predicate CasinoDelta(delta: int) {
    (WinMin <= delta <= WinMax) || (-SmallLossMax <= delta <= -SmallLossMin) || (-BigLossMax <= delta <= -BigLossMin)
  }

  /** The log after appending `entry`: the earlier entries when the file could be
      read back, none otherwise. */
  function Appended(logs: seq<LogEntry>, entry: LogEntry, readable: bool): (r: seq<LogEntry>)
    ensures |r| >= 1 && r[|r| - 1] == entry
    ensures readable ==> r[..|r| - 1] == logs
    ensures !readable ==> r == [entry]
  {
    (if readable then logs else []) + [entry]
  }

  /** `logs[-limit:] if limit > 0 else logs`: the newest `limit` entries (all when
      there are fewer), or everything for a limit that is not positive. */
  function RecentLogs(logs: seq<LogEntry>, limit: int): (r: seq<LogEntry>)
    ensures |r| <= |logs| && r == logs[|logs| - |r|..]
    ensures limit > 0 ==> |r| == if limit < |logs| then limit else |logs|
    ensures limit <= 0 ==> r == logs
  {
    if limit > 0 && limit < |logs| then logs[|logs| - limit..] else logs
  }

  /** The entry just written is among those `logs` shows, at the end. */
  lemma RecentLogsShowsNewest(logs: seq<LogEntry>, entry: LogEntry, readable: bool, limit: int)
    ensures var r := RecentLogs(Appended(logs, entry, readable), limit);
      |r| >= 1 && r[|r| - 1] == entry
  {
  }

  /** A larger limit shows more entries, and the shorter tail is a suffix of the
      longer one. */
  lemma RecentLogsNested(logs: seq<LogEntry>, a: int, b: int)
    requires 0 < a <= b
    ensures var ra, rb := RecentLogs(logs, a), RecentLogs(logs, b);
      |ra| <= |rb| && ra == rb[|rb| - |ra|..]
  {
  }

  /** The draw of a casino play. `random.random()` is taken in tenths: below 0.4
      wins 50 to 200, below 0.7 loses 10 to 50, otherwise loses 50 to 150. */
  method Draw() returns (outcome: CasinoOutcome)
    ensures outcome.Won? ==> WinMin <= outcome.amount <= WinMax
    ensures outcome.Lost? ==> SmallLossMin <= outcome.amount <= BigLossMax
    ensures outcome.Won? || outcome.Lost?
  {
    var chance: int :| 0 <= chance < 10;
    if chance < 4 {
      var win: int :| WinMin <= win <= WinMax;
      outcome := Won(win);
    } else if chance < 7 {
      var lose: int :| SmallLossMin <= lose <= SmallLossMax;
      outcome := Lost(lose);
    } else {
      var lose: int :| BigLossMin <= lose <= BigLossMax;
      outcome := Lost(lose);
    }
  }

  class Bank {
    /** The `banque` table. */
    var balances: map<nat, int>
    /** The contents of the log file. */
    var logs: seq<LogEntry>
    /** `casino_cooldown`: each user's last play. */
    var casinoCooldown: map<nat, int>

    constructor ()
      ensures balances == map[] && logs == [] && casinoCooldown == map[]
    {
      balances, logs, casinoCooldown := map[], [], map[];
    }

    /** `get_balance`: a user without an account gets one holding the opening balance. */
    method GetBalance(user: nat) returns (b: int)
      modifies this
      ensures b == BalanceOf(old(balances), user)
      ensures balances == old(balances)[user := b]
      ensures logs == old(logs) && casinoCooldown == old(casinoCooldown)
    {
      if user in balances {
        b := balances[user];
      } else {
        b := OpeningBalance;
        balances := balances[user := b];
      }
    }

    /** `update_balance`: adds `amount` to the balance, the opening balance for a
        new account. Nothing bounds the result, so a balance can become negative. */
    method UpdateBalance(user: nat, amount: int)
      modifies this
      ensures balances == old(balances)[user := BalanceOf(old(balances), user) + amount]
      ensures logs == old(logs) && casinoCooldown == old(casinoCooldown)
    {
      balances := balances[user := BalanceOf(balances, user) + amount];
    }

    /** `log_transaction`, stamped `now`. */
    method LogTransaction(action: string, user: nat, target: Option<nat>, amount: Option<int>, success: bool,
                          now: int, readable: bool)
      modifies this
      ensures logs == Appended(old(logs), LogEntry(now, action, user, target, amount, success), readable)
      ensures balances == old(balances) && casinoCooldown == old(casinoCooldown)
    {
      logs := Appended(logs, LogEntry(now, action, user, target, amount, success), readable);
    }

    /** `give`: a positive amount is added to the member's balance and logged;
        any other amount is refused with no effect. */
    method Give(author: nat, member: nat, amount: int, now: int, readable: bool) returns (outcome: GiveOutcome)
      modifies this
      ensures amount <= 0 ==> outcome == NotPositive && balances == old(balances) && logs == old(logs)
      ensures amount > 0 ==>
        && outcome == Given(BalanceOf(old(balances), member), BalanceOf(old(balances), member) + amount)
        && balances == old(balances)[member := outcome.after]
        && logs == Appended(old(logs), LogEntry(now, "give", author, Some(member), Some(amount), true), readable)
      ensures casinoCooldown == old(casinoCooldown)
    {
      if amount <= 0 {
        return NotPositive;
      }
      var before := GetBalance(member);
      UpdateBalance(member, amount);
      var after := GetBalance(member);
      LogTransaction("give", author, Some(member), Some(amount), true, now, readable);
      outcome := Given(before, after);
    }

    /** `casino`. Within 300 s of the last play it reports the time left and
        changes nothing. Otherwise it restarts the cooldown, changes the balance by
        a `CasinoDelta` and logs the win or the loss (as a positive amount). */
    method Casino(user: nat, now: int, readable: bool) returns (outcome: CasinoOutcome)
      modifies this
      ensures user in old(casinoCooldown) && now - old(casinoCooldown)[user] < CasinoCooldown ==>
        && outcome == OnCooldown(CooldownRemaining(now - old(casinoCooldown)[user]).0,
                                 CooldownRemaining(now - old(casinoCooldown)[user]).1)
        && balances == old(balances) && logs == old(logs) && casinoCooldown == old(casinoCooldown)
      ensures !(user in old(casinoCooldown) && now - old(casinoCooldown)[user] < CasinoCooldown) ==>
        && casinoCooldown == old(casinoCooldown)[user := now]
        && (outcome.Won? || outcome.Lost?)
        && var delta := if outcome.Won? then outcome.amount else -outcome.amount;
        && CasinoDelta(delta)
        && balances == old(balances)[user := BalanceOf(old(balances), user) + delta]
        && logs == Appended(old(logs), LogEntry(now, if outcome.Won? then "casino_win" else "casino_loss", user, None,
                                                Some(outcome.amount), true), readable)
    {
      if user in casinoCooldown && now - casinoCooldown[user] < CasinoCooldown {
        var (minutes, seconds) := CooldownRemaining(now - casinoCooldown[user]);
        return OnCooldown(minutes, seconds);
      }
      outcome := Play(user, now, readable);
    }

    /** A casino play once the cooldown has passed. */
    method Play(user: nat, now: int, readable: bool) returns (outcome: CasinoOutcome)
      modifies this
      ensures casinoCooldown == old(casinoCooldown)[user := now]
      ensures outcome.Won? || outcome.Lost?
      ensures CasinoDelta(if outcome.Won? then outcome.amount else -outcome.amount)
      ensures balances == old(balances)[user := BalanceOf(old(balances), user) + (if outcome.Won? then outcome.amount else -outcome.amount)]
      ensures logs == Appended(old(logs), LogEntry(now, if outcome.Won? then "casino_win" else "casino_loss", user, None,
                                                   Some(outcome.amount), true), readable)
    {
      casinoCooldown := casinoCooldown[user := now];
      outcome := Draw();
      var delta := if outcome.Won? then outcome.amount else -outcome.amount;
      assert CasinoDelta(delta);
      UpdateBalance(user, delta);
      ghost var updated := balances;
      var after := GetBalance(user);
      assert balances == updated by {
        assert user in updated && after == updated[user];
      }
      var action := if outcome.Won? then "casino_win" else "casino_loss";
      LogTransaction(action, user, None, Some(outcome.amount), true, now, readable);
    }
  }
}
