/** The anti-spam and anti-raid state machine of the security cog.

    The cog keeps, in memory, a sliding window of recent messages per user, a
    warning counter per user, a table of mutes, and ONE join window shared by
    every guild the bot serves, with the two flags `raid_detected` and
    `raid_lockdown`. Discord calls (banning, adding or removing the "Muted" role,
    sending embeds, deleting the spam message) are outside the model: where the
    code's next state depends on whether such a call raised, the outcome is a
    parameter. Time is in whole seconds. */
module Security {
  import opened Text
  import opened Collections

  type UserId = nat

  // spam_config
  const MaxRepeatedMessages: nat := 3
  const SpamTimeWindow: nat := 10
  const WarnThreshold: nat := 2
  const MuteDuration: nat := 300
  const MaxWarnings: nat := 3

  // raid_config (auto_ban is fixed to true, so the auto-ban pass always runs)
  const MaxRecentAccounts: nat := 5
  const AccountAgeThreshold: int := 2
  const JoinTimeWindow: nat := 60
  const LockdownDuration: nat := 300

  /** The periodic sweep keeps one hour of message history. */
  const HistoryRetention: nat := 3600
  const SecondsPerDay: nat := 86400

  datatype HistoryEntry = HistoryEntry(content: string, timestamp: int)
  datatype MuteRecord = MuteRecord(until: int, reason: string)
  datatype JoinEntry = JoinEntry(userId: UserId, joinTime: int, accountAge: int)

  /** A row of the `security_warnings` table. */
  datatype WarningRecord = WarningRecord(userId: UserId, reason: string, moderatorId: Option<UserId>, actionType: string)

  /** A row of the `raid_logs` table. */
  datatype RaidRecord = RaidRecord(raidType: string, accountsInvolved: nat, bannedCount: nat, details: string)

  datatype SpamAction = Warn | Mute | Ban

  /** What `handle_spam` reports: the repeat count, the new warning count, the
      "Action" label of the embed and the sanction it applied. */
  datatype SpamReport = SpamReport(repeated: nat, warning: nat, actionLabel: string, action: SpamAction)

  /** What `handle_raid` reports: the suspects, the (at most five) listed in the
      alert, and how many auto-bans succeeded. */
  datatype RaidReport = RaidReport(suspects: seq<JoinEntry>, preview: seq<JoinEntry>, banned: nat)

  datatype UnmuteResult = NotMuted | Unmuted | UnmuteFailed

  const BanLabel: string := "\U{1F6AB} BAN"
  const MuteLabel: string := "\U{1F507} MUTE"
  const WarnLabel: string := "\U{26A0}\U{FE0F} WARN"
  const MuteReason: string := "Spam d\U{E9}tect\U{E9}"
  const RaidDetails: string := "Comptes de moins de 2 jours"

  /** `get_action_for_warning`: the label shown for a warning count. */
  function ActionLabel(warningCount: nat): string {
    if warningCount >= MaxWarnings then BanLabel
    else if warningCount >= WarnThreshold then MuteLabel
    else WarnLabel
  }

  /** The label that names a sanction. */
  function LabelOf(a: SpamAction): string {
    match a
    case Ban => BanLabel
    case Mute => MuteLabel
    case Warn => WarnLabel
  }

  /** The reason written to the warnings table for a spam warning. */
  function SpamReason(repeated: nat): string {
    "Spam: " + DecimalString(repeated) + " messages identiques"
  }

  function WarningsOf(warnings: map<UserId, nat>, u: UserId): nat {
    if u in warnings then warnings[u] else 0
  }

  function HistoryOf(history: map<UserId, seq<HistoryEntry>>, u: UserId): seq<HistoryEntry> {
    if u in history then history[u] else []
  }

  /** The test of the history comprehensions: strictly after the cutoff. */
  function After(cutoff: int): HistoryEntry -> bool {
    (e: HistoryEntry) => e.timestamp > cutoff
  }

  function SameContent(content: string): HistoryEntry -> bool {
    (e: HistoryEntry) => e.content == content
  }

  function JoinedAfter(cutoff: int): JoinEntry -> bool {
    (j: JoinEntry) => j.joinTime > cutoff
  }

  const IsRecentAccount: JoinEntry -> bool := (j: JoinEntry) => j.accountAge <= AccountAgeThreshold

  function FromUser(u: UserId): WarningRecord -> bool {
    (w: WarningRecord) => w.userId == u
  }

  function NotFromUser(u: UserId): WarningRecord -> bool {
    (w: WarningRecord) => w.userId != u
  }

  /** The history `on_message` stores: the old one with the normalised message
      appended, then pruned to the spam window. */
  function RecordMessage(h: seq<HistoryEntry>, content: string, now: int): seq<HistoryEntry> {
    Filter(h + [HistoryEntry(Normalise(content), now)], After(now - SpamTimeWindow))
  }

  /** `repeated_count` in `check_spam`. */
  function Repeated(h: seq<HistoryEntry>, content: string): nat {
    |Filter(h, SameContent(content))|
  }

  /** The window entries whose account is at most `account_age_threshold` days old. */
  function Suspects(joins: seq<JoinEntry>): seq<JoinEntry> {
    Filter(joins, IsRecentAccount)
  }

  /** The join window after a new arrival: appended, then pruned to `join_time_window`. */
  function RecordJoin(joins: seq<JoinEntry>, j: JoinEntry, now: int): seq<JoinEntry> {
    Filter(joins + [j], JoinedAfter(now - JoinTimeWindow))
  }

  /** The account age `on_member_join` intends, `(now - created_at).days`: whole days,
      rounded down as `timedelta.days` does. As written, the subtraction raises before
      this is computed (see `SecurityCog.OnMemberJoinAsWritten`). */
  function AccountAgeDays(createdAt: int, now: int): int {
    (now - createdAt) / SecondsPerDay
  }

  /** A member who is not a bot arriving: its id, its account's creation time and the
      arrival time. */
  datatype Arrival = Arrival(member: UserId, createdAt: int, now: int)

  /** The join window after a run of arrivals, each one recorded as the intended
      `on_member_join` records it. */
  function JoinWindow(joins: seq<JoinEntry>, arrivals: seq<Arrival>): seq<JoinEntry>
    decreases |arrivals|
  {
    if |arrivals| == 0 then joins
    else
      var a := arrivals[|arrivals| - 1];
      RecordJoin(JoinWindow(joins, arrivals[..|arrivals| - 1]),
                 JoinEntry(a.member, a.now, AccountAgeDays(a.createdAt, a.now)), a.now)
  }

  /** Arrivals all at the instant `t`, from accounts at most `account_age_threshold` days old. */
  predicate FreshBurst(arrivals: seq<Arrival>, t: int) {
    forall i :: 0 <= i < |arrivals| ==>
      arrivals[i].now == t && AccountAgeDays(arrivals[i].createdAt, t) <= AccountAgeThreshold
  }

  /** Every entry joined at `t` from a recent account. */
  predicate AllFreshAt(joins: seq<JoinEntry>, t: int) {
    forall i :: 0 <= i < |joins| ==> joins[i].joinTime == t && IsRecentAccount(joins[i])
  }

  /** A fresh arrival at `t` joins a window of fresh arrivals at `t` without pruning any. */
  lemma RecordFreshJoin(w: seq<JoinEntry>, e: JoinEntry, t: int)
    requires AllFreshAt(w, t) && e.joinTime == t && IsRecentAccount(e)
    ensures RecordJoin(w, e, t) == w + [e]
    ensures AllFreshAt(w + [e], t)
  {
    assert AllFreshAt(w + [e], t) by {
      forall i | 0 <= i < |w + [e]|
        ensures (w + [e])[i].joinTime == t && IsRecentAccount((w + [e])[i])
      {
        if i < |w| { assert (w + [e])[i] == w[i]; }
      }
    }
    FilterAll(w + [e], JoinedAfter(t - JoinTimeWindow));
  }

  /** A burst of fresh accounts joining an empty window all stay in it and all are
      suspects, so `max_recent_accounts` of them make `check_raid` fire. */
  lemma {:induction false} FreshBurstSuspects(arrivals: seq<Arrival>, t: int)
    requires FreshBurst(arrivals, t)
    ensures |JoinWindow([], arrivals)| == |arrivals|
    ensures AllFreshAt(JoinWindow([], arrivals), t)
    ensures |Suspects(JoinWindow([], arrivals))| == |arrivals|
    decreases |arrivals|
  {
    var w := JoinWindow([], arrivals);
    if |arrivals| > 0 {
      var n := |arrivals| - 1;
      var prefix := arrivals[..n];
      assert FreshBurst(prefix, t) by {
        forall i | 0 <= i < |prefix| ensures prefix[i] == arrivals[i] { }
      }
      FreshBurstSuspects(prefix, t);
      var a := arrivals[n];
      assert a.now == t && AccountAgeDays(a.createdAt, t) <= AccountAgeThreshold;
      var e := JoinEntry(a.member, a.now, AccountAgeDays(a.createdAt, a.now));
      RecordFreshJoin(JoinWindow([], prefix), e, t);
      assert w == JoinWindow([], prefix) + [e];
    }
    FilterAll(w, IsRecentAccount);
  }

  /** Five fresh accounts joining at once: the intended handler leaves five suspects in
      the window, enough for `check_raid`, while as written the window stays as the cog
      started it, empty, with no suspect. */
  lemma RaidMissedAsWritten(t: int)
    ensures var burst := [Arrival(1, t, t), Arrival(2, t, t), Arrival(3, t, t), Arrival(4, t, t), Arrival(5, t, t)];
      |Suspects(JoinWindow([], burst))| >= MaxRecentAccounts && |Suspects([])| < MaxRecentAccounts
  {
    var burst := [Arrival(1, t, t), Arrival(2, t, t), Arrival(3, t, t), Arrival(4, t, t), Arrival(5, t, t)];
    assert FreshBurst(burst, t);
    FreshBurstSuspects(burst, t);
  }

  /** `recent_accounts[:5]`: the suspects listed in the alert. */
  function Preview(suspects: seq<JoinEntry>): (r: seq<JoinEntry>)
    ensures |r| == if |suspects| < 5 then |suspects| else 5
    ensures forall i :: 0 <= i < |r| ==> r[i] == suspects[i]
  {
    if |suspects| < 5 then suspects else suspects[..5]
  }

  /** After a message, the history holds that message in normal form, as its last
      entry, every entry lies inside the spam window, and the message counts itself
      as one repeat. */
  lemma {:induction false} RecordMessageShape(h: seq<HistoryEntry>, content: string, now: int)
    ensures var r := RecordMessage(h, content, now);
      && |r| >= 1
      && r[|r| - 1] == HistoryEntry(Normalise(content), now)
      && (forall i :: 0 <= i < |r| ==> r[i].timestamp > now - SpamTimeWindow)
      && Repeated(r, Normalise(content)) >= 1
  {
    var e := HistoryEntry(Normalise(content), now);
    FilterSnoc(h, e, After(now - SpamTimeWindow));
    var r := RecordMessage(h, content, now);
    assert r[|r| - 1] == e;
    assert e in Filter(r, SameContent(Normalise(content)));
  }

  /** Messages older than the spam window do not count: if every earlier copy of a
      message is at least `spam_time_window` seconds old, the new copy is the only
      repeat and no spam is detected. */
  lemma {:induction false} StaleCopiesDoNotCount(h: seq<HistoryEntry>, content: string, now: int)
    requires forall i :: 0 <= i < |h| && h[i].content == Normalise(content) ==> h[i].timestamp <= now - SpamTimeWindow
    ensures Repeated(RecordMessage(h, content, now), Normalise(content)) == 1
    ensures Repeated(RecordMessage(h, content, now), Normalise(content)) < MaxRepeatedMessages
  {
    var c := Normalise(content);
    var e := HistoryEntry(c, now);
    FilterSnoc(h, e, After(now - SpamTimeWindow));
    var kept := Filter(h, After(now - SpamTimeWindow));
    forall i | 0 <= i < |kept| ensures !SameContent(c)(kept[i]) {
      var j :| 0 <= j < |h| && h[j] == kept[i];
    }
    FilterNone(kept, SameContent(c));
    FilterSnoc(kept, e, SameContent(c));
  }

  /** `clearwarnings` reports the number of rows it deleted: exactly the user's rows. */
  lemma {:induction false} ClearedRowsAreTheUsers(log: seq<WarningRecord>, u: UserId)
    ensures |log| - |Filter(log, NotFromUser(u))| == |Filter(log, FromUser(u))|
  {
    FilterPartition(log, FromUser(u), NotFromUser(u));
  }

  /** The auto-ban pass bans each suspect at most once, so it never reports more
      bans than there are suspects. */
  method AutoBan(suspects: seq<JoinEntry>, succeeds: nat -> bool) returns (banned: nat)
    ensures banned == CountBelow(|suspects|, succeeds)
    ensures banned <= |suspects|
  {
    banned := 0;
    var i := 0;
    while i < |suspects|
      invariant i <= |suspects|
      invariant banned == CountBelow(i, succeeds)
    {
      if succeeds(i) {
        banned := banned + 1;
      }
      i := i + 1;
    }
  }

  /** The mutes still in force at `now`: those whose end is not before `now`. */
  function ActiveMutes(mutes: map<UserId, MuteRecord>, now: int): (r: map<UserId, MuteRecord>)
    ensures r.Keys <= mutes.Keys
    ensures forall u :: u in r ==> r[u] == mutes[u] && r[u].until >= now
    ensures forall u :: u in mutes && mutes[u].until >= now ==> u in r
  {
    map u | u in mutes && !(mutes[u].until < now) :: mutes[u]
  }

  /** The histories after a pruning sweep of `cleanup_task` (every five minutes):
      each keeps only its entries of the last hour, and a user left with none is dropped. */
  function PrunedHistories(history: map<UserId, seq<HistoryEntry>>, now: int): (r: map<UserId, seq<HistoryEntry>>)
    ensures r.Keys <= history.Keys
    ensures forall u :: u in r ==> r[u] != [] && r[u] == Filter(history[u], After(now - HistoryRetention))
    ensures forall u :: u in r ==> forall i :: 0 <= i < |r[u]| ==> r[u][i].timestamp > now - HistoryRetention
  {
    map u | u in history && Filter(history[u], After(now - HistoryRetention)) != [] :: Filter(history[u], After(now - HistoryRetention))
  }

  /** A sweep keeps every history that is younger than an hour untouched. */
  lemma RecentHistoryKept(history: map<UserId, seq<HistoryEntry>>, now: int, u: UserId)
    requires u in history && history[u] != []
    requires forall i :: 0 <= i < |history[u]| ==> history[u][i].timestamp > now - HistoryRetention
    ensures u in PrunedHistories(history, now) && PrunedHistories(history, now)[u] == history[u]
  {
    FilterAll(history[u], After(now - HistoryRetention));
  }

  /** The first loop of `cleanup_task`: collect the expired mutes, then delete them. */
  method ExpireMutes(mutes: map<UserId, MuteRecord>, now: int) returns (active: map<UserId, MuteRecord>)
    ensures active == ActiveMutes(mutes, now)
  {
    active := mutes;
    var expired := set u | u in mutes && mutes[u].until < now;
    while expired != {}
      invariant expired <= active.Keys
      invariant forall u :: u in active <==> u in mutes && (!(mutes[u].until < now) || u in expired)
      invariant forall u :: u in active ==> active[u] == mutes[u]
      decreases expired
    {
      var u :| u in expired;
      active := active - {u};
      expired := expired - {u};
    }
    assert active.Keys == ActiveMutes(mutes, now).Keys;
  }

  /** The histories once the users in `done` have been pruned and the others not yet. */
  function PartlyPruned(history: map<UserId, seq<HistoryEntry>>, cutoff: int, done: set<UserId>): map<UserId, seq<HistoryEntry>> {
    map u | u in history && (u !in done || Filter(history[u], After(cutoff)) != []) ::
      if u in done then Filter(history[u], After(cutoff)) else history[u]
  }

  /** Pruning one more user replaces its history by the recent part, or drops it. */
  lemma PartlyPrunedStep(history: map<UserId, seq<HistoryEntry>>, cutoff: int, done: set<UserId>, u: UserId)
    requires u in history && u !in done
    ensures var before, kept := PartlyPruned(history, cutoff, done), Filter(history[u], After(cutoff));
      && u in before && before[u] == history[u]
      && PartlyPruned(history, cutoff, done + {u}) == if kept == [] then before - {u} else before[u := kept]
  {
    var before, kept := PartlyPruned(history, cutoff, done), Filter(history[u], After(cutoff));
    var after := PartlyPruned(history, cutoff, done + {u});
    var expected := if kept == [] then before - {u} else before[u := kept];
    assert after.Keys == expected.Keys;
  }

  /** The second loop of `cleanup_task`: prune each user's history to the last hour
      and drop the users left without one. */
  method PruneHistories(history: map<UserId, seq<HistoryEntry>>, now: int) returns (pruned: map<UserId, seq<HistoryEntry>>)
    ensures pruned == PrunedHistories(history, now)
  {
    var cutoff := now - HistoryRetention;
    pruned := history;
    var users := history.Keys;
    assert PartlyPruned(history, cutoff, {}) == history;
    assert history.Keys - users == {};
    while users != {}
      invariant users <= history.Keys
      invariant pruned == PartlyPruned(history, cutoff, history.Keys - users)
      decreases users
    {
      var u :| u in users;
      PartlyPrunedStep(history, cutoff, history.Keys - users, u);
      var kept := Filter(pruned[u], After(cutoff));
      if kept == [] {
        pruned := pruned - {u};
      } else {
        pruned := pruned[u := kept];
      }
      assert history.Keys - (users - {u}) == (history.Keys - users) + {u};
      users := users - {u};
    }
    assert history.Keys - users == history.Keys;
    assert PartlyPruned(history, cutoff, history.Keys).Keys == PrunedHistories(history, now).Keys;
  }

  class SecurityCog {
    var messageHistory: map<UserId, seq<HistoryEntry>>
    var spamWarnings: map<UserId, nat>
    var mutedUsers: map<UserId, MuteRecord>
    var recentJoins: seq<JoinEntry>
    var raidDetected: bool
    var raidLockdown: bool
    /** The `security_warnings` table, in insertion order. */
    var warningLog: seq<WarningRecord>
    /** The `raid_logs` table, in insertion order. */
    var raidLog: seq<RaidRecord>

    constructor (warnings: seq<WarningRecord>, raids: seq<RaidRecord>)
      ensures messageHistory == map[] && spamWarnings == map[] && mutedUsers == map[]
      ensures recentJoins == [] && !raidDetected && !raidLockdown
      ensures warningLog == warnings && raidLog == raids
    {
      messageHistory, spamWarnings, mutedUsers := map[], map[], map[];
      recentJoins, raidDetected, raidLockdown := [], false, false;
      warningLog, raidLog := warnings, raids;
    }

    /** `on_message`: bots and commands are ignored; otherwise the normalised
        message joins the author's history, the history is pruned to the spam
        window, and `check_spam` runs. `muteApplied` says whether the Discord
        calls of `mute_user` succeed, should a mute be due. */
    method OnMessage(author: UserId, isBot: bool, content: string, now: int, muteApplied: bool)
      returns (spam: Option<SpamReport>)
      modifies this
      ensures isBot || IsCommand(content) ==>
        spam == None && messageHistory == old(messageHistory) && spamWarnings == old(spamWarnings)
        && mutedUsers == old(mutedUsers) && warningLog == old(warningLog)
      ensures !isBot && !IsCommand(content) ==>
        messageHistory == old(messageHistory)[author := RecordMessage(HistoryOf(old(messageHistory), author), content, now)]
      ensures !isBot && !IsCommand(content) ==>
        (spam.Some? <==> Repeated(messageHistory[author], Normalise(content)) >= MaxRepeatedMessages)
      ensures spam.None? ==>
        spamWarnings == old(spamWarnings) && mutedUsers == old(mutedUsers) && warningLog == old(warningLog)
      ensures spam.Some? ==>
        HandledSpam(author, spam.value, old(spamWarnings), old(mutedUsers), old(warningLog), now, muteApplied)
      ensures recentJoins == old(recentJoins) && raidDetected == old(raidDetected)
        && raidLockdown == old(raidLockdown) && raidLog == old(raidLog)
    {
      if isBot || IsCommand(content) {
        return None;
      }
      var history := HistoryOf(messageHistory, author);
      history := history + [HistoryEntry(Normalise(content), now)];
      messageHistory := messageHistory[author := Filter(history, After(now - SpamTimeWindow))];
      spam := CheckSpam(author, content, now, muteApplied);
    }

    /** `check_spam`: counts the history entries equal to the normalised message
        and hands over to `handle_spam` at `max_repeated_messages` or more. */
    method CheckSpam(author: UserId, content: string, now: int, muteApplied: bool)
      returns (spam: Option<SpamReport>)
      requires author in messageHistory
      modifies this
      ensures messageHistory == old(messageHistory)
      ensures spam.Some? <==> Repeated(messageHistory[author], Normalise(content)) >= MaxRepeatedMessages
      ensures spam.Some? ==> spam.value.repeated == Repeated(messageHistory[author], Normalise(content))
      ensures spam.None? ==>
        spamWarnings == old(spamWarnings) && mutedUsers == old(mutedUsers) && warningLog == old(warningLog)
      ensures spam.Some? ==>
        HandledSpam(author, spam.value, old(spamWarnings), old(mutedUsers), old(warningLog), now, muteApplied)
      ensures recentJoins == old(recentJoins) && raidDetected == old(raidDetected)
        && raidLockdown == old(raidLockdown) && raidLog == old(raidLog)
    {
      var repeated := Repeated(messageHistory[author], Normalise(content));
      if repeated >= MaxRepeatedMessages {
        var report := HandleSpam(author, repeated, now, muteApplied);
        spam := Some(report);
      } else {
        spam := None;
      }
    }

    /** The effect of `handle_spam` on the spam state: the author's warning count
        goes up by exactly one (from zero if absent) and no one else's changes;
        one warning row is logged; ban takes precedence over mute, mute over a
        plain warning; the mute is recorded only if its Discord calls succeed;
        and the embed's label is the one `get_action_for_warning` gives. */
    ghost predicate HandledSpam(author: UserId, r: SpamReport, warnings0: map<UserId, nat>,
                                mutes0: map<UserId, MuteRecord>, log0: seq<WarningRecord>,
                                now: int, muteApplied: bool)
      reads this
    {
      && r.warning == WarningsOf(warnings0, author) + 1
      && spamWarnings == warnings0[author := r.warning]
      && r.actionLabel == ActionLabel(r.warning)
      && r.actionLabel == LabelOf(r.action)
      && (r.action == Ban <==> r.warning >= MaxWarnings)
      && (r.action == Mute <==> WarnThreshold <= r.warning < MaxWarnings)
      && (r.action == Warn <==> r.warning < WarnThreshold)
      && warningLog == log0 + [WarningRecord(author, SpamReason(r.repeated), None, "spam_warning")]
      && mutedUsers == (if r.action == Mute && muteApplied
                        then mutes0[author := MuteRecord(now + MuteDuration, MuteReason)]
                        else mutes0)
    }

    /** `handle_spam` together with the bookkeeping part of `mute_user`. */
    method HandleSpam(author: UserId, repeated: nat, now: int, muteApplied: bool) returns (report: SpamReport)
      modifies this
      ensures report.repeated == repeated
      ensures HandledSpam(author, report, old(spamWarnings), old(mutedUsers), old(warningLog), now, muteApplied)
      ensures messageHistory == old(messageHistory)
      ensures recentJoins == old(recentJoins) && raidDetected == old(raidDetected)
        && raidLockdown == old(raidLockdown) && raidLog == old(raidLog)
    {
      if author !in spamWarnings {
        spamWarnings := spamWarnings[author := 0];
      }
      spamWarnings := spamWarnings[author := spamWarnings[author] + 1];
      var warningCount := spamWarnings[author];
      var shown := ActionLabel(warningCount);
      warningLog := warningLog + [WarningRecord(author, SpamReason(repeated), None, "spam_warning")];
      var action: SpamAction;
      if warningCount >= MaxWarnings {
        action := Ban;
      } else if warningCount >= WarnThreshold {
        action := Mute;
        if muteApplied {
          mutedUsers := mutedUsers[author := MuteRecord(now + MuteDuration, MuteReason)];
        }
      } else {
        action := Warn;
      }
      report := SpamReport(repeated, warningCount, shown, action);
    }

    /** `on_member_join` as written: a bot is ignored, and for any other member
        `datetime.now() - member.created_at` subtracts the library's timezone-aware
        creation time from a naive clock reading. That raises `TypeError` before the
        arrival is appended; the library logs the listener's exception and the handler
        ends. No arrival ever enters the window and `check_raid` is never reached. */
    method OnMemberJoinAsWritten(member: UserId, isBot: bool, createdAt: int, now: int)
      returns (raid: Option<RaidReport>)
      ensures raid == None
    {
      raid := None;
    }

    /** `on_member_join` as intended, with the account age computed: bots are ignored;
        otherwise the arrival (with its account age in whole days) joins the global
        window, the window is pruned to `join_time_window`, and `check_raid` runs. `banSucceeds(i)` says whether
        the i-th auto-ban attempt of a raid would succeed. */
    method OnMemberJoin(member: UserId, isBot: bool, createdAt: int, now: int, banSucceeds: nat -> bool)
      returns (raid: Option<RaidReport>)
      modifies this
      ensures isBot ==>
        raid == None && recentJoins == old(recentJoins) && raidDetected == old(raidDetected)
        && raidLockdown == old(raidLockdown) && raidLog == old(raidLog)
      ensures !isBot ==>
        recentJoins == RecordJoin(old(recentJoins), JoinEntry(member, now, AccountAgeDays(createdAt, now)), now)
      ensures !isBot ==> recentJoins == JoinWindow(old(recentJoins), [Arrival(member, createdAt, now)])
      ensures !isBot ==> RaidChecked(raid, old(raidDetected), old(raidLockdown), old(raidLog), banSucceeds)
      ensures messageHistory == old(messageHistory) && spamWarnings == old(spamWarnings)
        && mutedUsers == old(mutedUsers) && warningLog == old(warningLog)
    {
      if isBot {
        return None;
      }
      var accountAge := AccountAgeDays(createdAt, now);
      var joins := recentJoins + [JoinEntry(member, now, accountAge)];
      recentJoins := Filter(joins, JoinedAfter(now - JoinTimeWindow));
      raid := CheckRaid(banSucceeds);
    }

    /** The effect of `check_raid` on the raid state: nothing while locked down;
        otherwise a raid fires exactly when the window holds at least
        `max_recent_accounts` recent accounts, and firing sets both flags, logs
        one raid row and bans at most one account per suspect. */
    ghost predicate RaidChecked(raid: Option<RaidReport>, detected0: bool, lockdown0: bool,
                                log0: seq<RaidRecord>, banSucceeds: nat -> bool)
      reads this
    {
      && (lockdown0 ==> raid == None)
      && (!lockdown0 ==> (raid.Some? <==> |Suspects(recentJoins)| >= MaxRecentAccounts))
      && (raid.None? ==> raidDetected == detected0 && raidLockdown == lockdown0 && raidLog == log0)
      && (raid.Some? ==>
            && raidDetected && raidLockdown
            && raid.value.suspects == Suspects(recentJoins)
            && raid.value.preview == Preview(raid.value.suspects)
            && raid.value.banned == CountBelow(|raid.value.suspects|, banSucceeds)
            && raid.value.banned <= |raid.value.suspects|
            && raidLog == log0 + [RaidRecord("recent_accounts", |raid.value.suspects|, raid.value.banned, RaidDetails)])
    }

    /** `check_raid`. */
    method CheckRaid(banSucceeds: nat -> bool) returns (raid: Option<RaidReport>)
      modifies this
      ensures RaidChecked(raid, old(raidDetected), old(raidLockdown), old(raidLog), banSucceeds)
      ensures recentJoins == old(recentJoins)
      ensures messageHistory == old(messageHistory) && spamWarnings == old(spamWarnings)
        && mutedUsers == old(mutedUsers) && warningLog == old(warningLog)
    {
      if raidLockdown {
        return None;
      }
      var recentAccounts := Suspects(recentJoins);
      if |recentAccounts| >= MaxRecentAccounts {
        var report := HandleRaid(recentAccounts, banSucceeds);
        raid := Some(report);
      } else {
        raid := None;
      }
    }

    /** `handle_raid`: raises both flags, lists at most five suspects, runs the
        auto-ban pass over every suspect and logs the raid. Ending the lockdown
        is `EndLockdown`, which the caller invokes when the timer fires. */
    method HandleRaid(recentAccounts: seq<JoinEntry>, banSucceeds: nat -> bool) returns (report: RaidReport)
      modifies this
      ensures raidDetected && raidLockdown
      ensures report.suspects == recentAccounts
      ensures report.preview == Preview(recentAccounts)
      ensures report.banned == CountBelow(|recentAccounts|, banSucceeds) && report.banned <= |recentAccounts|
      ensures raidLog == old(raidLog) + [RaidRecord("recent_accounts", |recentAccounts|, report.banned, RaidDetails)]
      ensures recentJoins == old(recentJoins)
      ensures messageHistory == old(messageHistory) && spamWarnings == old(spamWarnings)
        && mutedUsers == old(mutedUsers) && warningLog == old(warningLog)
    {
      raidDetected := true;
      raidLockdown := true;
      var preview := Preview(recentAccounts);
      var banned := AutoBan(recentAccounts, banSucceeds);
      raidLog := raidLog + [RaidRecord("recent_accounts", |recentAccounts|, banned, RaidDetails)];
      report := RaidReport(recentAccounts, preview, banned);
    }

    /** `end_lockdown`, once its sleep has elapsed: both flags drop and detection resumes. */
    method EndLockdown()
      modifies this
      ensures !raidDetected && !raidLockdown
      ensures recentJoins == old(recentJoins) && raidLog == old(raidLog)
      ensures messageHistory == old(messageHistory) && spamWarnings == old(spamWarnings)
        && mutedUsers == old(mutedUsers) && warningLog == old(warningLog)
    {
      raidLockdown := false;
      raidDetected := false;
    }

    /** `clearwarnings`: deletes the member's warning rows, reports how many went,
        and drops the member's counter. Mute bookkeeping is left as it is. */
    method ClearWarnings(member: UserId) returns (deleted: nat)
      modifies this
      ensures warningLog == Filter(old(warningLog), NotFromUser(member))
      ensures deleted == |Filter(old(warningLog), FromUser(member))|
      ensures spamWarnings == old(spamWarnings) - {member}
      ensures mutedUsers == old(mutedUsers) && messageHistory == old(messageHistory)
      ensures recentJoins == old(recentJoins) && raidDetected == old(raidDetected)
        && raidLockdown == old(raidLockdown) && raidLog == old(raidLog)
    {
      var kept := Filter(warningLog, NotFromUser(member));
      ClearedRowsAreTheUsers(warningLog, member);
      deleted := |warningLog| - |kept|;
      warningLog := kept;
      if member in spamWarnings {
        spamWarnings := spamWarnings - {member};
      }
    }

    /** `unmute`: refused when the member does not carry the "Muted" role;
        otherwise, if removing the role succeeds, the mute record goes. */
    method Unmute(member: UserId, hasMutedRole: bool, roleRemoved: bool) returns (result: UnmuteResult)
      modifies this
      ensures !hasMutedRole ==> result == NotMuted
      ensures hasMutedRole ==> result == (if roleRemoved then Unmuted else UnmuteFailed)
      ensures mutedUsers == (if result == Unmuted then old(mutedUsers) - {member} else old(mutedUsers))
      ensures spamWarnings == old(spamWarnings) && messageHistory == old(messageHistory) && warningLog == old(warningLog)
      ensures recentJoins == old(recentJoins) && raidDetected == old(raidDetected)
        && raidLockdown == old(raidLockdown) && raidLog == old(raidLog)
    {
      if !hasMutedRole {
        return NotMuted;
      }
      if roleRemoved {
        if member in mutedUsers {
          mutedUsers := mutedUsers - {member};
        }
        result := Unmuted;
      } else {
        result := UnmuteFailed;
      }
    }

    /** One pass of `cleanup_task`: expired mutes are dropped and every history is
        pruned to the last hour; nothing else changes. */
    method CleanupSweep(now: int)
      modifies this
      ensures mutedUsers == ActiveMutes(old(mutedUsers), now)
      ensures messageHistory == PrunedHistories(old(messageHistory), now)
      ensures spamWarnings == old(spamWarnings) && warningLog == old(warningLog)
      ensures recentJoins == old(recentJoins) && raidDetected == old(raidDetected)
        && raidLockdown == old(raidLockdown) && raidLog == old(raidLog)
    {
      mutedUsers := ExpireMutes(mutedUsers, now);
      messageHistory := PruneHistories(messageHistory, now);
    }
  }
}
