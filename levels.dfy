/** The levels cog: the level formula, the XP table keyed by user, and the two
    listeners that grant XP, for a message and for time spent in a voice channel.

    The formula `max(1, int(1 + (xp / 100) ** 0.5))` is computed with a floating
    point square root; on the non-negative XP values the bot stores it is the
    integer formula below. Times are integer seconds. */
module Levels {
  import opened Text
  import opened Collections

  const MessageXpMin: nat := 15
  const MessageXpMax: nat := 25
  /** Messages longer than this earn the bonus. */
  const LongMessageLength: nat := 4000
  const VoiceXpPerMinute: nat := 10
  const MinMessageLength: nat := 20
  const MessageCooldown: int := 60
  /** Time in voice below which no XP is given. */
  const MinVoiceTime: int := 60

  /** A row of the `levels` table. */
  datatype Profile = Profile(xp: nat, level: nat, totalMessages: nat, totalVoiceTime: nat)

  /** The profile `create_user_profile` inserts. */
  const NewProfile := Profile(0, 1, 0, 0)

  lemma {:induction false} SquareMonotone(a: nat, b: nat)
    requires a <= b
    ensures a * a <= b * b
  {
    assert a * a <= a * b <= b * b by {
      assert a * (b - a) >= 0;
      assert b * (b - a) >= 0;
    }
  }

  /** The integer square root: the largest `r` with `r * r <= n`. */
  function FloorSqrt(n: nat): (r: nat)
    ensures r * r <= n < (r + 1) * (r + 1)
  {
    if n == 0 then 0
    else
      var s := FloorSqrt(n - 1);
      if (s + 1) * (s + 1) <= n then
        assert n <= (s + 1) * (s + 1) < (s + 2) * (s + 2);
        s + 1
      else s
  }

  /** `calculate_level`: level `r` is held exactly on the XP range
      `[100 (r - 1)^2, 100 r^2)`. */
  function CalculateLevel(xp: nat): (r: nat)
    ensures r >= 1
    ensures 100 * ((r - 1) * (r - 1)) <= xp < 100 * (r * r)
  {
    var q := xp / 100;
    var k := FloorSqrt(q);
    assert 100 * (k * k) <= 100 * q <= xp;
    assert xp < 100 * (q + 1) <= 100 * ((k + 1) * (k + 1));
    1 + k
  }

  /** The level is one more than the largest `k` with `100 k^2 <= xp`. */
  lemma CalculateLevelIsLargest(xp: nat, k: nat)
    ensures 100 * (k * k) <= xp <==> k <= CalculateLevel(xp) - 1
  {
    var r := CalculateLevel(xp);
    if k <= r - 1 {
      SquareMonotone(k, r - 1);
    } else {
      SquareMonotone(r, k);
    }
  }

  /** More XP never means a lower level. */
  lemma CalculateLevelMonotone(a: nat, b: nat)
    requires a <= b
    ensures CalculateLevel(a) <= CalculateLevel(b)
  {
    var la, lb := CalculateLevel(a), CalculateLevel(b);
    if la > lb {
      SquareMonotone(lb, la - 1);
    }
  }

  /** `calculate_xp_for_next_level` as written. It can be negative (for level 0,
      which the rank display passes as `level - 1` for a level-1 user). */
  function XpForNextLevel(level: int): (r: int)
    ensures level >= 1 ==> r >= 0
    ensures r % 100 == 0
  {
    (level * level - 1) * 100
  }

  /** At the XP `calculate_xp_for_next_level` announces for level `L`, a user is
      still at level `L`: the announced target is reached before the next level. */
  lemma XpForNextLevelStaysAtLevel(level: nat)
    requires level >= 1
    ensures CalculateLevel(XpForNextLevel(level)) == level
  {
    var sq := level * level;
    assert (level - 1) * (level - 1) == sq - 2 * level + 1;
    LevelOfRange(100 * (sq - 1), level);
  }

  /** A level-1 user is shown a target of 0 XP, which every user already has. */
  lemma XpForNextLevelOne()
    ensures XpForNextLevel(1) == 0 && CalculateLevel(0) == 1
  {
  }

  /** Level `L` is the only level whose XP range contains `xp`. */
  lemma LevelOfRange(xp: nat, level: nat)
    requires level >= 1
    requires 100 * ((level - 1) * (level - 1)) <= xp < 100 * (level * level)
    ensures CalculateLevel(xp) == level
  {
    var c := CalculateLevel(xp);
    if c > level {
      SquareMonotone(level, c - 1);
    } else if c < level {
      SquareMonotone(c, level - 1);
    }
  }

  /** The XP at which `calculate_level` moves from `level` to `level + 1`. */
  function XpForLevelUp(level: nat): (r: nat)
    requires level >= 1
    ensures CalculateLevel(r) == level + 1
    ensures CalculateLevel(r - 1) == level
  {
    var sq := level * level;
    assert (level + 1) * (level + 1) == sq + 2 * level + 1;
    assert (level - 1) * (level - 1) == sq - 2 * level + 1;
    LevelOfRange(100 * sq, level + 1);
    LevelOfRange(100 * sq - 1, level);
    100 * sq
  }

  /** What `update_user_xp` stores for an existing profile: the gains added to the
      totals, and the level of the new XP total. */
  function WithGains(p: Profile, xp: nat, messages: nat, voiceTime: nat): (r: Profile)
    ensures r.xp == p.xp + xp && r.xp >= p.xp
    ensures r.totalMessages == p.totalMessages + messages && r.totalVoiceTime == p.totalVoiceTime + voiceTime
    ensures 100 * ((r.level - 1) * (r.level - 1)) <= r.xp < 100 * (r.level * r.level)
  {
    Profile(p.xp + xp, CalculateLevel(p.xp + xp), p.totalMessages + messages, p.totalVoiceTime + voiceTime)
  }

  /** The XP a stretch of `time` seconds in voice earns: 10 per whole minute. */
  function VoiceXp(time: int): (r: nat)
    requires time >= MinVoiceTime
    ensures r % VoiceXpPerMinute == 0 && r >= VoiceXpPerMinute
    ensures 60 * (r / VoiceXpPerMinute) <= time < 60 * (r / VoiceXpPerMinute + 1)
  {
    (time / 60) * VoiceXpPerMinute
  }

  /** Whether `on_message` refuses XP for a message: bots and commands, a gain
      less than 60 s ago, fewer than 20 characters, or the same normalised text as
      the last counted message. */
  predicate MessageRefused(isBot: bool, content: string, now: int, lastGain: Option<int>, lastMessage: Option<string>) {
    || isBot || IsCommand(content)
    || (lastGain.Some? && now - lastGain.value < MessageCooldown)
    || |content| < MinMessageLength
    || (lastMessage.Some? && Normalise(content) == Normalise(lastMessage.value))
  }

  /** The XP a counted message may earn: a base in [15, 25], doubled (the long
      message bonus) above 4000 characters. */
  predicate MessageXpAllowed(content: string, xp: nat) {
    if |content| > LongMessageLength then xp % 2 == 0 && MessageXpMin <= xp / 2 <= MessageXpMax
    else MessageXpMin <= xp <= MessageXpMax
  }

  /** `dict.get`: the value stored under `k`, if any. */
  function Lookup<K, V>(m: map<K, V>, k: K): Option<V> {
    if k in m then Some(m[k]) else None
  }

  /** What a voice-state update changes. */
  datatype VoiceChange = Joined | Left | Moved

  class LevelsCog {
    /** The `levels` table. */
    var profiles: map<nat, Profile>
    /** `last_messages`: the last message content that earned XP. */
    var lastMessages: map<nat, string>
    /** `xp_cooldown`: when each user last earned message XP. */
    var xpCooldown: map<nat, int>
    /** `voice_tracking`: when each user joined a voice channel. */
    var voiceTracking: map<nat, int>

    constructor ()
      ensures profiles == map[] && lastMessages == map[] && xpCooldown == map[] && voiceTracking == map[]
    {
      profiles, lastMessages, xpCooldown, voiceTracking := map[], map[], map[], map[];
    }

    /** `get_user_data`: the stored profile, or a fresh `(0, 1, 0, 0)` one that is
        inserted. */
    method GetUserData(user: nat) returns (p: Profile)
      modifies this
      ensures user in old(profiles) ==> p == old(profiles)[user] && profiles == old(profiles)
      ensures user !in old(profiles) ==> p == NewProfile && profiles == old(profiles)[user := NewProfile]
      ensures lastMessages == old(lastMessages) && xpCooldown == old(xpCooldown) && voiceTracking == old(voiceTracking)
    {
      if user in profiles {
        p := profiles[user];
      } else {
        p := NewProfile;
        profiles := profiles[user := p];
      }
    }

    /** `update_user_xp`: adds the gains to an existing profile and stores the level
        of the new total; a missing profile is inserted with the gains and level 1. */
    method UpdateUserXp(user: nat, xpGained: nat, messageCount: nat, voiceTime: nat) returns (level: nat)
      modifies this
      ensures user !in old(profiles) ==>
        level == 1 && profiles == old(profiles)[user := Profile(xpGained, 1, messageCount, voiceTime)]
      ensures user in old(profiles) ==>
        && profiles == old(profiles)[user := WithGains(old(profiles)[user], xpGained, messageCount, voiceTime)]
        && level == profiles[user].level
      ensures lastMessages == old(lastMessages) && xpCooldown == old(xpCooldown) && voiceTracking == old(voiceTracking)
    {
      if user !in profiles {
        profiles := profiles[user := Profile(xpGained, 1, messageCount, voiceTime)];
        level := 1;
      } else {
        var p := WithGains(profiles[user], xpGained, messageCount, voiceTime);
        profiles := profiles[user := p];
        level := p.level;
      }
    }

    /** The message listener. A refused message changes nothing; a counted one is
        handled by `GrantMessageXp`. */
    method OnMessage(author: nat, isBot: bool, content: string, now: int) returns (gained: nat, levelUp: bool)
      modifies this
      ensures MessageRefused(isBot, content, now, Lookup(old(xpCooldown), author), Lookup(old(lastMessages), author)) ==>
        && gained == 0 && !levelUp
        && profiles == old(profiles) && lastMessages == old(lastMessages) && xpCooldown == old(xpCooldown)
      ensures !MessageRefused(isBot, content, now, Lookup(old(xpCooldown), author), Lookup(old(lastMessages), author)) ==>
        MessageGranted(old(profiles), old(lastMessages), old(xpCooldown), author, content, now, gained, levelUp)
      ensures voiceTracking == old(voiceTracking)
    {
      gained, levelUp := 0, false;
      if isBot || IsCommand(content) {
        return;
      }
      if author in xpCooldown && now - xpCooldown[author] < MessageCooldown {
        return;
      }
      if |content| < MinMessageLength {
        return;
      }
      if author in lastMessages && Normalise(content) == Normalise(lastMessages[author]) {
        return;
      }
      gained, levelUp := GrantMessageXp(author, content, now);
    }

    /** The effect of a counted message: it earns `gained` XP and one message on the
        author's profile (created first if missing), and becomes the author's last
        message and cooldown start; `levelUp` is whether the stored level rose. */
    ghost predicate MessageGranted(profiles0: map<nat, Profile>, lastMessages0: map<nat, string>,
                                   xpCooldown0: map<nat, int>, author: nat, content: string, now: int,
                                   gained: nat, levelUp: bool)
      reads this
    {
      var p := if author in profiles0 then profiles0[author] else NewProfile;
      && MessageXpAllowed(content, gained)
      && profiles == profiles0[author := WithGains(p, gained, 1, 0)]
      && levelUp == (profiles[author].level > p.level)
      && lastMessages == lastMessages0[author := content]
      && xpCooldown == xpCooldown0[author := now]
    }

    method GrantMessageXp(author: nat, content: string, now: int) returns (gained: nat, levelUp: bool)
      modifies this
      ensures MessageGranted(old(profiles), old(lastMessages), old(xpCooldown), author, content, now, gained, levelUp)
      ensures voiceTracking == old(voiceTracking)
    {
      var base: nat :| MessageXpMin <= base <= MessageXpMax;
      if |content| > LongMessageLength {
        gained := base * 2;
      } else {
        gained := base;
      }
      var before := GetUserData(author);
      var newLevel := UpdateUserXp(author, gained, 1, 0);
      lastMessages := lastMessages[author := content];
      xpCooldown := xpCooldown[author := now];
      levelUp := newLevel > before.level;
    }

    /** The voice listener. Joining starts tracking. Leaving while tracked gives
        `VoiceXp` of the time spent, counted as voice time, when at least 60 s were
        spent, and stops tracking in either case. Bots and moves between channels
        change nothing. */
    method OnVoiceStateUpdate(member: nat, isBot: bool, change: VoiceChange, now: int) returns (gained: nat)
      modifies this
      ensures isBot || change == Moved ==> gained == 0 && voiceTracking == old(voiceTracking) && profiles == old(profiles)
      ensures !isBot && change == Joined ==>
        gained == 0 && voiceTracking == old(voiceTracking)[member := now] && profiles == old(profiles)
      ensures !isBot && change == Left ==> voiceTracking == old(voiceTracking) - {member}
      ensures !isBot && change == Left && (member !in old(voiceTracking) || now - old(voiceTracking)[member] < MinVoiceTime) ==>
        gained == 0 && profiles == old(profiles)
      ensures !isBot && change == Left && member in old(voiceTracking) && now - old(voiceTracking)[member] >= MinVoiceTime ==>
        var time := now - old(voiceTracking)[member];
        var p := if member in old(profiles) then old(profiles)[member] else NewProfile;
        && gained == VoiceXp(time)
        && profiles == old(profiles)[member := WithGains(p, gained, 0, time)]
      ensures lastMessages == old(lastMessages) && xpCooldown == old(xpCooldown)
    {
      gained := 0;
      if isBot {
        return;
      }
      match change
      case Joined =>
        voiceTracking := voiceTracking[member := now];
      case Left =>
        if member in voiceTracking {
          var time := now - voiceTracking[member];
          if time >= MinVoiceTime {
            gained := VoiceXp(time);
            var before := GetUserData(member);
            var level := UpdateUserXp(member, gained, 0, time as nat);
          }
          voiceTracking := voiceTracking - {member};
        }
      case Moved =>
    }
  }
}
