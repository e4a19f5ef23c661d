/** The capture half of the backup cog: `create_backup_data` projects a guild
    into a snapshot record, and `get_overwrites` turns a permission-overwrite
    dictionary into one keyed by the target's identifier as a decimal string.

    The guild is what the Discord library exposes: its roles, categories and
    non-category channels in the library's order, and its custom emojis. The
    library's `text_channels` view holds every `TextChannel` object, and news
    channels are `TextChannel` objects too; `voice_channels` holds the voice
    channels. Both views are modelled as filters of the channel list in the
    list's order (the library's extra sort by position is not modelled). */
module BackupCapture {
  import opened Text
  import opened Collections

  const Everyone: string := "@everyone"
  const SnapshotVersion: string := "1.0"

  /** A role's `RoleTags`. The library exposes the booster marker only as the method
      `is_premium_subscriber()` (its attribute is `_premium_subscriber`); there is no
      `premium_subscriber` attribute. */
  datatype SourceTags = SourceTags(botId: Option<nat>, integrationId: Option<nat>, isPremiumSubscriber: bool)
  datatype SourceRole = SourceRole(id: nat, name: string, color: nat, hoist: bool, mentionable: bool,
                                   position: int, permissions: nat, icon: Option<string>,
                                   unicodeEmoji: Option<string>, managed: bool, tags: Option<SourceTags>)
  /** One entry of an `overwrites` mapping: the target (role or member) and its (allow, deny) pair. */
  datatype SourceOverwrite = SourceOverwrite(targetId: nat, allow: nat, deny: nat)
  datatype SourceCategory = SourceCategory(id: nat, name: string, position: int, overwrites: seq<SourceOverwrite>)
  datatype SourceKind = TextKind | VoiceKind | NewsKind | ForumKind | StageKind
  datatype SourceChannel = SourceChannel(id: nat, name: string, kind: SourceKind, position: int,
                                         category: Option<nat>, topic: Option<string>, slowmode: nat,
                                         nsfw: bool, bitrate: nat, userLimit: nat,
                                         overwrites: seq<SourceOverwrite>)
  datatype SourceEmoji = SourceEmoji(name: string, url: string, animated: bool, managed: bool,
                                     requireColons: bool, roles: seq<nat>)
  /** The `server_info` block, kept as an opaque record. */
  datatype ServerInfo = ServerInfo(id: nat, name: string)
  datatype SourceGuild = SourceGuild(info: ServerInfo, roles: seq<SourceRole>, categories: seq<SourceCategory>,
                                     channels: seq<SourceChannel>, emojis: seq<SourceEmoji>)

  datatype TagsData = TagsData(botId: Option<nat>, integrationId: Option<nat>, premiumSubscriber: Option<bool>)
  datatype RoleData = RoleData(name: string, color: nat, hoist: bool, mentionable: bool, position: int,
                               permissions: nat, icon: Option<string>, unicodeEmoji: Option<string>,
                               managed: bool, tags: TagsData)
  datatype PermissionPair = PermissionPair(allow: nat, deny: nat)
  /** A snapshot's overwrites: `str(target.id)` to its (allow, deny) pair, in insertion order. */
  type Overwrites = seq<Entry<string, PermissionPair>>
  datatype CategoryData = CategoryData(name: string, position: int, overwrites: Overwrites)
  /** A channel record. `kind` is the stored type tag; the optional fields are the
      keys a record of that type does not carry. */
  datatype ChannelData = ChannelData(name: string, kind: string, position: int, categoryId: Option<nat>,
                                     topic: Option<string>, slowmode: Option<nat>, nsfw: Option<bool>,
                                     bitrate: Option<nat>, userLimit: Option<nat>, overwrites: Overwrites)
  datatype EmojiData = EmojiData(name: string, url: string, animated: bool, managed: bool,
                                 requireColons: bool, roles: seq<nat>)
  datatype Snapshot = Snapshot(serverInfo: ServerInfo, roles: seq<RoleData>, categories: seq<CategoryData>,
                               channels: seq<ChannelData>, emojis: seq<EmojiData>, createdAt: int,
                               version: string)

  /** Python truthiness of an optional identifier: absent, `None` and `0` are false. */
  predicate TruthyId(o: Option<nat>) {
    o.Some? && o.value != 0
  }

  /** The `tags` block: each identifier only when the role has tags and the identifier is
      truthy. The `hasattr(role.tags, 'premium_subscriber')` guard never holds for the
      library's `RoleTags`, so the booster marker is always stored as `None`. */
  function TagsOf(t: Option<SourceTags>): (r: TagsData)
    ensures r.botId.Some? <==> t.Some? && TruthyId(t.value.botId)
    ensures r.integrationId.Some? <==> t.Some? && TruthyId(t.value.integrationId)
    ensures r.botId.Some? ==> r.botId == t.value.botId
    ensures r.integrationId.Some? ==> r.integrationId == t.value.integrationId
    ensures r.premiumSubscriber == None
  {
    match t
    case None => TagsData(None, None, None)
    case Some(tags) =>
      TagsData(if TruthyId(tags.botId) then tags.botId else None,
               if TruthyId(tags.integrationId) then tags.integrationId else None,
               None)
  }

  function RoleToData(r: SourceRole): RoleData {
    RoleData(r.name, r.color, r.hoist, r.mentionable, r.position, r.permissions, r.icon,
             r.unicodeEmoji, r.managed, TagsOf(r.tags))
  }

  const NotEveryone: SourceRole -> bool := (r: SourceRole) => r.name != Everyone
  const IsEveryone: SourceRole -> bool := (r: SourceRole) => r.name == Everyone

  /** The snapshot's roles: every guild role except the one named "@everyone", in order. */
  function CaptureRoles(roles: seq<SourceRole>): (r: seq<RoleData>)
    ensures forall i :: 0 <= i < |r| ==> r[i].name != Everyone
    ensures forall i :: 0 <= i < |roles| && roles[i].name != Everyone ==> RoleToData(roles[i]) in r
    ensures |r| + |Filter(roles, IsEveryone)| == |roles|
  {
    var kept := Filter(roles, NotEveryone);
    FilterPartition(roles, NotEveryone, IsEveryone);
    assert forall i :: 0 <= i < |roles| && roles[i].name != Everyone ==> roles[i] in kept;
    Map(kept, RoleToData)
  }

  /** Capturing keeps the guild's role order: the roles of a concatenation are the
      roles of each part, one after the other. */
  lemma CaptureRolesInOrder(a: seq<SourceRole>, b: seq<SourceRole>)
    ensures CaptureRoles(a + b) == CaptureRoles(a) + CaptureRoles(b)
  {
    FilterAppend(a, b, NotEveryone);
  }

  /** The entry `get_overwrites` writes for one target. */
  function EntryOf(o: SourceOverwrite): Entry<string, PermissionPair> {
    Entry(DecimalString(o.targetId), PermissionPair(o.allow, o.deny))
  }

  /** `get_overwrites`: each target's entry assigned in the mapping's order. */
  function GetOverwrites(ow: seq<SourceOverwrite>): (r: Overwrites)
    ensures UniqueKeys(r)
    ensures |r| <= |ow|
  {
    AssignUniqueKeys(Map(ow, EntryOf));
    Assign(Map(ow, EntryOf))
  }

  predicate DistinctTargets(ow: seq<SourceOverwrite>) {
    forall i, j :: 0 <= i < j < |ow| ==> ow[i].targetId != ow[j].targetId
  }

  /** The targets of an overwrite mapping are distinct objects with distinct
      identifiers, and then the converted mapping has exactly one entry per
      target, in order, keyed by the identifier's decimal string and holding that
      target's (allow, deny) values. */
  lemma GetOverwritesExact(ow: seq<SourceOverwrite>)
    requires DistinctTargets(ow)
    ensures |GetOverwrites(ow)| == |ow|
    ensures forall i :: 0 <= i < |ow| ==>
      GetOverwrites(ow)[i] == Entry(DecimalString(ow[i].targetId), PermissionPair(ow[i].allow, ow[i].deny))
  {
    var es := Map(ow, EntryOf);
    forall i, j | 0 <= i < j < |es| ensures es[i].key != es[j].key {
      DecimalStringInjective(ow[i].targetId, ow[j].targetId);
    }
    AssignDistinct(es);
  }

  function CategoryToData(c: SourceCategory): CategoryData {
    CategoryData(c.name, c.position, GetOverwrites(c.overwrites))
  }

  /** Members of the library's `text_channels` view: text and news channels. */
  const InTextView: SourceChannel -> bool := (c: SourceChannel) => c.kind == TextKind || c.kind == NewsKind
  const IsVoice: SourceChannel -> bool := (c: SourceChannel) => c.kind == VoiceKind
  const IsNews: SourceChannel -> bool := (c: SourceChannel) => c.kind == NewsKind
  const IsForum: SourceChannel -> bool := (c: SourceChannel) => c.kind == ForumKind

  function TextData(c: SourceChannel): ChannelData {
    ChannelData(c.name, "text", c.position, c.category, c.topic, Some(c.slowmode), Some(c.nsfw), None, None,
                GetOverwrites(c.overwrites))
  }

  function VoiceData(c: SourceChannel): ChannelData {
    ChannelData(c.name, "voice", c.position, c.category, None, None, None, Some(c.bitrate), Some(c.userLimit),
                GetOverwrites(c.overwrites))
  }

  function NewsData(c: SourceChannel): ChannelData {
    ChannelData(c.name, "news", c.position, c.category, c.topic, None, Some(c.nsfw), None, None,
                GetOverwrites(c.overwrites))
  }

  function ForumData(c: SourceChannel): ChannelData {
    ChannelData(c.name, "forum", c.position, c.category, c.topic, None, Some(c.nsfw), None, None,
                GetOverwrites(c.overwrites))
  }

  /** The order in which the four channel blocks are written. */
  function KindRank(kind: string): nat {
    if kind == "text" then 0 else if kind == "voice" then 1 else if kind == "news" then 2 else 3
  }

  function OfKind(kind: string): ChannelData -> bool {
    (c: ChannelData) => c.kind == kind
  }

  /** The snapshot's channels: the text view tagged "text", then the voice
      channels tagged "voice", then the news channels tagged "news", then the
      forum channels tagged "forum"; each block keeps the guild's order. */
  function CaptureChannels(chs: seq<SourceChannel>): (r: seq<ChannelData>)
    ensures forall i :: 0 <= i < |r| ==> r[i].kind in ["text", "voice", "news", "forum"]
    ensures forall i, j :: 0 <= i < j < |r| ==> KindRank(r[i].kind) <= KindRank(r[j].kind)
    ensures |r| == |Filter(chs, InTextView)| + |Filter(chs, IsVoice)| + |Filter(chs, IsNews)| + |Filter(chs, IsForum)|
  {
    var text := Map(Filter(chs, InTextView), TextData);
    var voice := Map(Filter(chs, IsVoice), VoiceData);
    var news := Map(Filter(chs, IsNews), NewsData);
    var forum := Map(Filter(chs, IsForum), ForumData);
    text + voice + news + forum
  }

  /** The records tagged with each type are, in the guild's order, the channels
      of the matching view with that type's fields: each text-view channel once
      as "text", each voice channel once as "voice", and so on. */
  lemma CaptureChannelsByKind(chs: seq<SourceChannel>)
    ensures Filter(CaptureChannels(chs), OfKind("text")) == Map(Filter(chs, InTextView), TextData)
    ensures Filter(CaptureChannels(chs), OfKind("voice")) == Map(Filter(chs, IsVoice), VoiceData)
    ensures Filter(CaptureChannels(chs), OfKind("news")) == Map(Filter(chs, IsNews), NewsData)
    ensures Filter(CaptureChannels(chs), OfKind("forum")) == Map(Filter(chs, IsForum), ForumData)
  {
    var text, voice := Map(Filter(chs, InTextView), TextData), Map(Filter(chs, IsVoice), VoiceData);
    var news, forum := Map(Filter(chs, IsNews), NewsData), Map(Filter(chs, IsForum), ForumData);
    assert CaptureChannels(chs) == text + voice + news + forum;
    TaggedBlocks(chs);
    EachBlockOfKind(text, voice, news, forum);
  }

  /** The four tags are different strings. */
  lemma TagsDistinct()
    ensures "text" != "voice" && "text" != "news" && "text" != "forum"
    ensures "voice" != "news" && "voice" != "forum" && "news" != "forum"
  {
    assert "text"[0] != "news"[0];
    assert "voice"[0] != "forum"[0];
  }

  /** Filtering the four blocks by each tag gives back that tag's block. */
  lemma EachBlockOfKind(text: seq<ChannelData>, voice: seq<ChannelData>, news: seq<ChannelData>,
                        forum: seq<ChannelData>)
    requires Tagged(text, "text") && Tagged(voice, "voice") && Tagged(news, "news") && Tagged(forum, "forum")
    ensures Filter(text + voice + news + forum, OfKind("text")) == text
    ensures Filter(text + voice + news + forum, OfKind("voice")) == voice
    ensures Filter(text + voice + news + forum, OfKind("news")) == news
    ensures Filter(text + voice + news + forum, OfKind("forum")) == forum
  {
    TagsDistinct();
    var e: seq<ChannelData> := [];
    BlocksOfKind(text, voice, news, forum, "text");
    assert text + e + e + e == text;
    BlocksOfKind(text, voice, news, forum, "voice");
    assert e + voice + e + e == voice;
    BlocksOfKind(text, voice, news, forum, "news");
    assert e + e + news + e == news;
    BlocksOfKind(text, voice, news, forum, "forum");
    assert e + e + e + forum == forum;
  }

  /** Every record of `s` carries the tag `k`. */
  predicate Tagged(s: seq<ChannelData>, k: string) {
    forall i :: 0 <= i < |s| ==> s[i].kind == k
  }

  /** Each of the four blocks carries its own tag. */
  lemma TaggedBlocks(chs: seq<SourceChannel>)
    ensures Tagged(Map(Filter(chs, InTextView), TextData), "text")
    ensures Tagged(Map(Filter(chs, IsVoice), VoiceData), "voice")
    ensures Tagged(Map(Filter(chs, IsNews), NewsData), "news")
    ensures Tagged(Map(Filter(chs, IsForum), ForumData), "forum")
  {
  }

  /** A block whose records all carry the tag `k` is kept whole by the filter for
      `k` and dropped by the filter for any other tag. */
  lemma FilterTagged(s: seq<ChannelData>, k: string, kind: string)
    requires Tagged(s, k)
    ensures Filter(s, OfKind(kind)) == if k == kind then s else []
  {
    if k == kind {
      FilterAll(s, OfKind(kind));
    } else {
      FilterNone(s, OfKind(kind));
    }
  }

  /** Filtering the four blocks by one tag keeps the block with that tag and drops
      the others. */
  lemma BlocksOfKind(text: seq<ChannelData>, voice: seq<ChannelData>, news: seq<ChannelData>,
                     forum: seq<ChannelData>, kind: string)
    requires Tagged(text, "text") && Tagged(voice, "voice") && Tagged(news, "news") && Tagged(forum, "forum")
    ensures Filter(text + voice + news + forum, OfKind(kind)) ==
      (if "text" == kind then text else []) + (if "voice" == kind then voice else []) +
      (if "news" == kind then news else []) + (if "forum" == kind then forum else [])
  {
    var p := OfKind(kind);
    FilterAppend(text + voice + news, forum, p);
    FilterAppend(text + voice, news, p);
    FilterAppend(text, voice, p);
    FilterTagged(text, "text", kind);
    FilterTagged(voice, "voice", kind);
    FilterTagged(news, "news", kind);
    FilterTagged(forum, "forum", kind);
  }

  /** Each record carries the keys of its type: text records have a slowmode and
      no voice fields, voice records a bitrate and user limit and no topic. */
  lemma CapturedChannelFields(chs: seq<SourceChannel>, i: nat)
    requires i < |CaptureChannels(chs)|
    ensures var c := CaptureChannels(chs)[i];
      && (c.kind == "text" ==> c.slowmode.Some? && c.nsfw.Some? && c.bitrate.None? && c.userLimit.None?)
      && (c.kind == "voice" ==> c.bitrate.Some? && c.userLimit.Some? && c.topic.None? && c.slowmode.None? && c.nsfw.None?)
      && (c.kind in ["news", "forum"] ==> c.slowmode.None? && c.nsfw.Some? && c.bitrate.None? && c.userLimit.None?)
  {
    var tf, vf, nf, ff := Filter(chs, InTextView), Filter(chs, IsVoice), Filter(chs, IsNews), Filter(chs, IsForum);
    var text, voice, news, forum := Map(tf, TextData), Map(vf, VoiceData), Map(nf, NewsData), Map(ff, ForumData);
    var all := text + voice + news + forum;
    assert CaptureChannels(chs) == all;
    if i < |text| {
      assert all[i] == TextData(tf[i]) by { assert all[i] == text[i]; }
    } else if i < |text| + |voice| {
      assert all[i] == VoiceData(vf[i - |text|]) by { assert all[i] == voice[i - |text|]; }
    } else if i < |text| + |voice| + |news| {
      assert all[i] == NewsData(nf[i - |text| - |voice|]) by { assert all[i] == news[i - |text| - |voice|]; }
    } else {
      assert all[i] == ForumData(ff[i - |text| - |voice| - |news|]) by {
        assert all[i] == forum[i - |text| - |voice| - |news|];
      }
    }
  }

  /** A news channel is in the library's text view as well as being of the news
      type, so the snapshot records it twice: once tagged "text" and once "news". */
  lemma NewsChannelCapturedTwice(c: SourceChannel)
    requires c.kind == NewsKind
    ensures CaptureChannels([c]) == [TextData(c), NewsData(c)]
  {
    assert [c][..0] == [];
  }

  function EmojiToData(e: SourceEmoji): EmojiData {
    EmojiData(e.name, e.url, e.animated, e.managed, e.requireColons, e.roles)
  }

  /** `create_backup_data`: the snapshot of a guild taken at time `now`. */
  function CreateBackupData(g: SourceGuild, now: int): (s: Snapshot)
    ensures s.version == SnapshotVersion && s.createdAt == now && s.serverInfo == g.info
    ensures forall i :: 0 <= i < |s.roles| ==> s.roles[i].name != Everyone
    ensures |s.categories| == |g.categories|
    ensures forall i :: 0 <= i < |g.categories| ==>
      s.categories[i].name == g.categories[i].name && UniqueKeys(s.categories[i].overwrites)
    ensures |s.emojis| == |g.emojis|
    ensures forall i, j :: 0 <= i < j < |s.channels| ==> KindRank(s.channels[i].kind) <= KindRank(s.channels[j].kind)
    ensures Filter(s.channels, OfKind("text")) == Map(Filter(g.channels, InTextView), TextData)
    ensures Filter(s.channels, OfKind("voice")) == Map(Filter(g.channels, IsVoice), VoiceData)
    ensures Filter(s.channels, OfKind("news")) == Map(Filter(g.channels, IsNews), NewsData)
    ensures Filter(s.channels, OfKind("forum")) == Map(Filter(g.channels, IsForum), ForumData)
  {
    CaptureChannelsByKind(g.channels);
    Snapshot(g.info, CaptureRoles(g.roles), Map(g.categories, CategoryToData), CaptureChannels(g.channels),
             Map(g.emojis, EmojiToData), now, SnapshotVersion)
  }
}
