/** The restore half of the backup cog: `restore_server` replays a snapshot into a
    guild through the Discord API, and `apply_overwrites` sets a created object's
    permission overwrites.

    The guild being restored is a `Guild` object whose fields change only through
    its API methods; every API call takes, as a parameter, whether it succeeds.
    Which calls succeed is given by an `Outcomes` record, indexed by the position
    of the record in the snapshot (and, for overwrites, by the entry's position),
    so that the whole restore is a function of the guild, the snapshot and the
    outcomes. A failed call is an exception that the surrounding `try` of the
    source catches. New objects get the guild's next free identifier. */
module BackupRestore {
  import opened Text
  import opened Collections
  import opened BackupCapture

  const DefaultSlowmode: nat := 0
  const DefaultNsfw: bool := false
  const DefaultBitrate: nat := 64000
  const DefaultUserLimit: nat := 0
  const DownloadOk: int := 200

  datatype Role = Role(id: nat, name: string, color: nat, hoist: bool, mentionable: bool, permissions: nat,
                       unicodeEmoji: Option<string>)
  datatype Category = Category(id: nat, name: string)
  datatype ChannelSettings =
    | TextSettings(topic: Option<string>, slowmode: nat, nsfw: bool)
    | VoiceSettings(bitrate: nat, userLimit: nat)
    | NewsSettings(topic: Option<string>, nsfw: bool)
    | ForumSettings(topic: Option<string>, nsfw: bool)
  datatype Channel = Channel(id: nat, name: string, parent: Option<nat>, settings: ChannelSettings)
  /** A permission overwrite set on `targetId` (a category or channel) for the role `roleId`. */
  datatype Grant = Grant(targetId: nat, roleId: nat, allow: nat, deny: nat)
  datatype Emoji = Emoji(id: nat, name: string)

  /** The observable contents of a guild. `grants` is the log of successful
      `set_permissions` calls, in call order: Discord keeps one overwrite per
      (target, role), so the last grant for a pair is the effective one. */
  datatype GuildState = GuildState(roles: seq<Role>, categories: seq<Category>, channels: seq<Channel>,
                                   grants: seq<Grant>, emojis: seq<Emoji>, nextId: nat)

  /** Whose overwrites a `set_permissions` call belongs to: the i-th category or channel record. */
  datatype Scope = CategoryScope(index: nat) | ChannelScope(index: nat)

  /** Which API calls succeed. */
  datatype Outcomes = Outcomes(roleCreated: nat -> bool, roleEmojiSet: nat -> bool,
                               categoryCreated: nat -> bool, channelCreated: nat -> bool,
                               permissionSet: (Scope, nat) -> bool,
                               downloadStatus: nat -> int, emojiCreated: nat -> bool)

  /** `created_roles` and `created_categories`: name to identifier, in insertion order. */
  type Created = seq<Entry<string, nat>>

  /** Python truthiness of an optional string. */
  predicate TruthyText(o: Option<string>) {
    o.Some? && o.value != ""
  }

  function GetOr<T>(o: Option<T>, default: T): T {
    if o.Some? then o.value else default
  }

  // ---------------------------------------------------------------------------
  // The effect of each API call on the guild

  function AddRole(g: GuildState, data: RoleData): GuildState {
    g.(roles := g.roles + [Role(g.nextId, data.name, data.color, data.hoist, data.mentionable, data.permissions, None)],
       nextId := g.nextId + 1)
  }

  function SetRoleEmoji(g: GuildState, id: nat, emoji: string): (r: GuildState)
    ensures |r.roles| == |g.roles|
    ensures forall i :: 0 <= i < |g.roles| ==> r.roles[i].name == g.roles[i].name
  {
    g.(roles := seq(|g.roles|, i requires 0 <= i < |g.roles| =>
                      if g.roles[i].id == id then g.roles[i].(unicodeEmoji := Some(emoji)) else g.roles[i]))
  }

  function AddCategory(g: GuildState, name: string): GuildState {
    g.(categories := g.categories + [Category(g.nextId, name)], nextId := g.nextId + 1)
  }

  function AddChannel(g: GuildState, name: string, parent: Option<nat>, settings: ChannelSettings): GuildState {
    g.(channels := g.channels + [Channel(g.nextId, name, parent, settings)], nextId := g.nextId + 1)
  }

  function AddGrant(g: GuildState, grant: Grant): GuildState {
    g.(grants := g.grants + [grant])
  }

  function AddEmoji(g: GuildState, name: string): GuildState {
    g.(emojis := g.emojis + [Emoji(g.nextId, name)], nextId := g.nextId + 1)
  }

  /** Every object of the guild has an identifier below `nextId`, as Discord's
      identifiers only grow. */
  predicate IdsBelowNext(g: GuildState) {
    && (forall i :: 0 <= i < |g.roles| ==> g.roles[i].id < g.nextId)
    && (forall i :: 0 <= i < |g.categories| ==> g.categories[i].id < g.nextId)
    && (forall i :: 0 <= i < |g.channels| ==> g.channels[i].id < g.nextId)
    && (forall i :: 0 <= i < |g.emojis| ==> g.emojis[i].id < g.nextId)
  }

  /** No object of the guild has the identifier `id`. */
  predicate IdUnused(g: GuildState, id: nat) {
    && (forall i :: 0 <= i < |g.roles| ==> g.roles[i].id != id)
    && (forall i :: 0 <= i < |g.categories| ==> g.categories[i].id != id)
    && (forall i :: 0 <= i < |g.channels| ==> g.channels[i].id != id)
    && (forall i :: 0 <= i < |g.emojis| ==> g.emojis[i].id != id)
  }

  /** A created role gets an identifier no object of the guild has, and every
      identifier stays below the next one. */
  lemma AddRoleFresh(g: GuildState, data: RoleData)
    requires IdsBelowNext(g)
    ensures IdUnused(g, g.nextId) && IdsBelowNext(AddRole(g, data))
  {
    var r := AddRole(g, data);
    forall i | 0 <= i < |r.roles| ensures r.roles[i].id < r.nextId {
      if i < |g.roles| { assert r.roles[i] == g.roles[i]; }
    }
  }

  /** The same for a created category. */
  lemma AddCategoryFresh(g: GuildState, name: string)
    requires IdsBelowNext(g)
    ensures IdUnused(g, g.nextId) && IdsBelowNext(AddCategory(g, name))
  {
    var c := AddCategory(g, name);
    forall i | 0 <= i < |c.categories| ensures c.categories[i].id < c.nextId {
      if i < |g.categories| { assert c.categories[i] == g.categories[i]; }
    }
  }

  /** The same for a created channel. */
  lemma AddChannelFresh(g: GuildState, name: string, parent: Option<nat>, settings: ChannelSettings)
    requires IdsBelowNext(g)
    ensures IdUnused(g, g.nextId) && IdsBelowNext(AddChannel(g, name, parent, settings))
  {
    var h := AddChannel(g, name, parent, settings);
    forall i | 0 <= i < |h.channels| ensures h.channels[i].id < h.nextId {
      if i < |g.channels| { assert h.channels[i] == g.channels[i]; }
    }
  }

  /** The same for a created emoji. */
  lemma AddEmojiFresh(g: GuildState, name: string)
    requires IdsBelowNext(g)
    ensures IdUnused(g, g.nextId) && IdsBelowNext(AddEmoji(g, name))
  {
    var e := AddEmoji(g, name);
    forall i | 0 <= i < |e.emojis| ensures e.emojis[i].id < e.nextId {
      if i < |g.emojis| { assert e.emojis[i] == g.emojis[i]; }
    }
  }

  /** Setting a role's emoji keeps every identifier, so they stay below the next one. */
  lemma RoleEmojiKeepsIds(g: GuildState, id: nat, emoji: string)
    requires IdsBelowNext(g)
    ensures IdsBelowNext(SetRoleEmoji(g, id, emoji))
  {
    var r := SetRoleEmoji(g, id, emoji);
    assert forall i :: 0 <= i < |r.roles| ==> r.roles[i].id == g.roles[i].id;
  }

  class Guild {
    var roles: seq<Role>
    var categories: seq<Category>
    var channels: seq<Channel>
    var grants: seq<Grant>
    var emojis: seq<Emoji>
    var nextId: nat

    function State(): GuildState
      reads this
    {
      GuildState(roles, categories, channels, grants, emojis, nextId)
    }

    /** The guild's identifiers are all below the next one. */
    ghost predicate Valid()
      reads this
    {
      IdsBelowNext(State())
    }

    constructor (s: GuildState)
      requires IdsBelowNext(s)
      ensures State() == s && Valid()
    {
      roles, categories, channels, grants, emojis, nextId := s.roles, s.categories, s.channels, s.grants, s.emojis, s.nextId;
    }

    /** `guild.create_role(name, color, hoist, mentionable, permissions)`. */
    method CreateRole(data: RoleData, succeeds: bool) returns (id: Option<nat>)
      modifies this
      ensures id == if succeeds then Some(old(nextId)) else None
      ensures State() == if succeeds then AddRole(old(State()), data) else old(State())
      ensures old(Valid()) ==> Valid() && (succeeds ==> IdUnused(old(State()), id.value))
    {
      if Valid() {
        AddRoleFresh(State(), data);
      }
      if succeeds {
        id := Some(nextId);
        roles := roles + [Role(nextId, data.name, data.color, data.hoist, data.mentionable, data.permissions, None)];
        nextId := nextId + 1;
      } else {
        id := None;
      }
    }

    /** `role.edit(unicode_emoji=...)`. */
    method EditRoleEmoji(id: nat, emoji: string, succeeds: bool)
      modifies this
      ensures State() == if succeeds then SetRoleEmoji(old(State()), id, emoji) else old(State())
      ensures old(Valid()) ==> Valid()
    {
      if Valid() {
        RoleEmojiKeepsIds(State(), id, emoji);
      }
      if succeeds {
        roles := SetRoleEmoji(State(), id, emoji).roles;
      }
    }

    /** `guild.create_category(name)`. */
    method CreateCategory(name: string, succeeds: bool) returns (id: Option<nat>)
      modifies this
      ensures id == if succeeds then Some(old(nextId)) else None
      ensures State() == if succeeds then AddCategory(old(State()), name) else old(State())
      ensures old(Valid()) ==> Valid() && (succeeds ==> IdUnused(old(State()), id.value))
    {
      if Valid() {
        AddCategoryFresh(State(), name);
      }
      if succeeds {
        id := Some(nextId);
        categories := categories + [Category(nextId, name)];
        nextId := nextId + 1;
      } else {
        id := None;
      }
    }

    /** `guild.create_text_channel`, `create_voice_channel`, `create_news_channel`
        or `create_forum_channel`, by the settings' kind. */
    method CreateChannel(name: string, parent: Option<nat>, settings: ChannelSettings, succeeds: bool)
      returns (id: Option<nat>)
      modifies this
      ensures id == if succeeds then Some(old(nextId)) else None
      ensures State() == if succeeds then AddChannel(old(State()), name, parent, settings) else old(State())
      ensures old(Valid()) ==> Valid() && (succeeds ==> IdUnused(old(State()), id.value))
    {
      if Valid() {
        AddChannelFresh(State(), name, parent, settings);
      }
      if succeeds {
        id := Some(nextId);
        channels := channels + [Channel(nextId, name, parent, settings)];
        nextId := nextId + 1;
      } else {
        id := None;
      }
    }

    /** `target.set_permissions(role, overwrite=...)`. */
    method SetPermissions(grant: Grant, succeeds: bool)
      modifies this
      ensures State() == if succeeds then AddGrant(old(State()), grant) else old(State())
      ensures old(Valid()) ==> Valid()
    {
      if succeeds {
        grants := grants + [grant];
      }
    }

    /** `guild.create_custom_emoji(name, image)`. */
    method CreateEmoji(name: string, succeeds: bool)
      modifies this
      ensures State() == if succeeds then AddEmoji(old(State()), name) else old(State())
      ensures old(Valid()) ==> Valid()
    {
      if Valid() {
        AddEmojiFresh(State(), name);
      }
      if succeeds {
        emojis := emojis + [Emoji(nextId, name)];
        nextId := nextId + 1;
      }
    }
  }

  // ---------------------------------------------------------------------------
  // apply_overwrites

  /** The role `apply_overwrites` picks for an overwrite key: the first created
      role whose identifier, as a decimal string, equals the key. */
  function RoleForKey(created: Created, key: string): (r: Option<nat>)
    ensures r.Some? ==> DecimalString(r.value) == key
    ensures r.None? <==> forall i :: 0 <= i < |created| ==> DecimalString(created[i].value) != key
  {
    if |created| == 0 then None
    else if DecimalString(created[0].value) == key then Some(created[0].value)
    else RoleForKey(created[1..], key)
  }

  /** The guild after the overwrite loop, and whether an exception ended it. */
  datatype Run = Run(guild: GuildState, stopped: bool)

  /** The overwrite loop over `entries` for the object `target`: an entry whose key
      resolves to a created role is set, one that resolves to none is skipped, and
      the first failing `set_permissions` ends the loop. */
  function Overwrite(g: GuildState, target: nat, scope: Scope, entries: Overwrites, created: Created,
                     out: Outcomes): (r: Run)
    ensures r.guild == g.(grants := r.guild.grants)
    ensures |r.guild.grants| >= |g.grants| && r.guild.grants[..|g.grants|] == g.grants
    decreases |entries|
  {
    if |entries| == 0 then Run(g, false)
    else
      var prev := Overwrite(g, target, scope, entries[..|entries| - 1], created, out);
      var e := entries[|entries| - 1];
      if prev.stopped then prev
      else match RoleForKey(created, e.key)
        case None => prev
        case Some(roleId) =>
          if out.permissionSet(scope, |entries| - 1)
          then Run(AddGrant(prev.guild, Grant(target, roleId, e.value.allow, e.value.deny)), false)
          else Run(prev.guild, true)
  }

  /** Every overwrite set is for the target, for a role that `created_roles`
      resolves its key to, with the (allow, deny) pair stored under that key. */
  predicate GrantFrom(grant: Grant, target: nat, entries: Overwrites, created: Created) {
    && grant.targetId == target
    && RoleForKey(created, DecimalString(grant.roleId)) == Some(grant.roleId)
    && Entry(DecimalString(grant.roleId), PermissionPair(grant.allow, grant.deny)) in entries
  }

  lemma {:induction false} OverwriteGrantsResolve(g: GuildState, target: nat, scope: Scope, entries: Overwrites,
                                                  created: Created, out: Outcomes)
    ensures forall k :: |g.grants| <= k < |Overwrite(g, target, scope, entries, created, out).guild.grants| ==>
      GrantFrom(Overwrite(g, target, scope, entries, created, out).guild.grants[k], target, entries, created)
    decreases |entries|
  {
    if |entries| > 0 {
      var init := entries[..|entries| - 1];
      OverwriteGrantsResolve(g, target, scope, init, created, out);
      var prev := Overwrite(g, target, scope, init, created, out);
      var r := Overwrite(g, target, scope, entries, created, out);
      forall k | |g.grants| <= k < |r.guild.grants| ensures GrantFrom(r.guild.grants[k], target, entries, created) {
        if k < |prev.guild.grants| {
          assert r.guild.grants[k] == prev.guild.grants[k];
          assert GrantFrom(prev.guild.grants[k], target, init, created);
          assert forall e :: e in init ==> e in entries;
        } else {
          var e := entries[|entries| - 1];
          var roleId := RoleForKey(created, e.key).value;
          assert r.guild.grants[k] == Grant(target, roleId, e.value.allow, e.value.deny);
          assert e == Entry(DecimalString(roleId), PermissionPair(e.value.allow, e.value.deny));
        }
      }
    }
  }

  /** Once a `set_permissions` call has failed, the remaining entries are not
      looked at: the loop over any longer list gives the same guild. */
  lemma {:induction false} OverwriteStopsAtFailure(g: GuildState, target: nat, scope: Scope, entries: Overwrites,
                                                   created: Created, out: Outcomes, i: nat)
    requires i <= |entries|
    requires Overwrite(g, target, scope, entries[..i], created, out).stopped
    ensures Overwrite(g, target, scope, entries, created, out) == Overwrite(g, target, scope, entries[..i], created, out)
    decreases |entries| - i
  {
    if i < |entries| {
      var next := entries[..i + 1];
      assert next[..i] == entries[..i];
      OverwriteStopsAtFailure(g, target, scope, entries, created, out, i + 1);
    } else {
      assert entries[..i] == entries;
    }
  }

  /** Keys that resolve to no created role (members, or roles not restored) are
      skipped: with no key resolving, nothing is set. */
  lemma {:induction false} OverwriteSkipsUnknownKeys(g: GuildState, target: nat, scope: Scope, entries: Overwrites,
                                                     created: Created, out: Outcomes)
    requires forall j :: 0 <= j < |entries| ==> RoleForKey(created, entries[j].key).None?
    ensures Overwrite(g, target, scope, entries, created, out) == Run(g, false)
    decreases |entries|
  {
    if |entries| > 0 {
      OverwriteSkipsUnknownKeys(g, target, scope, entries[..|entries| - 1], created, out);
    }
  }

  /** One more entry of a loop that has not stopped. */
  lemma OverwriteStep(g: GuildState, target: nat, scope: Scope, entries: Overwrites, created: Created,
                      out: Outcomes, i: nat)
    requires i < |entries|
    requires !Overwrite(g, target, scope, entries[..i], created, out).stopped
    ensures var prev, e := Overwrite(g, target, scope, entries[..i], created, out), entries[i];
      Overwrite(g, target, scope, entries[..i + 1], created, out) ==
        if RoleForKey(created, e.key).None? then prev
        else if out.permissionSet(scope, i)
        then Run(AddGrant(prev.guild, Grant(target, RoleForKey(created, e.key).value, e.value.allow, e.value.deny)), false)
        else Run(prev.guild, true)
  {
    assert entries[..i + 1][..i] == entries[..i];
    assert entries[..i + 1][i] == entries[i];
  }

  /** One pass of the overwrite loop: an entry whose key resolves to a created role
      is set, and a failing `set_permissions` stops the loop. */
  method ApplyOverwrite(g: Guild, target: nat, scope: Scope, e: Entry<string, PermissionPair>, i: nat,
                        created: Created, out: Outcomes) returns (stopped: bool)
    modifies g
    ensures Run(g.State(), stopped) ==
      if RoleForKey(created, e.key).None? then Run(old(g.State()), false)
      else if out.permissionSet(scope, i)
      then Run(AddGrant(old(g.State()), Grant(target, RoleForKey(created, e.key).value, e.value.allow, e.value.deny)), false)
      else Run(old(g.State()), true)
  {
    stopped := false;
    var role := RoleForKey(created, e.key);
    if role.Some? {
      var ok := out.permissionSet(scope, i);
      g.SetPermissions(Grant(target, role.value, e.value.allow, e.value.deny), ok);
      stopped := !ok;
    }
  }

  /** `apply_overwrites`: a `set_permissions` that raises ends the loop, and the
      exception is caught there. */
  method ApplyOverwrites(g: Guild, target: nat, scope: Scope, entries: Overwrites, created: Created, out: Outcomes)
    modifies g
    ensures g.State() == Overwrite(old(g.State()), target, scope, entries, created, out).guild
  {
    ghost var g0 := g.State();
    var i := 0;
    var stopped := false;
    while i < |entries| && !stopped
      invariant i <= |entries|
      invariant Run(g.State(), stopped) == Overwrite(g0, target, scope, entries[..i], created, out)
    {
      OverwriteStep(g0, target, scope, entries, created, out, i);
      stopped := ApplyOverwrite(g, target, scope, entries[i], i, created, out);
      i := i + 1;
    }
    if stopped {
      OverwriteStopsAtFailure(g0, target, scope, entries, created, out, i);
    } else {
      assert entries[..i] == entries;
    }
  }

  // ---------------------------------------------------------------------------
  // Roles

  /** `{role.name: role for role in guild.roles}`: a later role with the same name
      replaces an earlier one. */
  function NameIndex(roles: seq<Role>): (m: map<string, Role>)
    ensures forall i :: 0 <= i < |roles| ==> roles[i].name in m
    ensures forall n :: n in m ==> m[n] in roles && m[n].name == n
    decreases |roles|
  {
    if |roles| == 0 then map[]
    else NameIndex(roles[..|roles| - 1])[roles[|roles| - 1].name := roles[|roles| - 1]]
  }

  datatype Stage = Stage(guild: GuildState, created: Created)

  /** One role record: a name present at the start is reused, otherwise the role
      is created (and recorded) and then given its unicode emoji if it has one. */
  function RoleStep(s: Stage, existing: map<string, Role>, data: RoleData, i: nat, out: Outcomes): (r: Stage)
    ensures |r.guild.roles| == |s.guild.roles| + (if data.name !in existing && out.roleCreated(i) then 1 else 0)
    ensures forall j :: 0 <= j < |s.guild.roles| ==> r.guild.roles[j].name == s.guild.roles[j].name
    ensures |r.guild.roles| > |s.guild.roles| ==> r.guild.roles[|s.guild.roles|].name == data.name
  {
    if data.name in existing then Stage(s.guild, Put(s.created, data.name, existing[data.name].id))
    else if !out.roleCreated(i) then s
    else
      var id := s.guild.nextId;
      var g := AddRole(s.guild, data);
      var g' := if TruthyText(data.unicodeEmoji) && out.roleEmojiSet(i) then SetRoleEmoji(g, id, data.unicodeEmoji.value) else g;
      Stage(g', Put(s.created, data.name, id))
  }

  /** The role loop of `restore_server` over the first `|roles|` records. */
  function RoleStage(g: GuildState, existing: map<string, Role>, roles: seq<RoleData>, out: Outcomes): (r: Stage)
    ensures r.guild.categories == g.categories && r.guild.channels == g.channels
    ensures r.guild.grants == g.grants && r.guild.emojis == g.emojis
    ensures |r.guild.roles| >= |g.roles|
    ensures forall i :: 0 <= i < |g.roles| ==> r.guild.roles[i].name == g.roles[i].name
    decreases |roles|
  {
    if |roles| == 0 then Stage(g, [])
    else RoleStep(RoleStage(g, existing, roles[..|roles| - 1], out), existing, roles[|roles| - 1], |roles| - 1, out)
  }

  /** Role record `i` leads to a `create_role` call that succeeds. */
  function RoleIsCreated(existing: map<string, Role>, roles: seq<RoleData>, out: Outcomes): nat -> bool {
    (i: nat) => i < |roles| && roles[i].name !in existing && out.roleCreated(i)
  }

  /** One role is added per record whose name was absent and whose creation succeeded. */
  lemma {:induction false} RoleStageCount(g: GuildState, existing: map<string, Role>, roles: seq<RoleData>,
                                          out: Outcomes, k: nat)
    requires k <= |roles|
    ensures |RoleStage(g, existing, roles[..k], out).guild.roles| == |g.roles| + CountBelow(k, RoleIsCreated(existing, roles, out))
    decreases k
  {
    if k > 0 {
      assert roles[..k][..k - 1] == roles[..k - 1];
      RoleStageCount(g, existing, roles, out, k - 1);
      assert RoleIsCreated(existing, roles, out)(k - 1) <==> roles[k - 1].name !in existing && out.roleCreated(k - 1);
    }
  }

  /** No role the stage adds has a name that was present at the start. */
  lemma {:induction false} RoleStageNewNames(g: GuildState, existing: map<string, Role>, roles: seq<RoleData>,
                                             out: Outcomes)
    ensures forall j :: |g.roles| <= j < |RoleStage(g, existing, roles, out).guild.roles| ==>
      RoleStage(g, existing, roles, out).guild.roles[j].name !in existing
    decreases |roles|
  {
    if |roles| > 0 {
      var init := roles[..|roles| - 1];
      RoleStageNewNames(g, existing, init, out);
      var prev := RoleStage(g, existing, init, out);
      var r := RoleStep(prev, existing, roles[|roles| - 1], |roles| - 1, out);
      assert RoleStage(g, existing, roles, out) == r;
      forall j | |g.roles| <= j < |r.guild.roles| ensures r.guild.roles[j].name !in existing {
        if j < |prev.guild.roles| {
          assert prev.guild.roles[j].name !in existing;
          assert r.guild.roles[j].name == prev.guild.roles[j].name;
        } else {
          assert r.guild.roles[j].name == roles[|roles| - 1].name;
        }
      }
    }
  }

  /** The roles the stage adds are new roles with names absent at the start, one
      per record whose name was absent and whose creation succeeded, whatever
      happened to the other records. */
  lemma RoleStageCreates(g: GuildState, existing: map<string, Role>, roles: seq<RoleData>, out: Outcomes, k: nat)
    requires k <= |roles|
    ensures var r := RoleStage(g, existing, roles[..k], out);
      && |r.guild.roles| == |g.roles| + CountBelow(k, RoleIsCreated(existing, roles, out))
      && forall j :: |g.roles| <= j < |r.guild.roles| ==> r.guild.roles[j].name !in existing
  {
    RoleStageCount(g, existing, roles, out, k);
    RoleStageNewNames(g, existing, roles[..k], out);
  }

  /** A record whose name exists at the start is bound to the existing role. */
  lemma {:induction false} RoleStageReuses(g: GuildState, existing: map<string, Role>, roles: seq<RoleData>,
                                           out: Outcomes, i: nat)
    requires i < |roles| && roles[i].name in existing
    ensures Get(RoleStage(g, existing, roles, out).created, roles[i].name) == Some(existing[roles[i].name].id)
    decreases |roles|
  {
    var init := roles[..|roles| - 1];
    var last := roles[|roles| - 1];
    var prev := RoleStage(g, existing, init, out);
    if i == |roles| - 1 {
      GetPutSame(prev.created, last.name, existing[last.name].id);
    } else {
      RoleStageReuses(g, existing, init, out, i);
      if last.name != roles[i].name {
        var s := RoleStep(prev, existing, last, |roles| - 1, out);
        if s != prev {
          var v := if last.name in existing then existing[last.name].id else prev.guild.nextId;
          GetPutOther(prev.created, last.name, v, roles[i].name);
        }
      } else {
        GetPutSame(prev.created, last.name, existing[last.name].id);
      }
    }
  }

  /** When every name in the snapshot is already a role of the guild, the role
      loop creates nothing. */
  lemma {:induction false} RoleStageAllExisting(g: GuildState, existing: map<string, Role>, roles: seq<RoleData>,
                                                out: Outcomes)
    requires forall i :: 0 <= i < |roles| ==> roles[i].name in existing
    ensures RoleStage(g, existing, roles, out).guild.roles == g.roles
    decreases |roles|
  {
    if |roles| > 0 {
      RoleStageAllExisting(g, existing, roles[..|roles| - 1], out);
    }
  }

  /** Some role of the guild has that name. */
  predicate NamePresent(roles: seq<Role>, n: string) {
    exists j :: 0 <= j < |roles| && roles[j].name == n
  }

  /** When every creation succeeds, each name of the snapshot is a role name of
      the guild afterwards. */
  lemma {:induction false} RoleStageCoversNames(g: GuildState, existing: map<string, Role>, roles: seq<RoleData>,
                                                out: Outcomes)
    requires forall n :: n in existing ==> NamePresent(g.roles, n)
    requires forall i :: 0 <= i < |roles| ==> out.roleCreated(i)
    ensures forall i :: 0 <= i < |roles| ==> NamePresent(RoleStage(g, existing, roles, out).guild.roles, roles[i].name)
    decreases |roles|
  {
    if |roles| > 0 {
      var init := roles[..|roles| - 1];
      var last := roles[|roles| - 1];
      RoleStageCoversNames(g, existing, init, out);
      var prev := RoleStage(g, existing, init, out);
      var r := RoleStep(prev, existing, last, |roles| - 1, out);
      assert RoleStage(g, existing, roles, out) == r;
      forall i | 0 <= i < |roles| ensures NamePresent(r.guild.roles, roles[i].name) {
        if i < |roles| - 1 {
          assert NamePresent(prev.guild.roles, init[i].name);
          var j :| 0 <= j < |prev.guild.roles| && prev.guild.roles[j].name == init[i].name;
          assert r.guild.roles[j].name == roles[i].name;
        } else if last.name in existing {
          var j :| 0 <= j < |g.roles| && g.roles[j].name == last.name;
          assert prev.guild.roles[j].name == last.name;
          assert r.guild.roles[j].name == last.name;
        } else {
          assert r.guild.roles[|prev.guild.roles|].name == last.name;
        }
      }
    }
  }

  // ---------------------------------------------------------------------------
  // Categories

  /** One category record: always created anew, recorded, then given its overwrites. */
  function CategoryStep(s: Stage, data: CategoryData, i: nat, roles: Created, out: Outcomes): Stage {
    if !out.categoryCreated(i) then s
    else
      var id := s.guild.nextId;
      var g := AddCategory(s.guild, data.name);
      Stage(Overwrite(g, id, CategoryScope(i), data.overwrites, roles, out).guild, Put(s.created, data.name, id))
  }

  function CategoryStage(g: GuildState, cats: seq<CategoryData>, roles: Created, out: Outcomes): (r: Stage)
    ensures r.guild.roles == g.roles && r.guild.channels == g.channels && r.guild.emojis == g.emojis
    ensures |r.guild.categories| >= |g.categories| && r.guild.categories[..|g.categories|] == g.categories
    ensures |r.guild.grants| >= |g.grants| && r.guild.grants[..|g.grants|] == g.grants
    decreases |cats|
  {
    if |cats| == 0 then Stage(g, [])
    else CategoryStep(CategoryStage(g, cats[..|cats| - 1], roles, out), cats[|cats| - 1], |cats| - 1, roles, out)
  }

  /** Every category record whose creation succeeds adds one new category with its
      name, whether or not the guild already has a category of that name, and
      whatever happened to the other records. */
  lemma {:induction false} CategoryStageCreates(g: GuildState, cats: seq<CategoryData>, roles: Created,
                                                out: Outcomes, k: nat)
    requires k <= |cats|
    ensures |CategoryStage(g, cats[..k], roles, out).guild.categories| == |g.categories| + CountBelow(k, out.categoryCreated)
    decreases k
  {
    if k > 0 {
      assert cats[..k][..k - 1] == cats[..k - 1];
      CategoryStageCreates(g, cats, roles, out, k - 1);
      var prev := CategoryStage(g, cats[..k - 1], roles, out);
      assert CategoryStage(g, cats[..k], roles, out) == CategoryStep(prev, cats[k - 1], k - 1, roles, out);
      CategoryStepCount(prev, cats[k - 1], k - 1, roles, out);
    }
  }

  /** One category record adds one category exactly when its creation succeeds. */
  lemma CategoryStepCount(s: Stage, data: CategoryData, i: nat, roles: Created, out: Outcomes)
    ensures |CategoryStep(s, data, i, roles, out).guild.categories| == |s.guild.categories| + if out.categoryCreated(i) then 1 else 0
  {
  }

  // ---------------------------------------------------------------------------
  // Channels

  /** The parent a channel record is given: looked up only when `category_id` is
      truthy, and then by comparing the CHANNEL's own name with the names of the
      created categories; the stored `category_id` is not used otherwise. */
  function ParentOf(data: ChannelData, cats: Created): (r: Option<nat>)
    ensures r.Some? <==> TruthyId(data.categoryId) && Get(cats, data.name).Some?
    ensures r.Some? ==> Entry(data.name, r.value) in cats
  {
    if TruthyId(data.categoryId) then Get(cats, data.name) else None
  }

  /** A text channel with category 7 whose name is no category's name gets no
      parent, even though its category was restored. */
  lemma ParentIgnoresCategoryId()
    ensures ParentOf(ChannelData("general", "text", 0, Some(7), None, None, None, None, None, []),
                     [Entry("Text", 7)]) == None
  {
  }

  /** The four known type tags. */
  predicate KnownKind(kind: string) {
    kind == "text" || kind == "voice" || kind == "news" || kind == "forum"
  }

  /** The arguments passed to the `create_*_channel` call of a known type, with the
      source's defaults for absent keys. */
  function SettingsFor(data: ChannelData): ChannelSettings
    requires KnownKind(data.kind)
  {
    if data.kind == "text" then TextSettings(data.topic, GetOr(data.slowmode, DefaultSlowmode), GetOr(data.nsfw, DefaultNsfw))
    else if data.kind == "voice" then VoiceSettings(GetOr(data.bitrate, DefaultBitrate), GetOr(data.userLimit, DefaultUserLimit))
    else if data.kind == "news" then NewsSettings(data.topic, GetOr(data.nsfw, DefaultNsfw))
    else ForumSettings(data.topic, GetOr(data.nsfw, DefaultNsfw))
  }

  /** Absent keys take the defaults: slowmode 0, not NSFW, 64000 bit/s, no user limit. */
  lemma SettingsDefaults(name: string, kind: string)
    requires KnownKind(kind)
    ensures var data := ChannelData(name, kind, 0, None, None, None, None, None, None, []);
      SettingsFor(data) == (if kind == "text" then TextSettings(None, 0, false)
                            else if kind == "voice" then VoiceSettings(64000, 0)
                            else if kind == "news" then NewsSettings(None, false)
                            else ForumSettings(None, false))
  {
  }

  /** The stage state for channels: the guild and the `new_channel` variable
      (`None` while it is unbound). */
  datatype ChannelRun = ChannelRun(guild: GuildState, last: Option<nat>)

  /** One channel record. A known type creates the channel and applies its
      overwrites to it. A record of another type creates nothing, and its
      overwrites go to `new_channel` as the previous records left it (if unbound,
      the error is caught and nothing happens). A failed creation leaves
      `new_channel` as it was. */
  function ChannelStep(s: ChannelRun, data: ChannelData, i: nat, cats: Created, roles: Created, out: Outcomes): ChannelRun {
    if KnownKind(data.kind) then
      if !out.channelCreated(i) then s
      else
        var id := s.guild.nextId;
        var g := AddChannel(s.guild, data.name, ParentOf(data, cats), SettingsFor(data));
        ChannelRun(Overwrite(g, id, ChannelScope(i), data.overwrites, roles, out).guild, Some(id))
    else if s.last.Some? then
      ChannelRun(Overwrite(s.guild, s.last.value, ChannelScope(i), data.overwrites, roles, out).guild, s.last)
    else s
  }

  function ChannelStage(g: GuildState, chans: seq<ChannelData>, cats: Created, roles: Created, out: Outcomes): (r: ChannelRun)
    ensures r.guild.roles == g.roles && r.guild.categories == g.categories && r.guild.emojis == g.emojis
    ensures |r.guild.channels| >= |g.channels| && r.guild.channels[..|g.channels|] == g.channels
    ensures |r.guild.grants| >= |g.grants| && r.guild.grants[..|g.grants|] == g.grants
    decreases |chans|
  {
    if |chans| == 0 then ChannelRun(g, None)
    else ChannelStep(ChannelStage(g, chans[..|chans| - 1], cats, roles, out), chans[|chans| - 1], |chans| - 1, cats, roles, out)
  }

  /** Channel record `i` has a known type and its creation succeeds. */
  function ChannelIsCreated(chans: seq<ChannelData>, out: Outcomes): nat -> bool {
    (i: nat) => i < |chans| && KnownKind(chans[i].kind) && out.channelCreated(i)
  }

  /** One channel per record of a known type whose creation succeeds, whatever
      happened to the other records; each new channel's parent is what `ParentOf`
      gives for its record. */
  lemma {:induction false} ChannelStageCreates(g: GuildState, chans: seq<ChannelData>, cats: Created, roles: Created,
                                               out: Outcomes, k: nat)
    requires k <= |chans|
    ensures |ChannelStage(g, chans[..k], cats, roles, out).guild.channels| == |g.channels| + CountBelow(k, ChannelIsCreated(chans, out))
    decreases k
  {
    if k > 0 {
      assert chans[..k][..k - 1] == chans[..k - 1];
      ChannelStageCreates(g, chans, cats, roles, out, k - 1);
      var prev := ChannelStage(g, chans[..k - 1], cats, roles, out);
      assert ChannelStage(g, chans[..k], cats, roles, out) == ChannelStep(prev, chans[k - 1], k - 1, cats, roles, out);
      ChannelStepCount(prev, chans[k - 1], k - 1, cats, roles, out);
    }
  }

  /** One channel record adds one channel exactly when its type is known and its
      creation succeeds. */
  lemma ChannelStepCount(s: ChannelRun, data: ChannelData, i: nat, cats: Created, roles: Created, out: Outcomes)
    ensures |ChannelStep(s, data, i, cats, roles, out).guild.channels| ==
      |s.guild.channels| + if KnownKind(data.kind) && out.channelCreated(i) then 1 else 0
  {
  }

  // ---------------------------------------------------------------------------
  // Emojis

  /** One emoji record: created only when its download answered 200. */
  function EmojiStep(g: GuildState, data: EmojiData, i: nat, out: Outcomes): GuildState {
    if out.downloadStatus(i) == DownloadOk && out.emojiCreated(i) then AddEmoji(g, data.name) else g
  }

  function EmojiStage(g: GuildState, emojis: seq<EmojiData>, out: Outcomes): (r: GuildState)
    ensures r.roles == g.roles && r.categories == g.categories && r.channels == g.channels && r.grants == g.grants
    ensures |r.emojis| >= |g.emojis| && r.emojis[..|g.emojis|] == g.emojis
    decreases |emojis|
  {
    if |emojis| == 0 then g
    else EmojiStep(EmojiStage(g, emojis[..|emojis| - 1], out), emojis[|emojis| - 1], |emojis| - 1, out)
  }

  function EmojiIsCreated(out: Outcomes): nat -> bool {
    (i: nat) => out.downloadStatus(i) == DownloadOk && out.emojiCreated(i)
  }

  lemma {:induction false} EmojiStageCreates(g: GuildState, emojis: seq<EmojiData>, out: Outcomes, k: nat)
    requires k <= |emojis|
    ensures |EmojiStage(g, emojis[..k], out).emojis| == |g.emojis| + CountBelow(k, EmojiIsCreated(out))
    decreases k
  {
    if k > 0 {
      assert emojis[..k][..k - 1] == emojis[..k - 1];
      EmojiStageCreates(g, emojis, out, k - 1);
      assert EmojiStage(g, emojis[..k], out) == EmojiStep(EmojiStage(g, emojis[..k - 1], out), emojis[k - 1], k - 1, out);
    }
  }

  // ---------------------------------------------------------------------------
  // restore_server

  /** The guild after `restore_server`: roles, then categories, then channels,
      then emojis, with the existing roles indexed by name at the start. */
  function Restored(g: GuildState, snap: Snapshot, out: Outcomes): GuildState {
    var rs := RoleStage(g, NameIndex(g.roles), snap.roles, out);
    var cs := CategoryStage(rs.guild, snap.categories, rs.created, out);
    var ch := ChannelStage(cs.guild, snap.channels, cs.created, rs.created, out);
    EmojiStage(ch.guild, snap.emojis, out)
  }

  /** Every name the index holds is the name of one of the roles. */
  lemma NameIndexPresent(roles: seq<Role>)
    ensures forall n :: n in NameIndex(roles) ==> NamePresent(roles, n)
  {
    var m := NameIndex(roles);
    forall n | n in m ensures NamePresent(roles, n) {
      var j :| 0 <= j < |roles| && roles[j] == m[n];
    }
  }

  /** When every role creation succeeds, the role stage leaves every snapshot
      name in the guild's name index. */
  lemma RoleStageIndexesSnapshot(g: GuildState, roles: seq<RoleData>, out: Outcomes)
    requires forall i :: 0 <= i < |roles| ==> out.roleCreated(i)
    ensures var after := RoleStage(g, NameIndex(g.roles), roles, out).guild.roles;
      forall i :: 0 <= i < |roles| ==> roles[i].name in NameIndex(after)
  {
    NameIndexPresent(g.roles);
    RoleStageCoversNames(g, NameIndex(g.roles), roles, out);
    var after := RoleStage(g, NameIndex(g.roles), roles, out).guild.roles;
    forall i | 0 <= i < |roles| ensures roles[i].name in NameIndex(after) {
      assert NamePresent(after, roles[i].name);
    }
  }

  /** Restoring a snapshot into the guild it produced when every role creation
      succeeded a first time creates no role the second time. */
  lemma RestoreTwiceCreatesNoRoles(g: GuildState, snap: Snapshot, out1: Outcomes, out2: Outcomes)
    requires forall i :: 0 <= i < |snap.roles| ==> out1.roleCreated(i)
    ensures Restored(Restored(g, snap, out1), snap, out2).roles == Restored(g, snap, out1).roles
  {
    var g1 := Restored(g, snap, out1);
    assert g1.roles == RoleStage(g, NameIndex(g.roles), snap.roles, out1).guild.roles;
    RoleStageIndexesSnapshot(g, snap.roles, out1);
    RoleStageAllExisting(g1, NameIndex(g1.roles), snap.roles, out2);
  }

  /** The restore adds one role per snapshot role with a new name whose creation succeeded. */
  lemma RestoredRoleCount(g: GuildState, snap: Snapshot, out: Outcomes)
    ensures |Restored(g, snap, out).roles| == |g.roles| + CountBelow(|snap.roles|, RoleIsCreated(NameIndex(g.roles), snap.roles, out))
  {
    var rs := RoleStage(g, NameIndex(g.roles), snap.roles, out);
    assert Restored(g, snap, out).roles == rs.guild.roles;
    RoleStageCount(g, NameIndex(g.roles), snap.roles, out, |snap.roles|);
    assert snap.roles[..|snap.roles|] == snap.roles;
  }

  /** The restore adds one category per successful `create_category`. */
  lemma RestoredCategoryCount(g: GuildState, snap: Snapshot, out: Outcomes)
    ensures |Restored(g, snap, out).categories| == |g.categories| + CountBelow(|snap.categories|, out.categoryCreated)
  {
    var rs := RoleStage(g, NameIndex(g.roles), snap.roles, out);
    CategoryStageCreates(rs.guild, snap.categories, rs.created, out, |snap.categories|);
    assert snap.categories[..|snap.categories|] == snap.categories;
  }

  /** The restore adds one channel per channel of a known kind whose creation succeeded. */
  lemma RestoredChannelCount(g: GuildState, snap: Snapshot, out: Outcomes)
    ensures |Restored(g, snap, out).channels| == |g.channels| + CountBelow(|snap.channels|, ChannelIsCreated(snap.channels, out))
  {
    var rs := RoleStage(g, NameIndex(g.roles), snap.roles, out);
    var cs := CategoryStage(rs.guild, snap.categories, rs.created, out);
    ChannelStageCreates(cs.guild, snap.channels, cs.created, rs.created, out, |snap.channels|);
    assert snap.channels[..|snap.channels|] == snap.channels;
  }

  /** The restore adds one emoji per download answered 200 whose creation succeeded. */
  lemma RestoredEmojiCount(g: GuildState, snap: Snapshot, out: Outcomes)
    ensures |Restored(g, snap, out).emojis| == |g.emojis| + CountBelow(|snap.emojis|, EmojiIsCreated(out))
  {
    var rs := RoleStage(g, NameIndex(g.roles), snap.roles, out);
    var cs := CategoryStage(rs.guild, snap.categories, rs.created, out);
    var ch := ChannelStage(cs.guild, snap.channels, cs.created, rs.created, out);
    EmojiStageCreates(ch.guild, snap.emojis, out, |snap.emojis|);
    assert snap.emojis[..|snap.emojis|] == snap.emojis;
  }

  method RestoreRoles(g: Guild, existing: map<string, Role>, roles: seq<RoleData>, out: Outcomes)
    returns (created: Created)
    modifies g
    ensures Stage(g.State(), created) == RoleStage(old(g.State()), existing, roles, out)
  {
    ghost var g0 := g.State();
    created := [];
    var i := 0;
    while i < |roles|
      invariant i <= |roles|
      invariant Stage(g.State(), created) == RoleStage(g0, existing, roles[..i], out)
    {
      var data := roles[i];
      assert roles[..i + 1][..i] == roles[..i];
      if data.name in existing {
        created := Put(created, data.name, existing[data.name].id);
      } else {
        var id := g.CreateRole(data, out.roleCreated(i));
        if id.Some? {
          created := Put(created, data.name, id.value);
          if TruthyText(data.unicodeEmoji) {
            g.EditRoleEmoji(id.value, data.unicodeEmoji.value, out.roleEmojiSet(i));
          }
        }
      }
      i := i + 1;
    }
    assert roles[..i] == roles;
  }

  method RestoreCategories(g: Guild, cats: seq<CategoryData>, roles: Created, out: Outcomes)
    returns (created: Created)
    modifies g
    ensures Stage(g.State(), created) == CategoryStage(old(g.State()), cats, roles, out)
  {
    ghost var g0 := g.State();
    created := [];
    var i := 0;
    while i < |cats|
      invariant i <= |cats|
      invariant Stage(g.State(), created) == CategoryStage(g0, cats[..i], roles, out)
    {
      var data := cats[i];
      assert cats[..i + 1][..i] == cats[..i];
      var id := g.CreateCategory(data.name, out.categoryCreated(i));
      if id.Some? {
        created := Put(created, data.name, id.value);
        ApplyOverwrites(g, id.value, CategoryScope(i), data.overwrites, roles, out);
      }
      i := i + 1;
    }
    assert cats[..i] == cats;
  }

  method RestoreChannels(g: Guild, chans: seq<ChannelData>, cats: Created, roles: Created, out: Outcomes)
    modifies g
    ensures g.State() == ChannelStage(old(g.State()), chans, cats, roles, out).guild
  {
    ghost var g0 := g.State();
    var newChannel: Option<nat> := None;
    var i := 0;
    while i < |chans|
      invariant i <= |chans|
      invariant ChannelRun(g.State(), newChannel) == ChannelStage(g0, chans[..i], cats, roles, out)
    {
      var data := chans[i];
      assert chans[..i + 1][..i] == chans[..i];
      var parent := ParentOf(data, cats);
      if KnownKind(data.kind) {
        var id := g.CreateChannel(data.name, parent, SettingsFor(data), out.channelCreated(i));
        if id.Some? {
          newChannel := id;
          ApplyOverwrites(g, id.value, ChannelScope(i), data.overwrites, roles, out);
        }
      } else if newChannel.Some? {
        ApplyOverwrites(g, newChannel.value, ChannelScope(i), data.overwrites, roles, out);
      }
      i := i + 1;
    }
    assert chans[..i] == chans;
  }

  method RestoreEmojis(g: Guild, emojis: seq<EmojiData>, out: Outcomes)
    modifies g
    ensures g.State() == EmojiStage(old(g.State()), emojis, out)
  {
    ghost var g0 := g.State();
    var i := 0;
    while i < |emojis|
      invariant i <= |emojis|
      invariant g.State() == EmojiStage(g0, emojis[..i], out)
    {
      assert emojis[..i + 1][..i] == emojis[..i];
      var status := out.downloadStatus(i);
      if status == DownloadOk {
        g.CreateEmoji(emojis[i].name, out.emojiCreated(i));
      }
      i := i + 1;
    }
    assert emojis[..i] == emojis;
  }

  /** `restore_server`: every failure inside is caught per entity, so it returns
      true. */
  method RestoreServer(g: Guild, snap: Snapshot, out: Outcomes) returns (ok: bool)
    modifies g
    ensures ok
    ensures g.State() == Restored(old(g.State()), snap, out)
  {
    var existing := NameIndex(g.roles);
    var createdRoles := RestoreRoles(g, existing, snap.roles, out);
    var createdCategories := RestoreCategories(g, snap.categories, createdRoles, out);
    RestoreChannels(g, snap.channels, createdCategories, createdRoles, out);
    RestoreEmojis(g, snap.emojis, out);
    ok := true;
  }
}
