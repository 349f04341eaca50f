/**
 * The GUILD_DELETE gateway event handler of the D++ Discord library and the
 * in-memory caches it updates.  The guild, emoji, role, channel and user
 * caches are maps keyed by snowflake id; a guild lists the ids of its emojis,
 * roles and channels and holds its members keyed by user id.
 */
module GuildEvents {
  import opened Wrappers

  /** A Discord snowflake: an unsigned 64-bit id. */
  type Snowflake = x: int | 0 <= x < 0x1_0000_0000_0000_0000

  /** The guild flag bit that marks a guild as temporarily unavailable. */
  const G_UNAVAILABLE: bv32 := 0x2

  datatype GuildMember = GuildMember(guildId: Snowflake, userId: Snowflake)

  datatype Guild = Guild(
    id: Snowflake,
    name: string,
    flags: bv32,
    emojis: seq<Snowflake>,
    roles: seq<Snowflake>,
    channels: seq<Snowflake>,
    members: map<Snowflake, GuildMember>)

  datatype Emoji = Emoji(id: Snowflake, name: string)

  datatype Role = Role(id: Snowflake, name: string)

  datatype Channel = Channel(id: Snowflake, name: string)

  /** A cached user; `refcount` counts the cached guilds the user is a member of. */
  datatype User = User(id: Snowflake, username: string, refcount: int)

  /** The contents of all five caches at one moment. */
  datatype CacheState = CacheState(
    guilds: map<Snowflake, Guild>,
    emojis: map<Snowflake, Emoji>,
    roles: map<Snowflake, Role>,
    channels: map<Snowflake, Channel>,
    users: map<Snowflake, User>)

  /** What the registered guild_delete callback receives: the raw event text and the guild. */
  datatype GuildDeleteEvent = GuildDeleteEvent(raw: string, deleted: Guild)

  /** Every cache stores each record under that record's own id. */
  ghost predicate ValidState(s: CacheState) {
    && (forall k :: k in s.guilds ==> s.guilds[k].id == k)
    && (forall k :: k in s.emojis ==> s.emojis[k].id == k)
    && (forall k :: k in s.roles ==> s.roles[k].id == k)
    && (forall k :: k in s.channels ==> s.channels[k].id == k)
    && (forall k :: k in s.users ==> s.users[k].id == k)
  }

  /** A guild's member map is keyed by the members' user ids. */
  ghost predicate MembersByUser(g: Guild) {
    forall k :: k in g.members ==> g.members[k].userId == k
  }

  /** The ids an id vector lists, as a set. */
  function Listed(ids: seq<Snowflake>): set<Snowflake> {
    set x | x in ids
  }

  /** The members among `keys` whose user is `u`. */
  function Referrers(members: map<Snowflake, GuildMember>, keys: set<Snowflake>, u: Snowflake): set<Snowflake> {
    set k | k in members && k in keys && members[k].userId == u
  }

  /** The number of members among `keys` whose user is `u`. */
  function References(members: map<Snowflake, GuildMember>, keys: set<Snowflake>, u: Snowflake): nat {
    |Referrers(members, keys, u)|
  }

  /** A user whose refcount drops by `n` stays cached unless it was touched and fell below 1. */
  predicate Survives(u: User, n: nat) {
    n == 0 || u.refcount - n >= 1
  }

  /** The user cache after every member in `keys` has released one reference on its user. */
  function Released(users: map<Snowflake, User>, members: map<Snowflake, GuildMember>, keys: set<Snowflake>): map<Snowflake, User> {
    map u | u in users && Survives(users[u], References(members, keys, u))
      :: users[u].(refcount := users[u].refcount - References(members, keys, u))
  }

  /** One member releasing its user: decrement the refcount, evict the user below 1. */
  function ReleaseOne(users: map<Snowflake, User>, uid: Snowflake): map<Snowflake, User> {
    if uid !in users then users
    else if users[uid].refcount - 1 < 1 then users - {uid}
    else users[uid := users[uid].(refcount := users[uid].refcount - 1)]
  }

  /** The guild record after the handler: flagged when unavailable, else with no members. */
  function AfterHandler(g: Guild, unavailable: bool): Guild {
    if unavailable then g.(flags := g.flags | G_UNAVAILABLE) else g.(members := map[])
  }

  /** The caches after a GUILD_DELETE event for `id`. */
  function GuildDeleteState(s: CacheState, id: Snowflake, unavailable: bool): CacheState {
    if id !in s.guilds then s
    else
      var g := s.guilds[id];
      if unavailable then s.(guilds := s.guilds[id := AfterHandler(g, true)])
      else CacheState(
        s.guilds - {id},
        s.emojis - Listed(g.emojis),
        s.roles - Listed(g.roles),
        s.channels - Listed(g.channels),
        Released(s.users, g.members, g.members.Keys))
  }

  /** The event handed to the user callback, if any. */
  function Dispatched(s: CacheState, id: Snowflake, unavailable: bool, handlerSet: bool, raw: string): Option<GuildDeleteEvent> {
    if id in s.guilds && handlerSet then Some(GuildDeleteEvent(raw, AfterHandler(s.guilds[id], unavailable)))
    else None
  }

  // ---------------------------------------------------------------------------
  // Lemmas about the user release

  lemma ReferencesNone(members: map<Snowflake, GuildMember>, u: Snowflake)
    ensures References(members, {}, u) == 0
  {
    assert Referrers(members, {}, u) == {};
  }

  lemma ReferencesStep(members: map<Snowflake, GuildMember>, done: set<Snowflake>, k: Snowflake, u: Snowflake)
    requires k in members && k !in done
    ensures References(members, done + {k}, u) == References(members, done, u) + (if members[k].userId == u then 1 else 0)
  {
    var before := Referrers(members, done, u);
    var after := Referrers(members, done + {k}, u);
    if members[k].userId == u {
      assert after == before + {k};
      assert k !in before;
      assert |after| == |before| + 1;
    } else {
      assert after == before;
    }
  }

  /** Releasing no member leaves the user cache as it is. */
  lemma {:induction false} ReleasedNone(users: map<Snowflake, User>, members: map<Snowflake, GuildMember>)
    ensures Released(users, members, {}) == users
  {
    var r := Released(users, members, {});
    forall u | u in users ensures u in r && r[u] == users[u] {
      ReferencesNone(members, u);
    }
  }

  /** Releasing one more member is one ReleaseOne step on the user cache. */
  lemma {:induction false} ReleaseStep(users: map<Snowflake, User>, members: map<Snowflake, GuildMember>, done: set<Snowflake>, k: Snowflake)
    requires k in members && k !in done
    ensures Released(users, members, done + {k}) == ReleaseOne(Released(users, members, done), members[k].userId)
  {
    var uid := members[k].userId;
    var before := Released(users, members, done);
    var after := Released(users, members, done + {k});
    var expected := ReleaseOne(before, uid);
    forall u ensures References(members, done + {k}, u) == References(members, done, u) + (if uid == u then 1 else 0) {
      ReferencesStep(members, done, k, u);
    }
    forall u ensures (u in after) == (u in expected) && (u in after ==> after[u] == expected[u]) {
    }
    assert after == expected;
  }

  /**
   * A deleted guild whose members are keyed by user id takes exactly one
   * reference from each member's cached user, and evicts that user exactly
   * when the new refcount is below 1.
   */
  lemma {:induction false} DeleteReleasesEachMemberOnce(s: CacheState, id: Snowflake)
    requires id in s.guilds && MembersByUser(s.guilds[id])
    ensures var r := GuildDeleteState(s, id, false).users;
            var g := s.guilds[id];
            && r.Keys <= s.users.Keys
            && (forall u :: u in s.users && u in g.members ==>
                  (u in r <==> s.users[u].refcount - 1 >= 1)
                  && (u in r ==> r[u] == s.users[u].(refcount := s.users[u].refcount - 1)))
            && (forall u :: u in s.users && u !in g.members ==> u in r && r[u] == s.users[u])
  {
    var g := s.guilds[id];
    forall u: Snowflake ensures References(g.members, g.members.Keys, u) == (if u in g.members then 1 else 0) {
      var refs := Referrers(g.members, g.members.Keys, u);
      if u in g.members {
        assert refs == {u};
      } else {
        assert refs == {};
      }
    }
  }

  /** A user no member of the deleted guild refers to keeps its entry and refcount. */
  lemma {:induction false} UnreferencedUsersKept(s: CacheState, id: Snowflake, u: Snowflake)
    requires id in s.guilds && u in s.users
    requires forall k :: k in s.guilds[id].members ==> s.guilds[id].members[k].userId != u
    ensures var r := GuildDeleteState(s, id, false).users;
            u in r && r[u] == s.users[u]
  {
    var g := s.guilds[id];
    assert Referrers(g.members, g.members.Keys, u) == {};
  }

  // ---------------------------------------------------------------------------
  // Lemmas about the whole handler

  /** An event for an uncached guild changes nothing and dispatches nothing. */
  lemma UnknownGuildIgnored(s: CacheState, id: Snowflake, unavailable: bool, handlerSet: bool, raw: string)
    requires id !in s.guilds
    ensures GuildDeleteState(s, id, unavailable) == s
    ensures Dispatched(s, id, unavailable, handlerSet, raw) == None
  {
  }

  /** An unavailable guild stays cached with the unavailable bit added; nothing else changes. */
  lemma UnavailableOnlyFlags(s: CacheState, id: Snowflake)
    requires id in s.guilds
    ensures var r := GuildDeleteState(s, id, true);
            var g := s.guilds[id];
            && id in r.guilds
            && r.guilds[id] == g.(flags := g.flags | G_UNAVAILABLE)
            && r.guilds[id].flags & G_UNAVAILABLE == G_UNAVAILABLE
            && r.guilds[id].members == g.members
            && (forall k :: k in s.guilds && k != id ==> k in r.guilds && r.guilds[k] == s.guilds[k])
            && r.guilds.Keys == s.guilds.Keys
            && r.emojis == s.emojis && r.roles == s.roles
            && r.channels == s.channels && r.users == s.users
  {
  }

  /** Marking a guild unavailable a second time has no further effect. */
  lemma UnavailableIdempotent(s: CacheState, id: Snowflake)
    ensures var once := GuildDeleteState(s, id, true);
            GuildDeleteState(once, id, true) == once
  {
    if id in s.guilds {
      var g := s.guilds[id];
      var f := g.flags | G_UNAVAILABLE;
      assert f | G_UNAVAILABLE == f;
      assert GuildDeleteState(s, id, true).guilds[id := AfterHandler(AfterHandler(g, true), true)]
          == GuildDeleteState(s, id, true).guilds;
    }
  }

  /** A guild that is really gone leaves the guild cache, and only that guild does. */
  lemma DeletedGuildRemoved(s: CacheState, id: Snowflake)
    requires id in s.guilds
    ensures var r := GuildDeleteState(s, id, false);
            && id !in r.guilds
            && (forall k :: k != id ==> (k in r.guilds <==> k in s.guilds))
            && (forall k :: k in r.guilds ==> r.guilds[k] == s.guilds[k])
  {
  }

  /**
   * The emojis, roles and channels a deleted guild lists are gone from their
   * caches; ids it does not list keep their records.
   */
  lemma DeletedGuildEntitiesRemoved(s: CacheState, id: Snowflake)
    requires id in s.guilds
    ensures var r := GuildDeleteState(s, id, false);
            var g := s.guilds[id];
            && (forall e :: e in g.emojis ==> e !in r.emojis)
            && (forall e :: e in s.emojis && e !in g.emojis ==> e in r.emojis && r.emojis[e] == s.emojis[e])
            && r.emojis.Keys <= s.emojis.Keys
            && (forall e :: e in g.roles ==> e !in r.roles)
            && (forall e :: e in s.roles && e !in g.roles ==> e in r.roles && r.roles[e] == s.roles[e])
            && r.roles.Keys <= s.roles.Keys
            && (forall e :: e in g.channels ==> e !in r.channels)
            && (forall e :: e in s.channels && e !in g.channels ==> e in r.channels && r.channels[e] == s.channels[e])
            && r.channels.Keys <= s.channels.Keys
  {
  }

  /**
   * The callback runs at most once, exactly when the guild was cached and a
   * handler is registered, and receives that guild as it is after the handler:
   * with no members when deleted, with the unavailable bit when unavailable.
   */
  lemma DispatchOnlyForCachedGuild(s: CacheState, id: Snowflake, unavailable: bool, handlerSet: bool, raw: string)
    ensures var d := Dispatched(s, id, unavailable, handlerSet, raw);
            && (d.Some? <==> id in s.guilds && handlerSet)
            && (d.Some? ==> d.value.raw == raw && d.value.deleted.id == s.guilds[id].id)
            && (d.Some? && !unavailable ==> d.value.deleted == s.guilds[id].(members := map[]))
            && (d.Some? && unavailable ==> d.value.deleted == s.guilds[id].(flags := s.guilds[id].flags | G_UNAVAILABLE))
  {
  }

  /** The handler keeps every cache keyed by its records' ids. */
  lemma {:induction false} HandlerKeepsCachesKeyed(s: CacheState, id: Snowflake, unavailable: bool)
    requires ValidState(s)
    ensures ValidState(GuildDeleteState(s, id, unavailable))
  {
  }

  // ---------------------------------------------------------------------------
  // The caches and the handler

  /** The five global caches of the library. */
  class Caches {
    var guilds: map<Snowflake, Guild>
    var emojis: map<Snowflake, Emoji>
    var roles: map<Snowflake, Role>
    var channels: map<Snowflake, Channel>
    var users: map<Snowflake, User>

    function State(): CacheState
      reads this
    {
      CacheState(guilds, emojis, roles, channels, users)
    }

    ghost predicate Valid()
      reads this
    {
      ValidState(State())
    }

    constructor ()
      ensures Valid()
      ensures State() == CacheState(map[], map[], map[], map[], map[])
    {
      guilds, emojis, roles, channels, users := map[], map[], map[], map[], map[];
    }

    /**
     * Removes a guild that is really gone, with its emojis, roles and
     * channels, and releases the users its members point at.
     */
    method EvictGuild(id: Snowflake)
      requires id in guilds
      modifies this
      ensures State() == GuildDeleteState(old(State()), id, false)
    {
      var g := guilds[id];
      guilds := guilds - {id};
      RemoveEmojis(g.emojis);
      RemoveRoles(g.roles);
      RemoveChannels(g.channels);
      ReleaseMembers(g.members);
    }

    /**
     * Applies a GUILD_DELETE event for guild `id`.  `unavailable` is the
     * event's unavailable field (false when absent), `handlerSet` says whether
     * a guild_delete callback is registered, and the result is the event the
     * callback is invoked with, if it is invoked.
     */
    method HandleGuildDelete(id: Snowflake, unavailable: bool, handlerSet: bool, raw: string)
        returns (dispatched: Option<GuildDeleteEvent>)
      requires Valid()
      modifies this
      ensures Valid()
      ensures State() == GuildDeleteState(old(State()), id, unavailable)
      ensures dispatched == Dispatched(old(State()), id, unavailable, handlerSet, raw)
    {
      HandlerKeepsCachesKeyed(State(), id, unavailable);
      dispatched := None;
      if id in guilds {
        var g := guilds[id];
        if !unavailable {
          EvictGuild(id);
          g := g.(members := map[]);
        } else {
          g := g.(flags := g.flags | G_UNAVAILABLE);
          guilds := guilds[id := g];
          assert State() == old(State()).(guilds := old(guilds)[id := AfterHandler(old(guilds)[id], true)]);
        }
        if handlerSet {
          dispatched := Some(GuildDeleteEvent(raw, g));
        }
      }
    }

    /** Removes from the emoji cache each listed emoji that is cached. */
    method RemoveEmojis(ids: seq<Snowflake>)
      modifies this`emojis
      ensures emojis == old(emojis) - Listed(ids)
    {
      var i := 0;
      while i < |ids|
        invariant 0 <= i <= |ids|
        invariant emojis == old(emojis) - Listed(ids[..i])
      {
        var e := ids[i];
        if e in emojis {
          emojis := emojis - {e};
        }
        assert Listed(ids[..i + 1]) == Listed(ids[..i]) + {e} by {
          assert ids[..i + 1] == ids[..i] + [e];
        }
        i := i + 1;
      }
      assert ids[..i] == ids;
    }

    /** Removes from the role cache each listed role that is cached. */
    method RemoveRoles(ids: seq<Snowflake>)
      modifies this`roles
      ensures roles == old(roles) - Listed(ids)
    {
      var i := 0;
      while i < |ids|
        invariant 0 <= i <= |ids|
        invariant roles == old(roles) - Listed(ids[..i])
      {
        var r := ids[i];
        if r in roles {
          roles := roles - {r};
        }
        assert Listed(ids[..i + 1]) == Listed(ids[..i]) + {r} by {
          assert ids[..i + 1] == ids[..i] + [r];
        }
        i := i + 1;
      }
      assert ids[..i] == ids;
    }

    /** Removes from the channel cache each listed channel that is cached. */
    method RemoveChannels(ids: seq<Snowflake>)
      modifies this`channels
      ensures channels == old(channels) - Listed(ids)
    {
      var i := 0;
      while i < |ids|
        invariant 0 <= i <= |ids|
        invariant channels == old(channels) - Listed(ids[..i])
      {
        var c := ids[i];
        if c in channels {
          channels := channels - {c};
        }
        assert Listed(ids[..i + 1]) == Listed(ids[..i]) + {c} by {
          assert ids[..i + 1] == ids[..i] + [c];
        }
        i := i + 1;
      }
      assert ids[..i] == ids;
    }

    /**
     * For each member, decrements the refcount of its cached user and evicts
     * the user once the refcount is below 1.
     */
    method ReleaseMembers(members: map<Snowflake, GuildMember>)
      modifies this`users
      ensures users == Released(old(users), members, members.Keys)
    {
      var pending := members.Keys;
      ghost var done: set<Snowflake> := {};
      ReleasedNone(users, members);
      while pending != {}
        invariant pending + done == members.Keys && pending !! done
        invariant users == Released(old(users), members, done)
        decreases pending
      {
        var k :| k in pending;
        var uid := members[k].userId;
        ReleaseStep(old(users), members, done, k);
        if uid in users {
          var u := users[uid];
          u := u.(refcount := u.refcount - 1);
          if u.refcount < 1 {
            users := users - {uid};
          } else {
            users := users[uid := u];
          }
        }
        pending := pending - {k};
        done := done + {k};
      }
    }
  }
}
