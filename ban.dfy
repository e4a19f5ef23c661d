/** The ban cog: the `whitelist` table (one row per user, `user_id` being its
    primary key), its queries and updates, and the guards of the `ban`,
    `whitelist` and `unwhitelist` commands. Times are integer seconds. */
module Ban {
  import opened Collections

  /** The reason stored when the command gives none. */
  const DefaultReason: string := "Aucune raison fournie"

  /** The columns of a whitelist row other than its key. */
  datatype Listing = Listing(addedBy: nat, addedAt: int, reason: string)

  /** A row as `get_whitelist` returns it. */
  datatype Row = Row(userId: nat, addedBy: nat, addedAt: int, reason: string)

  /** The result of `member.ban`. */
  datatype BanAttempt = BanDone | BanForbidden | BanError

  datatype BanOutcome = Protected | SelfBan | Banned | MissingPermission | Failed

  datatype WhitelistOutcome = AlreadyListed | Added
  datatype UnwhitelistOutcome = NotListed | Removed

  const AddedAt: Row -> int := (r: Row) => r.addedAt

  function RowOf(user: nat, l: Listing): Row {
    Row(user, l.addedBy, l.addedAt, l.reason)
  }

  /** The row is the table's row for its user. */
  predicate InTable(rows: map<nat, Listing>, r: Row) {
    r.userId in rows && RowOf(r.userId, rows[r.userId]) == r
  }

  /** `rows` lists the rows of `table` for the users in `users`, each once. */
  predicate ListsExactly(rows: seq<Row>, table: map<nat, Listing>, users: set<nat>) {
    && |rows| == |users|
    && (forall i :: 0 <= i < |rows| ==> rows[i].userId in users && InTable(table, rows[i]))
    && (forall u :: u in users ==> exists i :: 0 <= i < |rows| && rows[i].userId == u)
  }

  /** Listing one more user's row extends the listing. */
  lemma ListsExactlySnoc(rows: seq<Row>, table: map<nat, Listing>, users: set<nat>, u: nat)
    requires ListsExactly(rows, table, users) && u in table && u !in users
    ensures ListsExactly(rows + [RowOf(u, table[u])], table, users + {u})
  {
    var r := rows + [RowOf(u, table[u])];
    forall v | v in users + {u} ensures exists i :: 0 <= i < |r| && r[i].userId == v {
      if v == u {
        assert r[|rows|].userId == u;
      } else {
        var i :| 0 <= i < |rows| && rows[i].userId == v;
        assert r[i].userId == v;
      }
    }
  }

  /** Part way through listing `table`: the rows of `done` are listed and
      `remaining` holds the other users. */
  predicate Listed(rows: seq<Row>, table: map<nat, Listing>, done: set<nat>, remaining: set<nat>) {
    done !! remaining && done + remaining == table.Keys && ListsExactly(rows, table, done)
  }

  lemma ListedStep(rows: seq<Row>, table: map<nat, Listing>, done: set<nat>, remaining: set<nat>, u: nat)
    requires Listed(rows, table, done, remaining) && u in remaining
    ensures Listed(rows + [RowOf(u, table[u])], table, done + {u}, remaining - {u})
  {
    ListsExactlySnoc(rows, table, done, u);
  }

  lemma ListedAll(rows: seq<Row>, table: map<nat, Listing>, done: set<nat>)
    requires Listed(rows, table, done, {})
    ensures ListsExactly(rows, table, table.Keys)
  {
    assert done == table.Keys;
  }

  /** Reordering a listing keeps it a listing. */
  lemma ListsExactlyPermuted(rows: seq<Row>, r: seq<Row>, table: map<nat, Listing>, users: set<nat>)
    requires ListsExactly(rows, table, users) && multiset(r) == multiset(rows)
    ensures ListsExactly(r, table, users)
  {
    assert |r| == |multiset(r)| == |rows|;
    forall i | 0 <= i < |r| ensures r[i].userId in users && InTable(table, r[i]) {
      assert r[i] in multiset(rows);
    }
    forall u | u in users ensures exists i :: 0 <= i < |r| && r[i].userId == u {
      var j :| 0 <= j < |rows| && rows[j].userId == u;
      assert rows[j] in multiset(r);
    }
  }

  /** What the `ban` command does for `member`, asked by `author`: a whitelisted
      member is refused first, then a self-ban, and only then is the ban tried. */
  function BanDecision(listed: bool, member: nat, author: nat, attempt: BanAttempt): (r: BanOutcome)
    ensures listed ==> r == Protected
    ensures !listed && member == author ==> r == SelfBan
    ensures r == Banned <==> !listed && member != author && attempt == BanDone
    ensures r == MissingPermission <==> !listed && member != author && attempt == BanForbidden
    ensures r == Failed <==> !listed && member != author && attempt == BanError
  {
    if listed then Protected
    else if member == author then SelfBan
    else match attempt
      case BanDone => Banned
      case BanForbidden => MissingPermission
      case BanError => Failed
  }

  /** Adding a user who was not listed and then removing it gives the table back. */
  lemma AddThenRemove(table: map<nat, Listing>, user: nat, l: Listing)
    requires user !in table
    ensures table[user := l] - {user} == table
  {
  }

  class Whitelist {
    /** The `whitelist` table, keyed by `user_id`. */
    var table: map<nat, Listing>

    constructor ()
      ensures table == map[]
    {
      table := map[];
    }

    /** `is_whitelisted`. */
    method IsWhitelisted(user: nat) returns (b: bool)
      ensures b <==> user in table
    {
      b := user in table;
    }

    /** `add_to_whitelist`: `INSERT OR REPLACE`, stamped `now`. */
    method AddToWhitelist(user: nat, addedBy: nat, now: int, reason: string)
      modifies this
      ensures table == old(table)[user := Listing(addedBy, now, reason)]
    {
      table := table[user := Listing(addedBy, now, reason)];
    }

    /** `remove_from_whitelist`: reports whether a row was deleted. */
    method RemoveFromWhitelist(user: nat) returns (existed: bool)
      modifies this
      ensures existed <==> user in old(table)
      ensures table == old(table) - {user}
    {
      existed := user in table;
      table := table - {user};
    }

    /** The rows of the table, each once, in no particular order. */
    method Rows() returns (rows: seq<Row>)
      ensures ListsExactly(rows, table, table.Keys)
    {
      var t := table;
      rows := [];
      var remaining := t.Keys;
      ghost var done: set<nat> := {};
      while remaining != {}
        invariant Listed(rows, t, done, remaining)
        decreases |remaining|
      {
        var u :| u in remaining;
        ListedStep(rows, t, done, remaining, u);
        rows := rows + [RowOf(u, t[u])];
        done, remaining := done + {u}, remaining - {u};
      }
      ListedAll(rows, t, done);
    }

    /** `get_whitelist`: every row, newest first. */
    method GetWhitelist() returns (r: seq<Row>)
      ensures SortedDesc(r, AddedAt)
      ensures ListsExactly(r, table, table.Keys)
    {
      var rows := Rows();
      r := SortDesc(rows, AddedAt);
      ListsExactlyPermuted(rows, r, table, table.Keys);
    }

    /** The `ban` command. */
    method Ban(member: nat, author: nat, attempt: BanAttempt) returns (outcome: BanOutcome)
      ensures outcome == BanDecision(member in table, member, author, attempt)
    {
      var listed := IsWhitelisted(member);
      if listed {
        return Protected;
      }
      if member == author {
        return SelfBan;
      }
      outcome := match attempt
        case BanDone => Banned
        case BanForbidden => MissingPermission
        case BanError => Failed;
    }

    /** The `whitelist` command: a member already listed is left as it is. `reason`
        is the command's optional argument; without one, `DefaultReason` is stored. */
    method WhitelistCommand(member: nat, author: nat, reason: Option<string>, now: int) returns (outcome: WhitelistOutcome)
      modifies this
      ensures member in old(table) ==> outcome == AlreadyListed && table == old(table)
      ensures member !in old(table) && reason.Some? ==>
        outcome == Added && table == old(table)[member := Listing(author, now, reason.value)]
      ensures member !in old(table) && reason.None? ==>
        outcome == Added && table == old(table)[member := Listing(author, now, DefaultReason)]
    {
      var listed := IsWhitelisted(member);
      if listed {
        return AlreadyListed;
      }
      var stored := if reason.Some? then reason.value else DefaultReason;
      AddToWhitelist(member, author, now, stored);
      outcome := Added;
    }

    /** The `unwhitelist` command: a member not listed is reported, nothing changes. */
    method UnwhitelistCommand(member: nat) returns (outcome: UnwhitelistOutcome)
      modifies this
      ensures member !in old(table) ==> outcome == NotListed && table == old(table)
      ensures member in old(table) ==> outcome == Removed && table == old(table) - {member}
    {
      var listed := IsWhitelisted(member);
      if !listed {
        return NotListed;
      }
      var existed := RemoveFromWhitelist(member);
      outcome := Removed;
    }
  }
}
