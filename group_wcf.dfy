/** The ownCloud group backend over a WCF database: membership, group
    listing and user listing, each one query through the shared `WcfDb`.
    The database itself is an input: a function from the query text and the
    bound parameters to the fetched rows, `None` when preparing or executing
    the statement fails. */
module GroupBackend {
  import opened Php
  import opened WcfDatabase

  /** A fetched row, by column name; a NULL column (a user in no group under
      the LEFT JOIN) is `None`. */
  type Row = map<string, Option<string>>

  type Database = (string, seq<Option<string>>) -> Option<seq<Row>>

  /** `$row[$column]`: NULL for a column the row lacks. */
  function ColumnOf(row: Row, column: string): Option<string> {
    if column in row then row[column] else None
  }

  /** PHP intval of an integer argument or NULL. */
  function IntVal(v: Option<int>): int {
    match v
    case None => 0
    case Some(n) => n
  }

  /** The LIMIT part of the append text: present unless the limit is -1. */
  function LimitText(limit: Option<int>): string {
    if limit == Some(-1) then "" else " LIMIT " + IntToString(IntVal(limit))
  }

  /** The OFFSET part of the append text: present unless the offset is 0. */
  function OffsetText(offset: Option<int>): string {
    if offset == Some(0) then "" else " OFFSET " + IntToString(IntVal(offset))
  }

  /** The rows a statement yields on `db` in its current connection state:
      none unless connected, else what the database returns for the text
      prepare builds. */
  function Run(db: WcfDb, fields: string, where: Option<string>, append: Option<string>,
               params: seq<Option<string>>, database: Database): Option<seq<Row>>
    reads db
  {
    if db.connected == Some(true)
    then database(QueryText(db.wcfN, db.groupsCondition, fields, where, append), params)
    else None
  }

  /** The list a listing operation returns: one column value per row, in row
      order; the empty array when the statement failed. */
  function Collected(result: Option<seq<Row>>, column: string): seq<Option<string>> {
    match result
    case None => []
    case Some(rows) => seq(|rows|, i requires 0 <= i < |rows| => ColumnOf(rows[i], column))
  }

  /** Whether the first fetch yields a row. */
  predicate FirstFetch(result: Option<seq<Row>>) {
    result.Some? && |result.value| > 0
  }

  /** The `foreach ($result as $row)` accumulation of one column. */
  method ColumnValues(rows: seq<Row>, column: string) returns (values: seq<Option<string>>)
    ensures |values| == |rows|
    ensures forall i :: 0 <= i < |rows| ==> values[i] == ColumnOf(rows[i], column)
  {
    values := [];
    for i := 0 to |rows|
      invariant |values| == i
      invariant forall k :: 0 <= k < i ==> values[k] == ColumnOf(rows[k], column)
    {
      values := values + [ColumnOf(rows[i], column)];
    }
  }

  /** The LIMIT and OFFSET steps shared by getGroups and usersInGroup. */
  method AppendPaging(append: string, limit: Option<int>, offset: Option<int>) returns (r: string)
    ensures r == append + LimitText(limit) + OffsetText(offset)
  {
    r := append;
    if limit != Some(-1) {
      r := r + (" LIMIT " + IntToString(IntVal(limit)));
    }
    if offset != Some(0) {
      r := r + (" OFFSET " + IntToString(IntVal(offset)));
    }
  }

  /** The condition, parameters and append text getGroups builds. An empty
      search adds no condition; any other search (PHP NULL converts to "")
      matches the name as a substring. */
  method GetGroupsParts(search: Option<string>, limit: Option<int>, offset: Option<int>)
    returns (where: Option<string>, params: seq<Option<string>>, append: string)
    ensures search == Some("") ==> where == None && params == []
    ensures search != Some("") ==>
      where == Some("groupName LIKE ?") && params == [Some("%" + StrOrEmpty(search) + "%")]
    ensures append == "ORDER BY groupName" + LimitText(limit) + OffsetText(offset)
  {
    params := [];
    where := None;
    append := "ORDER BY groupName";
    if search != Some("") {
      var s := StrOrEmpty(search);
      where := Some("groupName LIKE ?");
      params := params + [Some("%" + s + "%")];
    }
    append := AppendPaging(append, limit, offset);
  }

  /** The condition usersInGroup adds for a search. */
  const UsernameLike := " AND username LIKE ?"

  /** The condition, parameters and append text usersInGroup builds: the
      group is always bound first; a non-empty search is bound as given,
      without `%` around it. */
  method UsersInGroupParts(gid: string, search: Option<string>, limit: Option<int>, offset: Option<int>)
    returns (where: string, params: seq<Option<string>>, append: string)
    ensures search == Some("") ==> where == "groupName=?" && params == [Some(gid)]
    ensures search != Some("") ==>
      where == "groupName=?" + UsernameLike && params == [Some(gid), search]
    ensures append == "ORDER BY username" + LimitText(limit) + OffsetText(offset)
  {
    params := [Some(gid)];
    where := "groupName=?";
    append := "ORDER BY username";
    if search != Some("") {
      where := where + UsernameLike;
      params := params + [search];
    }
    append := AppendPaging(append, limit, offset);
  }

  /** The paging text carries LIMIT exactly when the limit is not -1 and
      OFFSET exactly when the offset is not 0, LIMIT first, and each number
      reads back as the intval of the argument. */
  lemma PagingText(limit: Option<int>, offset: Option<int>)
    ensures var l := LimitText(limit);
      && (l == "" <==> limit == Some(-1))
      && (l != "" ==> |l| > 7 && l[..7] == " LIMIT " && ParseInt(l[7..]) == IntVal(limit))
    ensures var o := OffsetText(offset);
      && (o == "" <==> offset == Some(0))
      && (o != "" ==> |o| > 8 && o[..8] == " OFFSET " && ParseInt(o[8..]) == IntVal(offset))
  {
    if limit != Some(-1) {
      var l := LimitText(limit);
      assert l[7..] == IntToString(IntVal(limit));
      IntToStringRoundTrip(IntVal(limit));
    }
    if offset != Some(0) {
      var o := OffsetText(offset);
      assert o[8..] == IntToString(IntVal(offset));
      IntToStringRoundTrip(IntVal(offset));
    }
  }

  /** A NULL limit or offset is not the default: it is written as LIMIT 0 or
      OFFSET 0. */
  lemma NullPagingIsZero()
    ensures LimitText(None) == " LIMIT 0"
    ensures OffsetText(None) == " OFFSET 0"
  {
  }

  /** A failed statement gives the empty list and the answer FALSE; a
      successful one gives one value per row, in row order. */
  lemma CollectedRows(result: Option<seq<Row>>, column: string)
    ensures result.None? ==> Collected(result, column) == [] && !FirstFetch(result)
    ensures result.Some? ==> |Collected(result, column)| == |result.value|
    ensures result.Some? ==> forall i :: 0 <= i < |result.value| ==>
      Collected(result, column)[i] == ColumnOf(result.value[i], column)
  {
  }

  class GroupWcf {
    const db: WcfDb

    /** Takes the shared instance for the path. The authorized groups argument
        is ignored: the instance keeps whatever condition it already has. */
    constructor (registry: Registry, wcfPath: string, authorizedGroups: GroupsArg, cfg: Config)
      requires registry.Valid()
      modifies registry
      ensures registry.Valid() && db.Valid()
      ensures wcfPath in registry.instances && db == registry.instances[wcfPath]
      ensures wcfPath in old(registry.instances) ==>
        && registry.instances == old(registry.instances)
        && registry.wcfConstant == old(registry.wcfConstant)
        && db.groupsCondition == old(registry.instances[wcfPath].groupsCondition)
        && db.authorizedGroups == old(registry.instances[wcfPath].authorizedGroups)
      ensures wcfPath !in old(registry.instances) ==>
        && fresh(db)
        && registry.instances == old(registry.instances)[wcfPath := db]
        && registry.wcfConstant == Some(WcfNAfterLoad(old(registry.wcfConstant), cfg))
        && db.Initial(cfg, WcfNAfterLoad(old(registry.wcfConstant), cfg))
    {
      var shared := registry.GetInstance(wcfPath, cfg);
      db := shared;
    }

    /** inGroup: whether a row exists for the user and group. */
    method InGroup(uid: string, gid: string, pdoAccepts: bool, database: Database) returns (inGroup: bool)
      requires db.Valid()
      modifies db`connected
      ensures db.Valid()
      ensures db.connected == AfterConnect(old(db.connected), db.dsn, pdoAccepts)
      ensures inGroup == FirstFetch(Run(db, "1", Some("username=? AND groupName=?"), None, [Some(uid), Some(gid)], database))
    {
      inGroup := false;
      var query := db.Prepare("1", Some("username=? AND groupName=?"), None, pdoAccepts);
      if query.Some? {
        var result := database(query.value, [Some(uid), Some(gid)]);
        if result.Some? && |result.value| > 0 {
          inGroup := true;
        }
      }
    }

    /** getUserGroups: the group column of every row for the user, in row
        order; NULL for a row of a user in no group. */
    method GetUserGroups(uid: string, pdoAccepts: bool, database: Database) returns (groups: seq<Option<string>>)
      requires db.Valid()
      modifies db`connected
      ensures db.Valid()
      ensures db.connected == AfterConnect(old(db.connected), db.dsn, pdoAccepts)
      ensures groups == Collected(Run(db, "groupName", Some("username=?"), None, [Some(uid)], database), "groupName")
    {
      groups := [];
      var query := db.Prepare("groupName", Some("username=?"), None, pdoAccepts);
      if query.Some? {
        var result := database(query.value, [Some(uid)]);
        if result.Some? {
          groups := ColumnValues(result.value, "groupName");
        }
      }
    }

    /** getGroups: the group names of a filtered, ordered and paged query. */
    method GetGroups(search: Option<string>, limit: Option<int>, offset: Option<int>,
                     pdoAccepts: bool, database: Database)
      returns (groups: seq<Option<string>>)
      requires db.Valid()
      modifies db`connected
      ensures db.Valid()
      ensures db.connected == AfterConnect(old(db.connected), db.dsn, pdoAccepts)
      ensures var where := if search == Some("") then None else Some("groupName LIKE ?");
        var params := if search == Some("") then [] else [Some("%" + StrOrEmpty(search) + "%")];
        var append := "ORDER BY groupName" + LimitText(limit) + OffsetText(offset);
        groups == Collected(Run(db, "groupName", where, Some(append), params, database), "groupName")
    {
      groups := [];
      var where, params, append := GetGroupsParts(search, limit, offset);
      var query := db.Prepare("groupName", where, Some(append), pdoAccepts);
      if query.Some? {
        var result := database(query.value, params);
        if result.Some? {
          groups := ColumnValues(result.value, "groupName");
        }
      }
    }

    /** groupExists: whether the first fetch for the name yields a row. */
    method GroupExists(gid: string, pdoAccepts: bool, database: Database) returns (found: bool)
      requires db.Valid()
      modifies db`connected
      ensures db.Valid()
      ensures db.connected == AfterConnect(old(db.connected), db.dsn, pdoAccepts)
      ensures found == FirstFetch(Run(db, "groupName", Some("groupName=?"), None, [Some(gid)], database))
    {
      found := false;
      var query := db.Prepare("groupName", Some("groupName=?"), None, pdoAccepts);
      if query.Some? {
        var result := database(query.value, [Some(gid)]);
        if result.Some? {
          found := |result.value| > 0;
        }
      }
    }

    /** usersInGroup: the user names of a group, filtered, ordered and paged. */
    method UsersInGroup(gid: string, search: Option<string>, limit: Option<int>, offset: Option<int>,
                        pdoAccepts: bool, database: Database)
      returns (users: seq<Option<string>>)
      requires db.Valid()
      modifies db`connected
      ensures db.Valid()
      ensures db.connected == AfterConnect(old(db.connected), db.dsn, pdoAccepts)
      ensures var where := if search == Some("") then "groupName=?" else "groupName=?" + UsernameLike;
        var params := if search == Some("") then [Some(gid)] else [Some(gid), search];
        var append := "ORDER BY username" + LimitText(limit) + OffsetText(offset);
        users == Collected(Run(db, "username", Some(where), Some(append), params, database), "username")
    {
      users := [];
      var where, params, append := UsersInGroupParts(gid, search, limit, offset);
      var query := db.Prepare("username", Some(where), Some(append), pdoAccepts);
      if query.Some? {
        var result := database(query.value, params);
        if result.Some? {
          users := ColumnValues(result.value, "username");
        }
      }
    }
  }

  /** Two backends built for one MySQL installation share one connection:
      the second query reuses the connection the first one made, even when
      the driver would now refuse. Neither constructor sets the authorized
      groups, so both queries carry the condition FALSE. */
  method SharedBackendScenario(wcfPath: string, cfg: Config, database: Database)
    returns (inGroup: bool, found: bool)
    requires cfg.dbClass == SupportedClass
    ensures var prefix := Some("wcf" + IntToString(cfg.wcfN));
      && inGroup == FirstFetch(database(QueryText(prefix, "FALSE", "1", Some("username=? AND groupName=?"), None),
                                        [Some("alice"), Some("admins")]))
      && found == FirstFetch(database(QueryText(prefix, "FALSE", "groupName", Some("groupName=?"), None),
                                      [Some("admins")]))
  {
    var registry := new Registry(None);
    var first := new GroupWcf(registry, wcfPath, NullArg, cfg);
    var second := new GroupWcf(registry, wcfPath, ArrayArg(["admins"]), cfg);
    assert |Dsn(cfg)| > 0;
    inGroup := first.InGroup("alice", "admins", true, database);
    found := second.GroupExists("admins", false, database);
  }
}
