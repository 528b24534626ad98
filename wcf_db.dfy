/** The shared connection to a WCF installation's database: one object per
    installation path, a connect-at-most-once state, the SQL condition that
    restricts every query to the authorized groups, and the assembly of the
    query text. The PDO driver is not modelled: whether it accepts a
    connection is an input of `Connect`. */
module WcfDatabase {
  import opened Php

  /** The settings an installation's config.inc.php defines; `wcfN` is the
      table prefix number its `define('WCF_N', ...)` would give, which only
      takes effect when no earlier configuration defined WCF_N. */
  datatype Config = Config(
    dbClass: string,
    dbHost: string,
    dbName: string,
    dbCharset: string,
    dbUser: string,
    dbPassword: string,
    wcfN: int)

  /** The value handed to setAuthorizedGroups: a PHP array of group names,
      a boolean, a string or NULL. */
  datatype GroupsArg = ArrayArg(names: seq<string>) | BoolArg(b: bool) | StringArg(s: string) | NullArg

  const SupportedClass := "MySQLDatabase"

  /** The PDO data source name of a MySQL installation. */
  function Dsn(cfg: Config): string {
    "mysql:host=" + cfg.dbHost + ";dbname=" + cfg.dbName + ";charset=" + cfg.dbCharset
  }

  /** One condition per authorized group; the name is interpolated verbatim. */
  function GroupClause(group: string): string {
    "groupName='" + group + "'"
  }

  /** PHP implode. */
  function Implode(sep: string, parts: seq<string>): string {
    if |parts| == 0 then ""
    else if |parts| == 1 then parts[0]
    else parts[0] + sep + Implode(sep, parts[1..])
  }

  function Clauses(groups: seq<string>): seq<string> {
    seq(|groups|, i requires 0 <= i < |groups| => GroupClause(groups[i]))
  }

  /** The condition setAuthorizedGroups derives from a non-empty array. */
  function GroupsCondition(groups: seq<string>): string {
    Implode(" OR ", Clauses(groups))
  }

  /** The connection state after a call of connect: a settled state is kept;
      otherwise PDO is tried once. PDO rejects an empty data source name
      (the one an unsupported database class leaves behind), and accepts a
      MySQL one exactly when `pdoAccepts`. */
  function AfterConnect(connected: Option<bool>, dsn: string, pdoAccepts: bool): (r: Option<bool>)
    ensures r.Some?
    ensures connected.Some? ==> r == connected
    ensures dsn == "" ==> r != Some(true) || connected == Some(true)
  {
    if connected.Some? then connected else Some(dsn != "" && pdoAccepts)
  }

  /** WCF_N once a configuration has been loaded: a PHP constant is defined
      once per process, so the first loaded configuration fixes it. */
  function WcfNAfterLoad(defined: Option<int>, cfg: Config): (n: int)
    ensures defined.Some? ==> n == defined.value
    ensures defined.None? ==> n == cfg.wcfN
  {
    if defined.Some? then defined.value else cfg.wcfN
  }

  const Indent := "                "

  /** The text prepare hands to PDO. NULL fields of the source (the table
      prefix of an unsupported installation, an absent append) interpolate
      as "". */
  function QueryText(wcfN: Option<string>, groupsCondition: string, fields: string,
                     where: Option<string>, append: Option<string>): string
  {
    var n := StrOrEmpty(wcfN);
    "SELECT DISTINCT " + fields + " FROM " + n + "_user\n"
      + Indent + "LEFT JOIN " + n + "_user_to_groups USING (userID)\n"
      + Indent + "LEFT JOIN " + n + "_group USING (groupID)\n"
      + Indent + FilterText(groupsCondition, where, append)
  }

  /** The WHERE part of the query text: the authorized-group condition and
      the caller's condition (TRUE when none is given), then the append. */
  function FilterText(groupsCondition: string, where: Option<string>, append: Option<string>): string {
    "WHERE (" + groupsCondition + ") AND (" + (if where.None? then "TRUE" else where.value) + ") "
      + StrOrEmpty(append)
  }

  lemma {:induction false} ImplodeAppend(sep: string, parts: seq<string>, last: string)
    requires |parts| > 0
    ensures Implode(sep, parts + [last]) == Implode(sep, parts) + sep + last
    decreases |parts|
  {
    if |parts| > 1 {
      assert (parts + [last])[1..] == parts[1..] + [last];
      ImplodeAppend(sep, parts[1..], last);
    }
  }

  /** The condition is the in-order " OR " join of one clause per group:
      adding a group at the end adds exactly one clause at the end. */
  lemma GroupsConditionAppend(groups: seq<string>, group: string)
    requires |groups| > 0
    ensures GroupsCondition(groups + [group]) == GroupsCondition(groups) + " OR " + GroupClause(group)
  {
    assert Clauses(groups + [group]) == Clauses(groups) + [GroupClause(group)];
    ImplodeAppend(" OR ", Clauses(groups), GroupClause(group));
  }

  lemma GroupsConditionSingle(group: string)
    ensures GroupsCondition([group]) == "groupName='" + group + "'"
  {
  }

  /** A condition built from groups is never one of the constants "TRUE"
      and "FALSE": it starts with the first group's clause. */
  lemma GroupsConditionStartsWithFirst(groups: seq<string>)
    requires |groups| > 0
    ensures var c := GroupsCondition(groups);
      |c| >= |GroupClause(groups[0])| && c[..|GroupClause(groups[0])|] == GroupClause(groups[0])
    ensures GroupsCondition(groups) != "TRUE" && GroupsCondition(groups) != "FALSE"
  {
  }

  /** Group names are not escaped: for any names a and b, the single name
      a' OR groupName='b yields the same condition as the two groups a, b. */
  lemma GroupNamesNotEscaped(a: string, b: string)
    ensures GroupsCondition([a + "' OR groupName='" + b]) == GroupsCondition([a, b])
  {
    assert Clauses([a, b]) == [GroupClause(a), GroupClause(b)];
    assert Clauses([a + "' OR groupName='" + b]) == [GroupClause(a + "' OR groupName='" + b)];
    assert Implode(" OR ", [GroupClause(a), GroupClause(b)]) == GroupClause(a) + " OR " + GroupClause(b);
  }

  lemma ConnectOnlyOnce(connected: Option<bool>, dsn: string, first: bool, later: bool)
    ensures AfterConnect(AfterConnect(connected, dsn, first), dsn, later) == AfterConnect(connected, dsn, first)
  {
  }


  /** Every prepared query ends with the authorized-group filter ANDed with
      the caller's condition, followed by the append text. */
  lemma QueryEndsWithFilter(wcfN: Option<string>, groupsCondition: string, fields: string,
                            where: Option<string>, append: Option<string>)
    ensures var q := QueryText(wcfN, groupsCondition, fields, where, append);
      var w := if where.None? then "TRUE" else where.value;
      var tail := "WHERE (" + groupsCondition + ") AND (" + w + ") " + StrOrEmpty(append);
      |q| >= |tail| && q[|q| - |tail|..] == tail
  {
  }

  class WcfDb {
    var wcfN: Option<string>
    var connected: Option<bool>
    var dsn: string
    var dbUser: Option<string>
    var dbPassword: Option<string>
    var authorizedGroups: Option<seq<string>>
    var groupsCondition: string

    /** The group condition is "TRUE", "FALSE", or the one derived from the
        stored non-empty array of authorized groups; a connection was only
        ever made with a data source name. */
    ghost predicate Valid()
      reads this
    {
      && (authorizedGroups.Some? ==> |authorizedGroups.value| > 0)
      && (|| groupsCondition == "TRUE"
          || groupsCondition == "FALSE"
          || (authorizedGroups.Some? && groupsCondition == GroupsCondition(authorizedGroups.value)))
      && (connected == Some(true) ==> dsn != "")
    }

    /** The state the constructor leaves for configuration `cfg` when WCF_N
        is `wcfConstant`. */
    ghost predicate Initial(cfg: Config, wcfConstant: int)
      reads this
    {
      && connected == None
      && authorizedGroups == None
      && groupsCondition == "FALSE"
      && (cfg.dbClass == SupportedClass ==>
            && dsn == Dsn(cfg)
            && wcfN == Some("wcf" + IntToString(wcfConstant))
            && dbUser == Some(cfg.dbUser)
            && dbPassword == Some(cfg.dbPassword))
      && (cfg.dbClass != SupportedClass ==>
            dsn == "" && wcfN == None && dbUser == None && dbPassword == None)
    }

    /** Reads the installation's configuration. An unsupported database
        class returns early; the source then sets a local variable, not the
        `connected` field, which stays NULL. The table prefix comes from the
        process-wide WCF_N, `wcfConstant`, not from `cfg` itself. */
    constructor (cfg: Config, wcfConstant: int)
      ensures Valid() && Initial(cfg, wcfConstant)
    {
      connected := None;
      authorizedGroups := None;
      groupsCondition := "FALSE";
      wcfN := None;
      dbUser := None;
      dbPassword := None;
      if cfg.dbClass == SupportedClass {
        dsn := "mysql:host=" + cfg.dbHost + ";dbname=" + cfg.dbName + ";charset=" + cfg.dbCharset;
        wcfN := Some("wcf" + IntToString(wcfConstant));
        dbUser := Some(cfg.dbUser);
        dbPassword := Some(cfg.dbPassword);
      } else {
        dsn := "";
      }
    }

    /** connect: tries PDO only while the state is NULL; afterwards returns the
        settled outcome without retrying. */
    method Connect(pdoAccepts: bool) returns (ok: bool)
      requires Valid()
      modifies this`connected
      ensures Valid()
      ensures connected == AfterConnect(old(connected), dsn, pdoAccepts)
      ensures connected == Some(ok)
    {
      if connected == None {
        if dsn != "" && pdoAccepts {
          connected := Some(true);
        } else {
          connected := Some(false);
        }
      }
      ok := connected.value;
    }

    /** prepare: FALSE (None) when there is no connection; otherwise the query
        text, with a NULL condition replaced by TRUE. */
    method Prepare(fields: string, where: Option<string>, append: Option<string>, pdoAccepts: bool)
      returns (query: Option<string>)
      requires Valid()
      modifies this`connected
      ensures Valid()
      ensures connected == AfterConnect(old(connected), dsn, pdoAccepts)
      ensures query.Some? <==> connected == Some(true)
      ensures query.Some? ==> query.value == QueryText(wcfN, groupsCondition, fields, where, append)
    {
      var ok := Connect(pdoAccepts);
      if !ok {
        return None;
      }
      var w := where;
      if w == None {
        w := Some("TRUE");
      }
      query := Some(QueryText(wcfN, groupsCondition, fields, w, append));
    }

    /** setAuthorizedGroups: a non-empty array becomes the authorized groups
        and their joined condition; TRUE allows every group; anything else
        allows none (the source also logs a warning). Only a non-empty array
        changes the stored groups. */
    method SetAuthorizedGroups(groups: GroupsArg)
      requires Valid()
      modifies this`authorizedGroups, this`groupsCondition
      ensures Valid()
      ensures groups.ArrayArg? && |groups.names| > 0 ==>
        authorizedGroups == Some(groups.names) && groupsCondition == GroupsCondition(groups.names)
      ensures !(groups.ArrayArg? && |groups.names| > 0) ==>
        && authorizedGroups == old(authorizedGroups)
        && groupsCondition == (if groups == BoolArg(true) then "TRUE" else "FALSE")
    {
      if groups.ArrayArg? && |groups.names| > 0 {
        authorizedGroups := Some(groups.names);
        var conditions: seq<string> := [];
        for i := 0 to |groups.names|
          invariant |conditions| == i
          invariant forall k :: 0 <= k < i ==> conditions[k] == GroupClause(groups.names[k])
        {
          conditions := conditions + ["groupName='" + groups.names[i] + "'"];
        }
        assert conditions == Clauses(groups.names);
        groupsCondition := Implode(" OR ", conditions);
      } else if groups == BoolArg(true) {
        groupsCondition := "TRUE";
      } else {
        groupsCondition := "FALSE";
      }
    }

    /** getAuthorizedGroups: NULL until a non-empty array was set. */
    function GetAuthorizedGroups(): (r: Option<seq<string>>)
      requires Valid()
      reads this
      ensures r.Some? ==> |r.value| > 0
      ensures groupsCondition != "TRUE" && groupsCondition != "FALSE" ==> r.Some? && groupsCondition == GroupsCondition(r.value)
    {
      authorizedGroups
    }
  }

  /** The class-level instance cache of the source, keyed by installation
      path, together with the process's WCF_N constant (`None` while it is
      not defined). */
  class Registry {
    var instances: map<string, WcfDb>
    var wcfConstant: Option<int>

    /** Every cached instance keeps its class invariant. */
    ghost predicate Valid()
      reads this, instances.Values
    {
      forall p :: p in instances ==> instances[p].Valid()
    }

    constructor (wcfConstant: Option<int>)
      ensures Valid()
      ensures instances == map[] && this.wcfConstant == wcfConstant
    {
      instances := map[];
      this.wcfConstant := wcfConstant;
    }

    /** getInstance: the cached object for `wcfPath`, created from `cfg` (the
        installation's config.inc.php) only when the path has none yet.
        Loading the configuration defines WCF_N if it is not yet defined. */
    method GetInstance(wcfPath: string, cfg: Config) returns (db: WcfDb)
      requires Valid()
      modifies this
      ensures Valid() && db.Valid()
      ensures wcfPath in instances && db == instances[wcfPath]
      ensures wcfPath in old(instances) ==> instances == old(instances) && wcfConstant == old(wcfConstant)
      ensures wcfPath !in old(instances) ==>
        && fresh(db)
        && instances == old(instances)[wcfPath := db]
        && wcfConstant == Some(WcfNAfterLoad(old(wcfConstant), cfg))
        && db.Initial(cfg, WcfNAfterLoad(old(wcfConstant), cfg))
    {
      if wcfPath !in instances {
        var n := WcfNAfterLoad(wcfConstant, cfg);
        var created := new WcfDb(cfg, n);
        instances := instances[wcfPath := created];
        wcfConstant := Some(n);
      }
      db := instances[wcfPath];
    }
  }

  /** Two requests for the same path give the same object, and the second
      request changes nothing. */
  method SamePathSameInstance(registry: Registry, wcfPath: string, cfg: Config, cfg': Config)
    returns (first: WcfDb, second: WcfDb)
    requires registry.Valid()
    modifies registry
    ensures first == second
    ensures wcfPath in old(registry.instances) ==> registry.instances == old(registry.instances)
    ensures wcfPath !in old(registry.instances) ==> registry.instances == old(registry.instances)[wcfPath := first]
    ensures forall p :: p in old(registry.instances) ==> p in registry.instances && registry.instances[p] == old(registry.instances)[p]
  {
    first := registry.GetInstance(wcfPath, cfg);
    second := registry.GetInstance(wcfPath, cfg');
  }

  /** An installation with an unsupported database class never runs a query:
      although the constructor leaves `connected` NULL, the first connect
      fails on the empty data source name, whatever the driver would do. */
  method UnsupportedNeverQueries(cfg: Config, fields: string, where: Option<string>,
                                 append: Option<string>, pdoAccepts: bool, later: bool)
    returns (first: Option<string>, second: Option<string>)
    requires cfg.dbClass != SupportedClass
    ensures first == None && second == None
  {
    var db := new WcfDb(cfg, cfg.wcfN);
    first := db.Prepare(fields, where, append, pdoAccepts);
    second := db.Prepare(fields, where, append, later);
  }

  /** Two MySQL installations loaded in one process share the table prefix
      of the one loaded first: the second configuration's WCF_N definition
      is skipped because the constant is already defined. */
  method SecondInstallationSharesPrefix(path: string, cfg: Config, path': string, cfg': Config)
    returns (prefix: Option<string>, prefix': Option<string>)
    requires path != path'
    requires cfg.dbClass == SupportedClass && cfg'.dbClass == SupportedClass
    ensures prefix == prefix' == Some("wcf" + IntToString(cfg.wcfN))
  {
    var registry := new Registry(None);
    var first := registry.GetInstance(path, cfg);
    var second := registry.GetInstance(path', cfg');
    prefix := first.wcfN;
    prefix' := second.wcfN;
  }
}
