# user_wcf authentication core, modelled in Dafny

This project models the core of user_wcf, an ownCloud user and group
backend that authenticates against the database of a WoltLab Community
Framework (WCF) installation. It covers four parts:

- `StringUtil` (`stringutil.dfy`) covers the WCF password hash. `getHash` picks a digest by
  `ENCRYPTION_METHOD`. `getSaltedHash` salts the value before or after,
  optionally hashing it first. `getDoubleSaltedHash` adds one more salt-and-hash
  pass. The ENCRYPTION_* constants become an explicit `Policy` whose fields
  are `Option`s, with `None` for "not defined". The digests are the
  uninterpreted function fields of `Digests`. A PHP `NULL` result is `None`,
  and it concatenates as `""`. crc32 yields an integer, which is written as
  decimal when concatenated (`Php.IntToString`).
- `WcfDatabase` (`wcf_db.dfy`) models `WCF_DB`:
  - the per-path instance registry (`Registry`);
  - the `WcfDb` class, with the tri-state `connected` field, the data source
    name, the authorized groups and the group condition;
  - `connect`, which tries the driver at most once;
  - `setAuthorizedGroups`, which builds `groupName='g' OR ...` with a loop and
    no escaping;
  - `prepare`, which assembles the query text.
- `GroupBackend` (`group_wcf.dfy`) models `Group_WCF`. Each operation builds its condition,
  parameters and append text, prepares the query through the shared `WcfDb`,
  and maps the result to a list of column values or a boolean.
- `UserBackend` (`user_wcf.dfy`) models `User_WCF`. `checkPassword` checks the double-salted
  hash against the first row only. It then walks the rows, in order, for the
  first one whose group is authorized. `userExists` answers true.

The database is an input everywhere. The group backend takes it as a
function from query text and bound parameters to `Option<seq<Row>>`. `None`
means preparing or executing the statement failed. `checkPassword` takes it
as the rows its lookup returns for the typed name. Whether the driver accepts
a connection is an input too: `pdoAccepts` for PDO, `connectError` for mysqli.

Three behaviours of the code are worth stating up front:

- An unrecognised `ENCRYPTION_METHOD` gives `NULL`, not the default digest.
- `userExists` returns true for every name, and the user backend has no
  operation that lists users.
- `checkPassword`'s query does not restrict the groups. The rows are scanned
  in PHP for the first authorized group.

The table prefix comes from `WCF_N`, a PHP constant. A configuration file
defines it only when it is not yet defined, so the first configuration loaded
in a process fixes the prefix for every installation loaded after it.
`Registry` carries that constant.

## Model

| member | source | states |
|---|---|---|
| `Php.IntToStringRoundTrip` | group_wcf.php:99-104 | the decimal text PHP writes for an integer (LIMIT/OFFSET, a crc32 value) reads back as that integer |
| `StringUtil.GetHash` | lib/stringutil.php:23-29 | the result is NULL exactly when the method is defined and is none of sha1, md5, crc32, crypt |
| `StringUtil.GetSaltedHash` | lib/stringutil.php:39-57 | NULL exactly when the method is unrecognised, or salting is on and the position is neither "before" nor "after" |
| `StringUtil.GetDoubleSaltedHash` | lib/stringutil.php:67-69 | NULL exactly when the method is unrecognised: the outer pass hashes even a NULL inner hash |
| `StringUtil.HashSelectsDigest` | lib/stringutil.php:23-28 | undefined or "sha1" selects sha1; "md5", "crc32" and "crypt" select their own digest |
| `StringUtil.UnknownMethodHasNoHash` | lib/stringutil.php:23-29 | an unrecognised method gives no hash at all, not a sha1 fallback, at every level |
| `StringUtil.SaltingOffIgnoresSalt` | lib/stringutil.php:39-56 | salting explicitly off: the salted hash is the plain hash, the same for any salt, pre-hash flag and position |
| `StringUtil.SaltedHashShape` | lib/stringutil.php:40-53 | salting on: X is hash(v) when pre-hashing is on or undefined, else v; the result is hash(s.X) for "before"/undefined, hash(X.s) for "after", NULL otherwise |
| `StringUtil.DoubleSaltedWithSaltingOff` | lib/stringutil.php:67-69 | the outer salt-and-hash pass applies even with salting off |
| `StringUtil.DefaultDoubleSalted` | lib/stringutil.php:24-69 | with nothing defined the result is sha1(s . sha1(s . sha1(v))) |
| `StringUtil.BadPositionIgnoresPassword` | lib/stringutil.php:46-69 | salting on with an invalid position: the double-salted hash is hash(salt), the same for every password |
| `StringUtil.Crc32HashIsNumber` | lib/stringutil.php:27-27 | under crc32 the double-salted hash is an integer |
| `WcfDatabase.AfterConnect` | lib/wcf_db.php:105-119 | a settled connection state is kept; an empty data source name never yields a connection |
| `WcfDatabase.ConnectOnlyOnce` | lib/wcf_db.php:105-119 | a second connect returns the first outcome whatever the driver would now do |
| `WcfDatabase.ImplodeAppend` | lib/wcf_db.php:81-81 | implode of parts plus one more is the old implode, the separator and the new part |
| `WcfDatabase.GroupsConditionAppend` | lib/wcf_db.php:77-81 | the condition is the in-order " OR " join: a group added last adds its clause last |
| `WcfDatabase.GroupsConditionSingle` | lib/wcf_db.php:79-81 | one group gives exactly `groupName='g'` |
| `WcfDatabase.GroupsConditionStartsWithFirst` | lib/wcf_db.php:75-81 | a condition built from groups starts with the first group's clause and is never "TRUE" or "FALSE" |
| `WcfDatabase.GroupNamesNotEscaped` | lib/wcf_db.php:79-81 | names are interpolated verbatim: for any a and b, the one name a`' OR groupName='`b gives the same condition as the two groups a and b |
| `WcfDatabase.QueryEndsWithFilter` | lib/wcf_db.php:48-53 | every query ends with `WHERE (<groupsCondition>) AND (<where, or TRUE>) <append>` |
| `WcfDatabase.WcfNAfterLoad` | user_wcf.php:44-44 | after a configuration is loaded, WCF_N is the value already defined, or the configuration's own value when none was |
| `WcfDatabase.WcfDb.constructor` | lib/wcf_db.php:23-41 | new instance: connected NULL, authorizedGroups NULL, condition 'FALSE'; MySQL sets the DSN, credentials and the prefix `wcf` followed by the process's WCF_N; an unsupported class leaves the DSN '' and `connected` NULL |
| `WcfDatabase.WcfDb.Connect` | lib/wcf_db.php:105-119 | tries the driver only while `connected` is NULL, then returns the settled value; changes nothing else |
| `WcfDatabase.WcfDb.Prepare` | lib/wcf_db.php:45-62 | FALSE when connect fails; otherwise the query text with a NULL where read as TRUE; keeps the class invariant |
| `WcfDatabase.WcfDb.SetAuthorizedGroups` | lib/wcf_db.php:74-91 | non-empty array: stored and joined into the condition; TRUE: 'TRUE'; anything else: 'FALSE'; the stored groups change only for a non-empty array |
| `WcfDatabase.WcfDb.GetAuthorizedGroups` | lib/wcf_db.php:93-95 | the stored groups are NULL or non-empty, and a condition other than TRUE/FALSE is the one derived from them |
| `WcfDatabase.Registry.constructor` | lib/wcf_db.php:14-14 | the instance cache starts empty and every cached instance is valid |
| `WcfDatabase.Registry.GetInstance` | lib/wcf_db.php:16-21 | returns a valid object: the cached one for the path, or a fresh initial one built with the WCF_N in force after loading its configuration, when the path is absent; other paths' entries untouched |
| `WcfDatabase.SamePathSameInstance` | lib/wcf_db.php:16-21 | two requests for one path return the same object; the second request adds nothing to the cache |
| `WcfDatabase.UnsupportedNeverQueries` | lib/wcf_db.php:26-35 | an unsupported database class never yields a query, though `connected` stays NULL after construction |
| `WcfDatabase.SecondInstallationSharesPrefix` | lib/wcf_db.php:16-38 | two MySQL installations loaded in one process both use the table prefix of the first one's configuration |
| `GroupBackend.ColumnValues` | group_wcf.php:71-73 | the foreach collects exactly one column value per row, in row order |
| `GroupBackend.AppendPaging` | group_wcf.php:99-104 | the append text gains the LIMIT part, then the OFFSET part, each only when its argument differs from the default |
| `GroupBackend.GetGroupsParts` | group_wcf.php:89-104 | empty search: no where, no params; else `groupName LIKE ?` with the one param `%search%`; append starts `ORDER BY groupName`, then LIMIT iff limit is not -1, then OFFSET iff offset is not 0 |
| `GroupBackend.UsersInGroupParts` | group_wcf.php:142-156 | params start with gid, where with `groupName=?`; a non-empty search adds ` AND username LIKE ?` and the search unwrapped |
| `GroupBackend.PagingText` | group_wcf.php:99-104 | LIMIT text present iff limit is not -1 and OFFSET text iff offset is not 0; each number reads back as intval of the argument |
| `GroupBackend.NullPagingIsZero` | group_wcf.php:99-104 | a NULL limit or offset passes the strict test and is written as 0 |
| `GroupBackend.CollectedRows` | group_wcf.php:108-114 | a failed statement gives [] and FALSE; otherwise one value per row, in order |
| `GroupBackend.GroupWcf.constructor` | group_wcf.php:22-24 | takes the shared instance for the path, valid and ready for every operation (fresh and initial for a new path, which is the only entry added to the cache), and ignores the authorized groups: an existing instance keeps its condition |
| `GroupBackend.GroupWcf.InGroup` | group_wcf.php:45-56 | true iff the statement ran and its first fetch yields a row |
| `GroupBackend.GroupWcf.GetUserGroups` | group_wcf.php:66-77 | the groupName of every row for the user, in order; [] on failure |
| `GroupBackend.GroupWcf.GetGroups` | group_wcf.php:88-115 | the groupName of every row of the query built from search, limit and offset; [] on failure |
| `GroupBackend.GroupWcf.GroupExists` | group_wcf.php:122-131 | true iff the statement ran and its first fetch yields a row |
| `GroupBackend.GroupWcf.UsersInGroup` | group_wcf.php:141-167 | the username of every row of the query built from gid, search, limit and offset; [] on failure |
| `GroupBackend.SharedBackendScenario` | group_wcf.php:22-131 | two backends for one path share one connection: the second query runs even when the driver would now refuse, and both carry the condition FALSE because no constructor sets authorized groups |
| `UserBackend.FirstAuthorizedFrom` | user_wcf.php:75-81 | the first row from a position on whose group is strictly in the authorized list, or none if no such row |
| `UserBackend.DecisionAccepts` | user_wcf.php:30-94 | logs in as u iff connected, rows returned, the first row's stored password strictly equals the double-salted hash with its salt, and u is the username of the first authorized row |
| `UserBackend.MismatchRejects` | user_wcf.php:72-85 | a hash mismatch rejects whatever the groups |
| `UserBackend.FirstAuthorizedIgnoresCredentials` | user_wcf.php:75-81 | the group scan depends only on the rows' group names |
| `UserBackend.OnlyFirstRowCredentials` | user_wcf.php:67-81 | salts and passwords on rows after the first make no difference |
| `UserBackend.Crc32NeverAuthenticates` | user_wcf.php:70-72 | under crc32 the integer hash never strictly equals the stored string: nobody logs in |
| `UserBackend.UnknownMethodNeverAuthenticates` | user_wcf.php:70-72 | under an unrecognised method the NULL hash never matches: nobody logs in |
| `UserBackend.UserWcf.constructor` | user_wcf.php:15-19 | keeps the installation path and the authorized groups |
| `UserBackend.UserWcf.CheckPassword` | user_wcf.php:30-94 | the loop returns the decision above; a returned name is a stored username from the rows |
| `UserBackend.UserWcf.UserExists` | user_wcf.php:96-98 | true for every uid |
| `UserBackend.AdminsOnlyScenario` | user_wcf.php:57-81 | with only admins authorized and a lookup taken to match ALICE to alice's row, she logs in under the row's username, not the typed uid; bob (guests) is rejected despite the right password |

## Left out

- Database access is not modelled. This covers PDO and mysqli, the `require` of `config.inc.php`,
  and `require_once` of WCF's own StringUtil class. The configuration is a `Config` value.
  Connection success is an input. The WCF StringUtil is taken to compute what
  lib/stringutil.php computes.
- SQL semantics are not modelled: `LIKE`, `DISTINCT`, `LOWER`, the joins, ordering and paging.
  Rows are taken as the database returns them.
- The text of `checkPassword`'s query and `real_escape_string` are not modelled. They sit inside the
  abstract lookup. So is the case-insensitive match: a lookup is taken to return the rows of any
  spelling of the name.
- `UserBackend.UserWcf.CheckPassword` does not model its own load of `config.inc.php` defining
  WCF_N. A `checkPassword` that runs before any `WcfDatabase.Registry.GetInstance` fixes the
  prefix; `Registry`'s constructor takes the constant's value at that point as a parameter.
- Digest internals are not modelled: sha1, md5, crc32, and crypt with its random salt.
- Logging is left out: `writeLog`, `User_WCF::warn`, and the warnings of setAuthorizedGroups,
  prepare and connect.
- The catch block of `connect` is not modelled as written. It calls an undefined `$this->warn` and
  reads `connect_error` from an unset handle, which would raise a PHP Error.
  The model keeps only its intended outcome, `connected := FALSE`.
- `WcfDatabase.WcfDb.Prepare` returns the query text instead of a PDO statement. PDO runs with
  `ERRMODE_EXCEPTION`, so a failing `prepare` or `execute` would throw.
  The model folds both failures into the database returning `None`, as the
  callers' `FALSE` checks expect.
- `UserBackend.UserWcf.CheckPassword` is not modelled for a failed query as PHP runs it. There,
  `$result` is FALSE and reading `num_rows` from it yields NULL and a
  notice. The model takes the resulting rejection directly.
- `UserBackend.UserWcf.CheckPassword` takes its authorized groups only as an array. `in_array` on
  `TRUE` or another non-array (a TypeError in PHP 8) is not modelled.
- The ENCRYPTION_ENABLE_SALTING and ENCRYPTION_ENCRYPT_BEFORE_SALTING flags
  are taken as the truth value PHP gives them. ENCRYPTION_SALT_POSITION is taken as a
  string compared literally. A numeric or non-string position, where PHP's
  loose `==` differs, is not modelled.
- PHP integers have no 64-bit bound here. `intval` is applied only to integers or
  NULL. Non-integer limit and offset arguments are not modelled.
- The ownCloud backend framework and `getSupportedActions` (a constant) are left out.
