/** The ownCloud user backend's login decision. The mysqli connection and
    query become inputs: whether connecting reported an error, and the rows
    the lookup of a user name returns (`None` when the query fails). The
    stored password is compared with the WCF double-salted hash of the
    supplied one. */
module UserBackend {
  import opened Php
  import opened StringUtil

  /** One row of the login query: a user joined with one of its groups;
      `groupName` is NULL for a user in no group. */
  datatype UserRow = UserRow(userID: int, username: string, password: string, salt: string, groupName: Option<string>)

  /** What checkPassword returns: FALSE, or the name the user logs in as. */
  datatype Verdict = Rejected | Accepted(username: string)

  /** The strict (===) comparison of the double-salted hash with the stored
      password: an integer or NULL hash never equals the stored string. */
  predicate PasswordMatches(p: Policy, d: Digests, password: string, row: UserRow) {
    GetDoubleSaltedHash(p, d, password, row.salt) == Some(Text(row.password))
  }

  /** Strict in_array of the row's group in the authorized groups. */
  predicate Authorized(row: UserRow, groups: seq<string>) {
    row.groupName.Some? && row.groupName.value in groups
  }

  /** The first row at or after `from` whose group is authorized. */
  function FirstAuthorizedFrom(rows: seq<UserRow>, groups: seq<string>, from: nat): (k: Option<nat>)
    requires from <= |rows|
    ensures k.Some? ==> from <= k.value < |rows| && Authorized(rows[k.value], groups)
    ensures k.Some? ==> forall j :: from <= j < k.value ==> !Authorized(rows[j], groups)
    ensures k.None? ==> forall j :: from <= j < |rows| ==> !Authorized(rows[j], groups)
    decreases |rows| - from
  {
    if from == |rows| then None
    else if Authorized(rows[from], groups) then Some(from)
    else FirstAuthorizedFrom(rows, groups, from + 1)
  }

  /** The decision checkPassword takes: no connection, a failed query or no
      rows reject; otherwise the first row's salt and password decide whether
      the password matches, and on a match the user logs in under the name of
      the first row in an authorized group. */
  function Decision(connectError: bool, result: Option<seq<UserRow>>, p: Policy, d: Digests,
                    password: string, groups: seq<string>): Verdict
  {
    if connectError || result.None? || |result.value| == 0 then Rejected
    else
      var rows := result.value;
      if !PasswordMatches(p, d, password, rows[0]) then Rejected
      else match FirstAuthorizedFrom(rows, groups, 0)
        case None => Rejected
        case Some(k) => Accepted(rows[k].username)
  }

  /** The decision in full: accepted under name `u` exactly when the
      connection worked, the query returned rows, the first row's
      credentials match, and `u` is the name on the first row in an
      authorized group. */
  lemma DecisionAccepts(connectError: bool, result: Option<seq<UserRow>>, p: Policy, d: Digests,
                        password: string, groups: seq<string>, u: string)
    ensures Decision(connectError, result, p, d, password, groups) == Accepted(u) <==>
      && !connectError && result.Some? && |result.value| > 0
      && PasswordMatches(p, d, password, result.value[0])
      && exists i :: 0 <= i < |result.value| && Authorized(result.value[i], groups)
                    && (forall j :: 0 <= j < i ==> !Authorized(result.value[j], groups))
                    && u == result.value[i].username
  {
  }

  /** A password that does not match the first row rejects, whatever groups
      the user is in and whatever the authorized groups are. */
  lemma MismatchRejects(result: Option<seq<UserRow>>, p: Policy, d: Digests, password: string,
                        groups: seq<string>, connectError: bool)
    requires result.Some? && |result.value| > 0
    requires !PasswordMatches(p, d, password, result.value[0])
    ensures Decision(connectError, result, p, d, password, groups) == Rejected
  {
  }

  lemma FirstAuthorizedIgnoresCredentials(rows: seq<UserRow>, rows': seq<UserRow>,
                                                            groups: seq<string>, from: nat)
    requires |rows| == |rows'| && from <= |rows|
    requires forall i :: 0 <= i < |rows| ==> rows[i].groupName == rows'[i].groupName
    ensures FirstAuthorizedFrom(rows, groups, from) == FirstAuthorizedFrom(rows', groups, from)
    decreases |rows| - from
  {
  }

  /** Only the first row's salt and password are consulted: the credentials
      on later rows make no difference. */
  lemma OnlyFirstRowCredentials(rows: seq<UserRow>, rows': seq<UserRow>, p: Policy, d: Digests,
                                password: string, groups: seq<string>, connectError: bool)
    requires |rows| == |rows'| && |rows| > 0 && rows[0] == rows'[0]
    requires forall i :: 0 <= i < |rows| ==>
      rows[i].username == rows'[i].username && rows[i].groupName == rows'[i].groupName
    ensures Decision(connectError, Some(rows), p, d, password, groups)
         == Decision(connectError, Some(rows'), p, d, password, groups)
  {
  }

  /** Under crc32 the hash is an integer, so the strict comparison with the
      stored string never succeeds and nobody logs in. */
  lemma Crc32NeverAuthenticates(connectError: bool, result: Option<seq<UserRow>>, p: Policy, d: Digests,
                                password: string, groups: seq<string>)
    requires p.encryptionMethod == Some("crc32")
    ensures Decision(connectError, result, p, d, password, groups) == Rejected
  {
  }

  /** Under an unrecognised method the hash is NULL and nobody logs in. */
  lemma UnknownMethodNeverAuthenticates(connectError: bool, result: Option<seq<UserRow>>, p: Policy,
                                        d: Digests, password: string, groups: seq<string>)
    requires !KnownMethod(p.encryptionMethod)
    ensures Decision(connectError, result, p, d, password, groups) == Rejected
  {
  }

  class UserWcf {
    const wcfPath: string
    const authorizedGroups: seq<string>

    /** Keeps the installation path and the authorized groups. */
    constructor (wcfPath: string, authorizedGroups: seq<string>)
      ensures this.wcfPath == wcfPath && this.authorizedGroups == authorizedGroups
    {
      this.wcfPath := wcfPath;
      this.authorizedGroups := authorizedGroups;
    }

    /** checkPassword: `lookup(uid)` is the result of the case-insensitive
        user query; `connectError` whether mysqli reported a connection
        error. */
    method CheckPassword(uid: string, password: string, p: Policy, d: Digests, connectError: bool,
                         lookup: string -> Option<seq<UserRow>>)
      returns (authenticatedAs: Verdict)
      ensures authenticatedAs == Decision(connectError, lookup(uid), p, d, password, authorizedGroups)
      ensures authenticatedAs.Accepted? ==>
        exists i :: 0 <= i < |lookup(uid).value| && lookup(uid).value[i].username == authenticatedAs.username
    {
      authenticatedAs := Rejected;
      if connectError {
        return;
      }
      var result := lookup(uid);
      if result.Some? && |result.value| > 0 {
        var rows := result.value;
        var row := rows[0];
        if GetDoubleSaltedHash(p, d, password, row.salt) == Some(Text(row.password)) {
          var k := 0;
          while k < |rows|
            invariant 0 <= k <= |rows|
            invariant forall j :: 0 <= j < k ==> !Authorized(rows[j], authorizedGroups)
            invariant authenticatedAs == Rejected
          {
            if rows[k].groupName.Some? && rows[k].groupName.value in authorizedGroups {
              authenticatedAs := Accepted(rows[k].username);
              assert FirstAuthorizedFrom(rows, authorizedGroups, 0) == Some(k);
              break;
            }
            k := k + 1;
          }
        }
      }
    }

    /** userExists: every user name is reported as existing. */
    method UserExists(uid: string) returns (found: bool)
      ensures found
    {
      found := true;
    }
  }

  /** Alice (group admins) and Bob (group guests) under default hashing with
      only admins authorized. The lookup is taken to match the typed "ALICE"
      to Alice's row, as the case-insensitive query does; she then logs in
      under the row's `username`, "alice", not under the `uid` she typed.
      Bob's correct password does not let him in. */
  method AdminsOnlyScenario(d: Digests) returns (alice: Verdict, bob: Verdict)
    ensures alice == Accepted("alice")
    ensures bob == Rejected
  {
    var aliceRow := UserRow(1, "alice", d.sha1("x1" + d.sha1("x1" + d.sha1("s3cret"))), "x1", Some("admins"));
    var bobRow := UserRow(2, "bob", d.sha1("x2" + d.sha1("x2" + d.sha1("hunter2"))), "x2", Some("guests"));
    var lookup := (uid: string) =>
      if uid in {"alice", "ALICE"} then Some([aliceRow])
      else if uid == "bob" then Some([bobRow])
      else Some([]);
    DefaultDoubleSalted(d, "s3cret", "x1");
    DefaultDoubleSalted(d, "hunter2", "x2");
    var backend := new UserWcf("/srv/wcf", ["admins"]);
    alice := backend.CheckPassword("ALICE", "s3cret", Defaults, d, false, lookup);
    bob := backend.CheckPassword("bob", "hunter2", Defaults, d, false, lookup);
  }
}
