/** The WoltLab Community Framework password hashing scheme: a digest chosen
    by configuration, an optional salting step, and the double-salted hash
    that login verification compares with the stored password. The global
    ENCRYPTION_* constants of the source are an explicit `Policy` here, and
    the digest primitives are the uninterpreted functions of `Digests`. */
module StringUtil {
  import opened Php

  /** The four hashing settings; `None` is a constant that is not defined.
      The two flags hold the truth value PHP gives the defined constant. */
  datatype Policy = Policy(
    encryptionMethod: Option<string>,      // ENCRYPTION_METHOD
    enableSalting: Option<bool>,           // ENCRYPTION_ENABLE_SALTING
    encryptBeforeSalting: Option<bool>,    // ENCRYPTION_ENCRYPT_BEFORE_SALTING
    saltPosition: Option<string>)          // ENCRYPTION_SALT_POSITION

  /** Every setting left undefined. */
  const Defaults := Policy(None, None, None, None)

  /** The digest primitives. crc32 yields an integer, the others strings. */
  datatype Digests = Digests(
    sha1: string -> string,
    md5: string -> string,
    crc32: string -> int,
    crypt: string -> string)

  /** A value returned by a digest. */
  datatype Hash = Text(s: string) | Number(n: int)

  /** PHP string conversion of a digest result, as `.` applies it:
      NULL becomes "", an integer its decimal text. */
  function HashText(h: Option<Hash>): string {
    match h
    case None => ""
    case Some(Text(s)) => s
    case Some(Number(n)) => IntToString(n)
  }

  predicate KnownMethod(m: Option<string>) {
    m.None? || m.value in {"sha1", "md5", "crc32", "crypt"}
  }

  /** Salting is on unless the setting is defined and false. */
  predicate SaltingOn(p: Policy) {
    p.enableSalting.None? || p.enableSalting.value
  }

  /** Hashing before salting is on unless the setting is defined and false. */
  predicate HashBeforeSalting(p: Policy) {
    p.encryptBeforeSalting.None? || p.encryptBeforeSalting.value
  }

  predicate SaltBefore(p: Policy) {
    p.saltPosition.None? || p.saltPosition.value == "before"
  }

  predicate SaltAfter(p: Policy) {
    p.saltPosition == Some("after")
  }

  /** getHash: the digest the method names; NULL for a method it does not
      recognise. */
  function GetHash(p: Policy, d: Digests, value: string): (r: Option<Hash>)
    ensures r.None? <==> !KnownMethod(p.encryptionMethod)
  {
    if p.encryptionMethod.None? || p.encryptionMethod.value == "sha1" then Some(Text(d.sha1(value)))
    else if p.encryptionMethod.value == "md5" then Some(Text(d.md5(value)))
    else if p.encryptionMethod.value == "crc32" then Some(Number(d.crc32(value)))
    else if p.encryptionMethod.value == "crypt" then Some(Text(d.crypt(value)))
    else None
  }

  /** getSaltedHash. */
  function GetSaltedHash(p: Policy, d: Digests, value: string, salt: string): (r: Option<Hash>)
    ensures r.None? <==> !KnownMethod(p.encryptionMethod) || (SaltingOn(p) && !SaltBefore(p) && !SaltAfter(p))
  {
    if SaltingOn(p) then
      var x := if HashBeforeSalting(p) then HashText(GetHash(p, d, value)) else value;
      if SaltBefore(p) then GetHash(p, d, salt + x)
      else if SaltAfter(p) then GetHash(p, d, x + salt)
      else None
    else
      GetHash(p, d, value)
  }

  /** getDoubleSaltedHash: one more salt-and-hash pass over the salted hash. */
  function GetDoubleSaltedHash(p: Policy, d: Digests, value: string, salt: string): (r: Option<Hash>)
    ensures r.None? <==> !KnownMethod(p.encryptionMethod)
  {
    GetHash(p, d, salt + HashText(GetSaltedHash(p, d, value, salt)))
  }

  /** Which digest each method setting selects. */
  lemma HashSelectsDigest(p: Policy, d: Digests, v: string)
    ensures p.encryptionMethod in {None, Some("sha1")} ==> GetHash(p, d, v) == Some(Text(d.sha1(v)))
    ensures p.encryptionMethod == Some("md5") ==> GetHash(p, d, v) == Some(Text(d.md5(v)))
    ensures p.encryptionMethod == Some("crc32") ==> GetHash(p, d, v) == Some(Number(d.crc32(v)))
    ensures p.encryptionMethod == Some("crypt") ==> GetHash(p, d, v) == Some(Text(d.crypt(v)))
  {
  }

  /** An unrecognised method falls through every branch: no digest at all,
      not a fallback to sha1. */
  lemma UnknownMethodHasNoHash(p: Policy, d: Digests, v: string, s: string)
    requires !KnownMethod(p.encryptionMethod)
    ensures GetHash(p, d, v) == None
    ensures GetSaltedHash(p, d, v, s) == None
    ensures GetDoubleSaltedHash(p, d, v, s) == None
  {
  }

  /** With salting disabled the salted hash is the plain hash: the salt, the
      pre-hash flag and the salt position make no difference. */
  lemma SaltingOffIgnoresSalt(p: Policy, d: Digests, v: string, s: string, s': string,
                              pre: Option<bool>, pos: Option<string>)
    requires p.enableSalting == Some(false)
    ensures GetSaltedHash(p, d, v, s) == GetHash(p, d, v)
    ensures GetSaltedHash(p, d, v, s) == GetSaltedHash(p.(encryptBeforeSalting := pre, saltPosition := pos), d, v, s')
  {
  }

  /** With salting on, the value X that meets the salt is the hashed value
      (pre-hash on or undefined) or the value itself; the salt goes in front
      (position undefined or "before") or behind ("after"); any other
      position yields no hash. */
  lemma SaltedHashShape(p: Policy, d: Digests, v: string, s: string)
    requires SaltingOn(p)
    ensures var x := if HashBeforeSalting(p) then HashText(GetHash(p, d, v)) else v;
      && (SaltBefore(p) ==> GetSaltedHash(p, d, v, s) == GetHash(p, d, s + x))
      && (SaltAfter(p) ==> GetSaltedHash(p, d, v, s) == GetHash(p, d, x + s))
      && (!SaltBefore(p) && !SaltAfter(p) ==> GetSaltedHash(p, d, v, s) == None)
  {
  }

  /** The outer salt-and-hash pass is applied whatever the salting settings
      say: with salting off the double-salted hash still salts once. */
  lemma DoubleSaltedWithSaltingOff(p: Policy, d: Digests, v: string, s: string)
    requires p.enableSalting == Some(false)
    ensures GetDoubleSaltedHash(p, d, v, s) == GetHash(p, d, s + HashText(GetHash(p, d, v)))
  {
  }

  /** With every setting undefined the stored value is
      sha1(salt . sha1(salt . sha1(password))). */
  lemma DefaultDoubleSalted(d: Digests, v: string, s: string)
    ensures GetDoubleSaltedHash(Defaults, d, v, s) == Some(Text(d.sha1(s + d.sha1(s + d.sha1(v)))))
  {
  }

  /** With salting on and a salt position that is neither "before" nor
      "after", the inner NULL concatenates as "": the double-salted hash is
      the hash of the salt alone, the same for every password. */
  lemma BadPositionIgnoresPassword(p: Policy, d: Digests, v: string, v': string, s: string)
    requires KnownMethod(p.encryptionMethod)
    requires SaltingOn(p) && !SaltBefore(p) && !SaltAfter(p)
    ensures GetDoubleSaltedHash(p, d, v, s) == GetHash(p, d, s)
    ensures GetDoubleSaltedHash(p, d, v, s) == GetDoubleSaltedHash(p, d, v', s)
  {
    assert s + HashText(None) == s;
  }

  /** Under crc32 the double-salted hash is an integer, never a string. */
  lemma Crc32HashIsNumber(p: Policy, d: Digests, v: string, s: string)
    requires p.encryptionMethod == Some("crc32")
    ensures GetDoubleSaltedHash(p, d, v, s).Some?
    ensures GetDoubleSaltedHash(p, d, v, s).value.Number?
  {
  }
}
