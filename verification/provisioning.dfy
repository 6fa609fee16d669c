/** The admin provisioning script (`scripts/create-admin.ts`): reads a
    username, a password and its confirmation, checks them one after the
    other, and only when every check passes inserts one admin row holding
    the trimmed username and the digest of the password. The prompts are
    the three answers given as parameters; bcrypt is the `hash` parameter. */
module Provisioning {
  import opened Accounts

  /** The characters `String.prototype.trim` removes: the white space and
      line terminators of the ECMAScript grammar. */
  predicate IsSpace(c: char) {
    || c == '\t' || c == '\n' || c == '\U{000B}' || c == '\U{000C}' || c == '\r'
    || c == ' ' || c == '\U{00A0}' || c == '\U{1680}'
    || ('\U{2000}' <= c <= '\U{200A}')
    || c == '\U{2028}' || c == '\U{2029}' || c == '\U{202F}' || c == '\U{205F}'
    || c == '\U{3000}' || c == '\U{FEFF}'
  }

  /** Every character of `s` at a position in `[lo, hi)` is white space. */
  predicate SpaceBetween(s: string, lo: int, hi: int)
    requires 0 <= lo && hi <= |s|
  {
    forall k :: lo <= k < hi ==> IsSpace(s[k])
  }

  predicate AllSpace(s: string) {
    SpaceBetween(s, 0, |s|)
  }

  /** The first position at or after `i` that does not hold white space
      (`|s|` when there is none). */
  function SkipSpaceForward(s: string, i: nat): (j: nat)
    requires i <= |s|
    ensures i <= j <= |s| && SpaceBetween(s, i, j)
    ensures j < |s| ==> !IsSpace(s[j])
    decreases |s| - i
  {
    if i < |s| && IsSpace(s[i]) then SkipSpaceForward(s, i + 1) else i
  }

  /** The position just after the last character before `j`, and not before
      `lo`, that does not hold white space (`lo` when there is none). */
  function SkipSpaceBackward(s: string, lo: nat, j: nat): (i: nat)
    requires lo <= j <= |s|
    ensures lo <= i <= j && SpaceBetween(s, i, j)
    ensures lo < i ==> !IsSpace(s[i - 1])
    decreases j - lo
  {
    if lo < j && IsSpace(s[j - 1]) then SkipSpaceBackward(s, lo, j - 1) else j
  }

  /** `String.prototype.trim`: the leading white space is cut, then the
      trailing white space of what remains. */
  function Trim(s: string): (r: string)
    ensures |r| <= |s|
    ensures r == [] || (!IsSpace(r[0]) && !IsSpace(r[|r| - 1]))
  {
    var i := SkipSpaceForward(s, 0);
    s[i..SkipSpaceBackward(s, i, |s|)]
  }

  /** The trimmed string is a contiguous piece of the original, starting
      after the leading white space, with white space, and only white space,
      cut from both ends. */
  lemma TrimCutsSpaceOnly(s: string)
    ensures var r, i := Trim(s), SkipSpaceForward(s, 0);
      && i + |r| <= |s| && r == s[i..i + |r|]
      && SpaceBetween(s, 0, i) && SpaceBetween(s, i + |r|, |s|)
      && (r == [] || (!IsSpace(r[0]) && !IsSpace(r[|r| - 1])))
  {
  }

  /** The trimmed string is empty exactly when the original is all white space. */
  lemma TrimEmptyIffAllSpace(s: string)
    ensures Trim(s) == [] <==> AllSpace(s)
  {
    var i := SkipSpaceForward(s, 0);
    var j := SkipSpaceBackward(s, i, |s|);
    if !AllSpace(s) {
      var k :| 0 <= k < |s| && !IsSpace(s[k]);
      assert i <= k < j;
    } else if i < |s| {
      assert false;
    }
  }

  /** Trimming twice is trimming once. */
  lemma TrimIdempotent(s: string)
    ensures Trim(Trim(s)) == Trim(s)
  {
    var r := Trim(s);
    TrimCutsSpaceOnly(s);
    assert SkipSpaceForward(r, 0) == 0;
    assert SkipSpaceBackward(r, 0, |r|) == |r|;
    assert r[0..|r|] == r;
  }

  /** The first character outside the Basic Multilingual Plane. */
  const FirstAstral: char := '\U{10000}'

  /** `s.length` in JavaScript: the number of UTF-16 code units, one for
      each character of the Basic Multilingual Plane and two (a surrogate
      pair) for each character beyond it. */
  function Utf16Length(s: string): (n: nat)
    ensures |s| <= n <= 2 * |s|
    ensures n == |s| <==> forall i :: 0 <= i < |s| ==> s[i] < FirstAstral
  {
    if s == [] then 0
    else Utf16Length(s[..|s| - 1]) + (if s[|s| - 1] < FirstAstral then 1 else 2)
  }

  /** Four emoji are four characters but eight code units, enough for the
      script's eight-character minimum. */
  lemma FourEmojiAreEightUnits()
    ensures Utf16Length("\U{1F600}\U{1F600}\U{1F600}\U{1F600}") == 8
  {
    var e := "\U{1F600}";
    assert "\U{1F600}\U{1F600}\U{1F600}\U{1F600}"[..3] == e + e + e;
    assert (e + e + e)[..2] == e + e;
    assert (e + e)[..1] == e;
    assert e[..0] == [];
  }

  /** How the script ends: one of its four aborts, or the admin it created. */
  datatype Provisioned =
    | EmptyUsername
    | AlreadyExists
    | PasswordTooShort
    | PasswordMismatch
    | Created(admin: Admin)

  /** `createAdmin()`: the username check, the duplicate check on the
      trimmed username, the length check and the confirmation check, in that
      order; an abort changes nothing, and success inserts exactly one admin
      with the trimmed username and the digest of the password. */
  method CreateAdmin(store: AdminStore, username: string, password: string, confirmation: string,
                     hash: string -> PasswordHash, newId: string)
    returns (outcome: Provisioned)
    requires store.Valid()
    modifies store
    ensures store.Valid()
    ensures AllSpace(username) ==> outcome == EmptyUsername
    ensures !AllSpace(username) && Trim(username) in old(store.admins) ==> outcome == AlreadyExists
    ensures !AllSpace(username) && Trim(username) !in old(store.admins) && Utf16Length(password) < 8 ==>
      outcome == PasswordTooShort
    ensures !AllSpace(username) && Trim(username) !in old(store.admins) && Utf16Length(password) >= 8
            && password != confirmation ==>
      outcome == PasswordMismatch
    ensures outcome.Created? <==> !AllSpace(username) && Trim(username) !in old(store.admins)
                                  && Utf16Length(password) >= 8 && password == confirmation
    ensures !outcome.Created? ==> store.admins == old(store.admins)
    ensures outcome.Created? ==>
      && outcome.admin == Admin(newId, Trim(username), hash(password))
      && store.admins == old(store.admins)[Trim(username) := outcome.admin]
      && |store.admins| == |old(store.admins)| + 1
  {
    TrimEmptyIffAllSpace(username);
    var name := Trim(username);
    if username == "" || name == "" {
      return EmptyUsername;
    }
    if name in store.admins {
      return AlreadyExists;
    }
    if password == "" || Utf16Length(password) < 8 {
      return PasswordTooShort;
    }
    if password != confirmation {
      return PasswordMismatch;
    }
    var passwordHash := hash(password);
    var admin := Admin(newId, name, passwordHash);
    store.admins := store.admins[name := admin];
    outcome := Created(admin);
  }
}
