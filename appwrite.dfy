/** The document-store helpers (app/lib/appwrite.ts) over three collections held
    in memory: profiles, audit logs and encrypted refresh tokens ("secrets").

    A store call that fails is modelled by a `fault` argument: `Some(e)` makes the
    first call to the store throw `e`, and a failing operation changes nothing.
    Timestamps are numbers handed in by the caller (ISO-8601 strings of one clock
    order the same way). */
module Store {
  import opened Common

  // ---------------------------------------------------------------------------
  // Profiles

  const DefaultTimeZone := "America/New_York"
  const DefaultRole := "user"
  const ProfileNotFoundMessage := "Profile not found"

  /** A stored profile document; `timeZone` and `role` may be missing or empty. */
  datatype ProfileDoc = ProfileDoc(docId: nat, userId: string, displayName: string, email: string,
                                   timeZone: Option<string>, role: Option<string>)

  /** `UserProfile` as `getProfile` returns it. */
  datatype UserProfile = UserProfile(userId: string, displayName: string, email: string,
                                     timeZone: string, role: string)

  /** `Partial<UserProfile>`: the fields an update sets, `userId` included, since
      `updateDocument` receives the object as it is. */
  datatype ProfileUpdate = ProfileUpdate(userId: Option<string>, displayName: Option<string>,
                                         email: Option<string>, timeZone: Option<string>,
                                         role: Option<string>)

  predicate ProfileOf(userId: string, d: ProfileDoc) {
    d.userId == userId
  }

  /** The profile `getProfile` reads from the first document of the user. */
  function ProfileLookup(docs: seq<ProfileDoc>, userId: string): (r: Option<UserProfile>)
    ensures r.None? <==> forall j :: 0 <= j < |docs| ==> docs[j].userId != userId
    ensures r.Some? ==> r.value.userId == userId
    ensures r.Some? ==> r.value.timeZone != "" && r.value.role != ""
  {
    match FirstIndex(docs, d => ProfileOf(userId, d))
    case None => None
    case Some(i) =>
      var d := docs[i];
      Some(UserProfile(d.userId, d.displayName, d.email,
                       OrElse(d.timeZone, DefaultTimeZone), OrElse(d.role, DefaultRole)))
  }

  /** A profile stored without a time zone or role reads back with the defaults. */
  lemma ProfileDefaults(docs: seq<ProfileDoc>, d: ProfileDoc)
    requires forall j :: 0 <= j < |docs| ==> docs[j].userId != d.userId
    requires !Truthy(d.timeZone) && !Truthy(d.role)
    ensures ProfileLookup(docs + [d], d.userId) ==
      Some(UserProfile(d.userId, d.displayName, d.email, DefaultTimeZone, DefaultRole))
  {
    FirstIndexAppend(docs, d, x => ProfileOf(d.userId, x));
  }

  /** `updateDocument` with a partial profile: the given fields replace the stored ones. */
  function ApplyUpdate(d: ProfileDoc, u: ProfileUpdate): (r: ProfileDoc)
    ensures r.docId == d.docId
    ensures r.userId == (if u.userId.Some? then u.userId.value else d.userId)
    ensures r.displayName == (if u.displayName.Some? then u.displayName.value else d.displayName)
    ensures r.email == (if u.email.Some? then u.email.value else d.email)
    ensures r.timeZone == (if u.timeZone.Some? then u.timeZone else d.timeZone)
    ensures r.role == (if u.role.Some? then u.role else d.role)
  {
    ProfileDoc(d.docId,
               match u.userId case Some(v) => v case None => d.userId,
               match u.displayName case Some(v) => v case None => d.displayName,
               match u.email case Some(v) => v case None => d.email,
               if u.timeZone.Some? then u.timeZone else d.timeZone,
               if u.role.Some? then u.role else d.role)
  }

  /** An update that leaves `userId` alone keeps the profile readable under its id,
      with the new fields. */
  lemma UpdateReadsBack(docs: seq<ProfileDoc>, userId: string, u: ProfileUpdate)
    requires FirstIndex(docs, d => ProfileOf(userId, d)).Some?
    requires u.userId.None? || u.userId == Some(userId)
    ensures var i := FirstIndex(docs, d => ProfileOf(userId, d)).value;
      var n := ApplyUpdate(docs[i], u);
      ProfileLookup(docs[i := n], userId) ==
        Some(UserProfile(userId, n.displayName, n.email,
                         OrElse(n.timeZone, DefaultTimeZone), OrElse(n.role, DefaultRole)))
  {
    var i := FirstIndex(docs, d => ProfileOf(userId, d)).value;
    FirstIndexReplace(docs, i, ApplyUpdate(docs[i], u), d => ProfileOf(userId, d));
  }

  /** An update that rewrites `userId` of the user's only profile leaves nothing to
      read back under the old id. */
  lemma RenamedProfileGone(docs: seq<ProfileDoc>, userId: string, u: ProfileUpdate, i: nat)
    requires i < |docs| && docs[i].userId == userId
    requires forall j :: 0 <= j < |docs| && j != i ==> docs[j].userId != userId
    requires u.userId.Some? && u.userId.value != userId
    ensures ProfileLookup(docs[i := ApplyUpdate(docs[i], u)], userId).None?
  {
    var r := docs[i := ApplyUpdate(docs[i], u)];
    assert forall j :: 0 <= j < |r| ==> r[j].userId != userId by {
      forall j | 0 <= j < |r| ensures r[j].userId != userId {
        if j == i { assert r[j] == ApplyUpdate(docs[i], u); }
      }
    }
  }

  // ---------------------------------------------------------------------------
  // Audit logs

  /** An audit record as the routes write it (`Omit<AuditLog, 'createdAt'>`);
      `payload` and `responseData` are the values whose JSON text is stored. */
  datatype AuditRecord = AuditRecord(
    userId: string,
    userEmail: string,
    action: string,
    mode: string,
    status: string,
    payload: Option<Json>,
    error: Option<string>,
    responseData: Option<Json>)

  datatype AuditLog = AuditLog(record: AuditRecord, createdAt: nat)

  const DefaultAuditLimit: nat := 50

  /** The records of one user, in store order. */
  function OfUser(logs: seq<AuditLog>, userId: string): (r: seq<AuditLog>)
    ensures forall i :: 0 <= i < |r| ==> r[i].record.userId == userId
    ensures multiset(r) <= multiset(logs)
    ensures forall x :: x in logs && x.record.userId == userId ==> multiset(r)[x] == multiset(logs)[x]
  {
    if logs == [] then []
    else
      assert logs == [logs[0]] + logs[1..];
      (if logs[0].record.userId == userId then [logs[0]] else []) + OfUser(logs[1..], userId)
  }

  predicate NewestFirst(logs: seq<AuditLog>) {
    forall i, j :: 0 <= i < j < |logs| ==> logs[i].createdAt >= logs[j].createdAt
  }

  /** A record at least as new as the head of a newest-first list can go in front. */
  lemma ConsNewest(y: AuditLog, rest: seq<AuditLog>)
    requires NewestFirst(rest)
    requires rest != [] ==> rest[0].createdAt <= y.createdAt
    ensures NewestFirst([y] + rest)
  {
    var r := [y] + rest;
    forall i, j | 0 <= i < j < |r| ensures r[i].createdAt >= r[j].createdAt {
      assert r[j] == rest[j - 1];
      if i > 0 {
        assert r[i] == rest[i - 1];
      } else if j > 1 {
        assert rest[0].createdAt >= rest[j - 1].createdAt;
      }
    }
  }

  /** Places one record into a newest-first list, after every record at least as new. */
  function InsertByDate(x: AuditLog, logs: seq<AuditLog>): (r: seq<AuditLog>)
    requires NewestFirst(logs)
    ensures NewestFirst(r)
    ensures multiset(r) == multiset(logs) + multiset{x}
    ensures r[0] == x || (logs != [] && r[0] == logs[0])
  {
    if logs == [] then [x]
    else if logs[0].createdAt <= x.createdAt then
      ConsNewest(x, logs);
      [x] + logs
    else
      assert logs == [logs[0]] + logs[1..];
      assert NewestFirst(logs[1..]);
      var rest := InsertByDate(x, logs[1..]);
      ConsNewest(logs[0], rest);
      [logs[0]] + rest
  }

  /** `Query.orderDesc('createdAt')`: the same records, newest first. */
  function ByDateDesc(logs: seq<AuditLog>): (r: seq<AuditLog>)
    ensures NewestFirst(r)
    ensures multiset(r) == multiset(logs)
  {
    if logs == [] then []
    else
      assert logs == [logs[0]] + logs[1..];
      InsertByDate(logs[0], ByDateDesc(logs[1..]))
  }

  /** What `getAuditLogs(userId, limit)` lists when the store answers. */
  function AuditListing(logs: seq<AuditLog>, userId: string, limit: nat): seq<AuditLog> {
    var sorted := ByDateDesc(OfUser(logs, userId));
    sorted[..if limit <= |sorted| then limit else |sorted|]
  }

  /** The listing holds only the user's records, newest first, at most `limit` of
      them, each one stored; when fewer than `limit` come back, they are all of
      the user's records. */
  lemma {:induction false} AuditListingSpec(logs: seq<AuditLog>, userId: string, limit: nat)
    ensures var r := AuditListing(logs, userId, limit);
      && |r| <= limit
      && (forall i :: 0 <= i < |r| ==> r[i].record.userId == userId)
      && NewestFirst(r)
      && multiset(r) <= multiset(logs)
      && (|r| < limit ==> multiset(r) == multiset(OfUser(logs, userId)))
  {
    var mine := OfUser(logs, userId);
    var sorted := ByDateDesc(mine);
    forall i | 0 <= i < |sorted| ensures sorted[i].record.userId == userId {
      assert sorted[i] in multiset(sorted);
      OfUserOwns(logs, userId, sorted[i]);
    }
    PrefixListing(sorted, userId, limit);
  }

  /** The first `limit` records of a newest-first list of one user's records. */
  lemma PrefixListing(sorted: seq<AuditLog>, userId: string, limit: nat)
    requires NewestFirst(sorted)
    requires forall i :: 0 <= i < |sorted| ==> sorted[i].record.userId == userId
    ensures var r := sorted[..if limit <= |sorted| then limit else |sorted|];
      && |r| <= limit
      && (forall i :: 0 <= i < |r| ==> r[i].record.userId == userId)
      && NewestFirst(r)
      && multiset(r) <= multiset(sorted)
      && (|r| < limit ==> r == sorted)
  {
    var n := if limit <= |sorted| then limit else |sorted|;
    assert sorted == sorted[..n] + sorted[n..];
  }

  /** Every record in a user's selection is that user's. */
  lemma OfUserOwns(logs: seq<AuditLog>, userId: string, x: AuditLog)
    requires x in multiset(OfUser(logs, userId))
    ensures x.record.userId == userId
  {
    var mine := OfUser(logs, userId);
    var k :| 0 <= k < |mine| && mine[k] == x;
  }

  /** The listing is the newest of the user's records: none left out is newer
      than the last one listed. */
  lemma {:induction false} AuditListingNewest(logs: seq<AuditLog>, userId: string, limit: nat, x: AuditLog)
    requires limit > 0
    requires x in OfUser(logs, userId) && x !in AuditListing(logs, userId, limit)
    ensures var r := AuditListing(logs, userId, limit);
      r != [] && x.createdAt <= r[|r| - 1].createdAt
  {
    var sorted := ByDateDesc(OfUser(logs, userId));
    var n := if limit <= |sorted| then limit else |sorted|;
    assert x in multiset(sorted);
    var k :| 0 <= k < |sorted| && sorted[k] == x;
    assert k >= n;
    assert sorted[n - 1].createdAt >= sorted[k].createdAt;
  }

  // ---------------------------------------------------------------------------
  // Secrets

  /** A stored, encrypted refresh token. */
  datatype SecretDoc = SecretDoc(docId: nat, userId: string, provider: string, refreshTokenEnc: string,
                                 createdAt: nat, updatedAt: nat)

  predicate SecretOf(userId: string, provider: string, d: SecretDoc) {
    d.userId == userId && d.provider == provider
  }

  /** At most one document per (user, provider). */
  predicate UniquePairs(docs: seq<SecretDoc>) {
    forall i, j :: 0 <= i < j < |docs| ==> !(docs[i].userId == docs[j].userId && docs[i].provider == docs[j].provider)
  }

  /** `getSecret(userId, provider)` when the store answers. */
  function SecretLookup(docs: seq<SecretDoc>, userId: string, provider: string): (r: Option<string>)
    ensures r.None? <==> forall j :: 0 <= j < |docs| ==> !SecretOf(userId, provider, docs[j])
    ensures r.Some? ==> exists j :: 0 <= j < |docs| && SecretOf(userId, provider, docs[j]) && docs[j].refreshTokenEnc == r.value
  {
    match FirstIndex(docs, d => SecretOf(userId, provider, d))
    case None => None
    case Some(i) => Some(docs[i].refreshTokenEnc)
  }

  /** The secrets after `saveSecret(userId, provider, value)` at time `now`: the
      first matching document gets the new value and `updatedAt`, or a new one is
      appended under the id `docId`. */
  function Upserted(docs: seq<SecretDoc>, userId: string, provider: string, value: string, now: nat, docId: nat): seq<SecretDoc> {
    match FirstIndex(docs, d => SecretOf(userId, provider, d))
    case None => docs + [SecretDoc(docId, userId, provider, value, now, now)]
    case Some(i) => docs[i := docs[i].(refreshTokenEnc := value, updatedAt := now)]
  }

  /** Saving never produces a second document for a pair. */
  lemma UpsertKeepsUnique(docs: seq<SecretDoc>, userId: string, provider: string, value: string, now: nat, docId: nat)
    requires UniquePairs(docs)
    ensures UniquePairs(Upserted(docs, userId, provider, value, now, docId))
  {
    var r := Upserted(docs, userId, provider, value, now, docId);
    if FirstIndex(docs, d => SecretOf(userId, provider, d)).None? {
      forall i, j | 0 <= i < j < |r|
        ensures !(r[i].userId == r[j].userId && r[i].provider == r[j].provider)
      {
        if j == |docs| {
          assert !SecretOf(userId, provider, docs[i]);
        }
      }
    }
  }

  /** After a save, the pair reads back the saved value, and every other pair
      reads back what it did before. */
  lemma {:induction false} UpsertThenLookup(docs: seq<SecretDoc>, userId: string, provider: string, value: string,
                                            now: nat, docId: nat, u: string, p: string)
    requires UniquePairs(docs)
    ensures SecretLookup(Upserted(docs, userId, provider, value, now, docId), u, p) ==
      if u == userId && p == provider then Some(value) else SecretLookup(docs, u, p)
  {
    var r := Upserted(docs, userId, provider, value, now, docId);
    match FirstIndex(docs, d => SecretOf(userId, provider, d))
    case None =>
      if u == userId && p == provider {
        FirstIndexAppend(docs, SecretDoc(docId, userId, provider, value, now, now), d => SecretOf(u, p, d));
      } else {
        FirstIndexPrefix(docs, [SecretDoc(docId, userId, provider, value, now, now)], u, p);
      }
    case Some(i) =>
      if u == userId && p == provider {
        assert SecretOf(u, p, r[i]);
        assert forall j :: 0 <= j < i ==> r[j] == docs[j];
      } else {
        FirstIndexSkipping(docs, r, i, u, p);
      }
  }

  /** Appending documents for other pairs does not change what a pair finds. */
  lemma FirstIndexPrefix(docs: seq<SecretDoc>, more: seq<SecretDoc>, u: string, p: string)
    requires forall j :: 0 <= j < |more| ==> !SecretOf(u, p, more[j])
    ensures SecretLookup(docs + more, u, p) == SecretLookup(docs, u, p)
  {
    var r := docs + more;
    assert forall j :: 0 <= j < |docs| ==> r[j] == docs[j];
    match FirstIndex(docs, d => SecretOf(u, p, d))
    case None =>
      assert forall j :: 0 <= j < |r| ==> !SecretOf(u, p, r[j]) by {
        forall j | 0 <= j < |r| ensures !SecretOf(u, p, r[j]) {
          if j >= |docs| { assert r[j] == more[j - |docs|]; }
        }
      }
    case Some(i) =>
  }

  /** Changing one document of another pair does not change what a pair finds. */
  lemma FirstIndexSkipping(docs: seq<SecretDoc>, r: seq<SecretDoc>, i: nat, u: string, p: string)
    requires i < |docs| && |r| == |docs|
    requires forall j :: 0 <= j < |docs| && j != i ==> r[j] == docs[j]
    requires !SecretOf(u, p, docs[i]) && !SecretOf(u, p, r[i])
    ensures SecretLookup(r, u, p) == SecretLookup(docs, u, p)
  {
    match FirstIndex(docs, d => SecretOf(u, p, d))
    case None =>
      assert forall j :: 0 <= j < |r| ==> !SecretOf(u, p, r[j]) by {
        forall j | 0 <= j < |r| ensures !SecretOf(u, p, r[j]) {
          if j != i { assert r[j] == docs[j]; }
        }
      }
    case Some(k) =>
      assert r[k] == docs[k];
      assert forall j :: 0 <= j < k ==> !SecretOf(u, p, r[j]) by {
        forall j | 0 <= j < k ensures !SecretOf(u, p, r[j]) {
          if j != i { assert r[j] == docs[j]; }
        }
      }
  }

  /** On create the two stamps agree; on update only the value and `updatedAt`
      change, and no document is added. */
  lemma UpsertStamps(docs: seq<SecretDoc>, userId: string, provider: string, value: string, now: nat, docId: nat)
    ensures var r := Upserted(docs, userId, provider, value, now, docId);
      match FirstIndex(docs, d => SecretOf(userId, provider, d))
      case None => |r| == |docs| + 1 && r[..|docs|] == docs && r[|docs|].createdAt == r[|docs|].updatedAt == now
      case Some(i) =>
        && |r| == |docs| && (forall j :: 0 <= j < |docs| && j != i ==> r[j] == docs[j])
        && r[i] == SecretDoc(docs[i].docId, userId, provider, value, docs[i].createdAt, now)
  {
  }

  /** The secrets after `deleteSecret(userId, provider)`: the first matching
      document is gone, if there was one. */
  function Deleted(docs: seq<SecretDoc>, userId: string, provider: string): seq<SecretDoc> {
    match FirstIndex(docs, d => SecretOf(userId, provider, d))
    case None => docs
    case Some(i) => docs[..i] + docs[i + 1..]
  }

  /** Deleting a pair leaves no value for it when pairs are unique; deleting an
      absent pair changes nothing. */
  lemma DeleteThenLookup(docs: seq<SecretDoc>, userId: string, provider: string)
    requires UniquePairs(docs)
    ensures SecretLookup(Deleted(docs, userId, provider), userId, provider).None?
    ensures SecretLookup(docs, userId, provider).None? ==> Deleted(docs, userId, provider) == docs
    ensures UniquePairs(Deleted(docs, userId, provider))
  {
    match FirstIndex(docs, d => SecretOf(userId, provider, d))
    case None =>
    case Some(i) =>
      var r := Deleted(docs, userId, provider);
      forall j | 0 <= j < |r| ensures !SecretOf(userId, provider, r[j]) {
        if j >= i { assert r[j] == docs[j + 1]; }
      }
      forall a, b | 0 <= a < b < |r| ensures !(r[a].userId == r[b].userId && r[a].provider == r[b].provider) {
        var a', b' := if a < i then a else a + 1, if b < i then b else b + 1;
        assert r[a] == docs[a'] && r[b] == docs[b'];
      }
  }

  // ---------------------------------------------------------------------------
  // The database

  class Database {
    var profiles: seq<ProfileDoc>
    var auditLogs: seq<AuditLog>
    var secrets: seq<SecretDoc>
    var nextDocId: nat

    ghost predicate Valid()
      reads this
    {
      UniquePairs(secrets)
    }

    constructor ()
      ensures Valid() && profiles == [] && auditLogs == [] && secrets == [] && nextDocId == 0
    {
      profiles, auditLogs, secrets, nextDocId := [], [], [], 0;
    }

    /** `getProfile(userId)`: `null` when the user has none; errors propagate. */
    function GetProfile(userId: string, fault: Option<Error>): (r: Result<Option<UserProfile>>)
      reads this
      ensures fault.Some? ==> r == Err(fault.value)
      ensures fault.None? ==> r == Ok(ProfileLookup(profiles, userId))
    {
      if fault.Some? then Err(fault.value) else Ok(ProfileLookup(profiles, userId))
    }

    /** `createProfile(profile)`. */
    method CreateProfile(profile: UserProfile, fault: Option<Error>) returns (r: Result<()>)
      modifies this
      ensures fault.Some? ==> r == Err(fault.value) && profiles == old(profiles) && nextDocId == old(nextDocId)
      ensures fault.None? ==>
        (r.Ok? && nextDocId == old(nextDocId) + 1 &&
         profiles == old(profiles) + [ProfileDoc(old(nextDocId), profile.userId, profile.displayName, profile.email,
                                                 Some(profile.timeZone), Some(profile.role))])
      ensures auditLogs == old(auditLogs) && secrets == old(secrets)
    {
      if fault.Some? {
        return Err(fault.value);
      }
      profiles := profiles + [ProfileDoc(nextDocId, profile.userId, profile.displayName, profile.email,
                                         Some(profile.timeZone), Some(profile.role))];
      nextDocId := nextDocId + 1;
      r := Ok(());
    }

    /** `updateProfile(userId, updates)`: 'Profile not found' when the user has none. */
    method UpdateProfile(userId: string, updates: ProfileUpdate, fault: Option<Error>) returns (r: Result<()>)
      modifies this
      ensures fault.Some? ==> r == Err(fault.value)
      ensures fault.None? && FirstIndex(old(profiles), d => ProfileOf(userId, d)).None? ==>
        r == Fail(ProfileNotFoundMessage)
      ensures r.Ok? <==> fault.None? && FirstIndex(old(profiles), d => ProfileOf(userId, d)).Some?
      ensures r.Ok? ==> var i := FirstIndex(old(profiles), d => ProfileOf(userId, d)).value;
        profiles == old(profiles)[i := ApplyUpdate(old(profiles)[i], updates)]
      ensures r.Err? ==> profiles == old(profiles)
      ensures auditLogs == old(auditLogs) && secrets == old(secrets) && nextDocId == old(nextDocId)
    {
      if fault.Some? {
        return Err(fault.value);
      }
      var found := FirstIndex(profiles, d => ProfileOf(userId, d));
      if found.None? {
        return Fail(ProfileNotFoundMessage);
      }
      profiles := profiles[found.value := ApplyUpdate(profiles[found.value], updates)];
      r := Ok(());
    }

    /** `createAuditLog(log)`: appends the record stamped `now`; a store failure is
        swallowed, so the caller never sees an error. */
    method CreateAuditLog(record: AuditRecord, now: nat, fault: Option<Error>)
      modifies this
      ensures auditLogs == if fault.None? then old(auditLogs) + [AuditLog(record, now)] else old(auditLogs)
      ensures profiles == old(profiles) && secrets == old(secrets) && nextDocId == old(nextDocId)
    {
      if fault.None? {
        auditLogs := auditLogs + [AuditLog(record, now)];
      }
    }

    /** `getAuditLogs(userId, limit = 50)`: `[]` when the store fails. */
    function GetAuditLogs(userId: string, limit: Option<nat>, fault: Option<Error>): (r: seq<AuditLog>)
      reads this
      ensures fault.Some? ==> r == []
      ensures fault.None? ==> r == AuditListing(auditLogs, userId, if limit.Some? then limit.value else DefaultAuditLimit)
    {
      if fault.Some? then []
      else AuditListing(auditLogs, userId, if limit.Some? then limit.value else DefaultAuditLimit)
    }

    /** `getSecret(userId, provider)`: `null` when absent; errors propagate. */
    function GetSecret(userId: string, provider: string, fault: Option<Error>): (r: Result<Option<string>>)
      reads this
      ensures fault.Some? ==> r == Err(fault.value)
      ensures fault.None? ==> r == Ok(SecretLookup(secrets, userId, provider))
    {
      if fault.Some? then Err(fault.value) else Ok(SecretLookup(secrets, userId, provider))
    }

    /** `saveSecret(userId, provider, refreshTokenEnc)` at time `now`. */
    method SaveSecret(userId: string, provider: string, refreshTokenEnc: string, now: nat, fault: Option<Error>)
      returns (r: Result<()>)
      requires Valid()
      modifies this
      ensures Valid()
      ensures fault.Some? ==> r == Err(fault.value) && secrets == old(secrets) && nextDocId == old(nextDocId)
      ensures fault.None? ==> r.Ok? && secrets == Upserted(old(secrets), userId, provider, refreshTokenEnc, now, old(nextDocId))
      ensures fault.None? ==> GetSecret(userId, provider, None) == Ok(Some(refreshTokenEnc))
      ensures profiles == old(profiles) && auditLogs == old(auditLogs)
    {
      if fault.Some? {
        return Err(fault.value);
      }
      var existing := FirstIndex(secrets, d => SecretOf(userId, provider, d));
      var docs := secrets;
      if existing.Some? {
        var i := existing.value;
        secrets := secrets[i := secrets[i].(refreshTokenEnc := refreshTokenEnc, updatedAt := now)];
      } else {
        secrets := secrets + [SecretDoc(nextDocId, userId, provider, refreshTokenEnc, now, now)];
        nextDocId := nextDocId + 1;
      }
      UpsertKeepsUnique(docs, userId, provider, refreshTokenEnc, now, old(nextDocId));
      UpsertThenLookup(docs, userId, provider, refreshTokenEnc, now, old(nextDocId), userId, provider);
      r := Ok(());
    }

    /** `deleteSecret(userId, provider)`: a no-op when there is nothing to delete. */
    method DeleteSecret(userId: string, provider: string, fault: Option<Error>) returns (r: Result<()>)
      requires Valid()
      modifies this
      ensures Valid()
      ensures fault.Some? ==> r == Err(fault.value) && secrets == old(secrets)
      ensures fault.None? ==> r.Ok? && secrets == Deleted(old(secrets), userId, provider)
      ensures fault.None? ==> GetSecret(userId, provider, None) == Ok(None)
      ensures profiles == old(profiles) && auditLogs == old(auditLogs) && nextDocId == old(nextDocId)
    {
      if fault.Some? {
        return Err(fault.value);
      }
      DeleteThenLookup(secrets, userId, provider);
      var found := FirstIndex(secrets, d => SecretOf(userId, provider, d));
      if found.Some? {
        secrets := secrets[..found.value] + secrets[found.value + 1..];
      }
      r := Ok(());
    }
  }
}
