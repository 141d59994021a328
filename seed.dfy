/** The collection seeder (infra/appwrite/seed.js): the permission table for each
    collection, and the create-only-when-missing logic of `createDatabase` and
    `createCollection` against an in-memory Appwrite server. The Appwrite SDK's
    failures are parameters; the half-second pauses between calls are left out. */
module Seed {
  import opened Common

  const NotFoundCode := 404
  const SecretsId := "secrets"
  const ProfilesId := "profiles"
  const AuditLogsId := "auditLogs"

  // ---------------------------------------------------------------------------
  // Permissions

  datatype Role = AnyRole | Users
  datatype Permission = Read(role: Role) | Create(role: Role) | Update(role: Role)

  /** `getCollectionPermissions(collectionId)`. */
  function CollectionPermissions(id: string): (p: seq<Permission>)
    ensures id == SecretsId ==> p == []
    ensures id == ProfilesId ==> p == [Read(AnyRole), Create(Users), Update(Users)]
    ensures id == AuditLogsId ==> p == [Read(AnyRole), Create(Users)]
    ensures id != SecretsId && id != ProfilesId && id != AuditLogsId ==> p == [Read(AnyRole)]
  {
    if id == SecretsId then []
    else if id == ProfilesId then [Read(AnyRole), Create(Users), Update(Users)]
    else if id == AuditLogsId then [Read(AnyRole), Create(Users)]
    else [Read(AnyRole)]
  }

  /** Every collection but 'secrets' is readable by anyone; 'secrets' grants
      nothing, so only the server's API key reaches it. */
  lemma OnlySecretsHidden(id: string)
    ensures Read(AnyRole) in CollectionPermissions(id) <==> id != SecretsId
    ensures id == SecretsId <==> CollectionPermissions(id) == []
  {
  }

  /** Only 'profiles' lets signed-in users update documents; audit records can be
      created but never changed. */
  lemma OnlyProfilesUpdatable(id: string)
    ensures Update(Users) in CollectionPermissions(id) <==> id == ProfilesId
    ensures Create(Users) in CollectionPermissions(id) <==> id == ProfilesId || id == AuditLogsId
    ensures forall r :: Update(r) !in CollectionPermissions(AuditLogsId)
  {
  }

  // ---------------------------------------------------------------------------
  // Collection descriptions (collections.json)

  datatype AttributeType = StringAttribute | DatetimeAttribute | UnknownAttribute(name: string)
  datatype AttributeSpec = AttributeSpec(key: string, kind: AttributeType)

  datatype CollectionConfig = CollectionConfig(
    id: string,
    name: string,
    documentSecurity: bool,
    enabled: bool,
    attributes: seq<AttributeSpec>,
    indexes: seq<string>)

  /** A collection as the server holds it: the keys of the attributes and indexes
      created on it, in order. */
  datatype Collection = Collection(
    name: string,
    permissions: seq<Permission>,
    documentSecurity: bool,
    enabled: bool,
    attributes: seq<string>,
    indexes: seq<string>)

  function AttributeKeys(attrs: seq<AttributeSpec>): (keys: seq<string>)
    ensures |keys| == |attrs|
    ensures forall k :: 0 <= k < |attrs| ==> keys[k] == attrs[k].key
  {
    seq(|attrs|, k requires 0 <= k < |attrs| => attrs[k].key)
  }

  /** Attribute `k` is created when its type is one the seeder knows and the
      server accepts it; `attrFails(k)` says whether the server refused it. */
  function AttributeOk(attrs: seq<AttributeSpec>, attrFails: nat -> bool): nat -> bool {
    (k: nat) => k < |attrs| && !attrs[k].kind.UnknownAttribute? && !attrFails(k)
  }

  function IndexOk(indexFails: nat -> bool): nat -> bool {
    (k: nat) => !indexFails(k)
  }

  /** The keys, in order, whose creation succeeded. */
  function Created(keys: seq<string>, ok: nat -> bool): (r: seq<string>)
    ensures |r| <= |keys|
    decreases |keys|
  {
    if keys == [] then []
    else Created(keys[..|keys| - 1], ok) + (if ok(|keys| - 1) then [keys[|keys| - 1]] else [])
  }

  /** The keys, in order, that were only logged. */
  function Failed(keys: seq<string>, ok: nat -> bool): (r: seq<string>)
    ensures |r| <= |keys|
    decreases |keys|
  {
    if keys == [] then []
    else Failed(keys[..|keys| - 1], ok) + (if ok(|keys| - 1) then [] else [keys[|keys| - 1]])
  }

  /** A failure does not stop the loop: every key is either created or logged,
      exactly once. */
  lemma {:induction false} EveryKeyProcessed(keys: seq<string>, ok: nat -> bool)
    ensures multiset(Created(keys, ok)) + multiset(Failed(keys, ok)) == multiset(keys)
    decreases |keys|
  {
    if keys != [] {
      var last := |keys| - 1;
      var init := keys[..last];
      EveryKeyProcessed(init, ok);
      assert keys == init + [keys[last]];
      assert multiset(keys) == multiset(init) + multiset{keys[last]};
      if ok(last) {
        assert Created(keys, ok) == Created(init, ok) + [keys[last]];
        assert Failed(keys, ok) == Failed(init, ok);
      } else {
        assert Created(keys, ok) == Created(init, ok);
        assert Failed(keys, ok) == Failed(init, ok) + [keys[last]];
      }
    }
  }

  /** Without failures every key is created, in order, and nothing is logged. */
  lemma {:induction false} AllCreatedWithoutFailures(keys: seq<string>, ok: nat -> bool)
    requires forall k :: 0 <= k < |keys| ==> ok(k)
    ensures Created(keys, ok) == keys && Failed(keys, ok) == []
    decreases |keys|
  {
    if keys != [] {
      var last := |keys| - 1;
      AllCreatedWithoutFailures(keys[..last], ok);
      assert keys == keys[..last] + [keys[last]];
    }
  }

  /** An attribute of an unknown type is never created, whatever the server does. */
  lemma {:induction false} UnknownTypeLogged(attrs: seq<AttributeSpec>, attrFails: nat -> bool, k: nat)
    requires k < |attrs| && attrs[k].kind.UnknownAttribute?
    ensures attrs[k].key in Failed(AttributeKeys(attrs), AttributeOk(attrs, attrFails))
  {
    FailedHas(AttributeKeys(attrs), AttributeOk(attrs, attrFails), k);
  }

  lemma {:induction false} FailedHas(keys: seq<string>, ok: nat -> bool, k: nat)
    requires k < |keys| && !ok(k)
    ensures keys[k] in Failed(keys, ok)
    decreases |keys|
  {
    var last := |keys| - 1;
    if k < last {
      assert keys[..last][k] == keys[k];
      FailedHas(keys[..last], ok, k);
    }
  }

  // ---------------------------------------------------------------------------
  // The server

  /** `databases.get` / `databases.getCollection`: found, not found (404), or the
      call failed with `fault`. */
  function Lookup(present: bool, fault: Option<Error>): (r: Result<()>)
    ensures r.Ok? <==> fault.None? && present
    ensures fault.None? && !present ==> r.error.statusCode == Some(NotFoundCode)
  {
    match fault
    case Some(e) => Err(e)
    case None => if present then Ok(()) else Err(Error("Not found", Some(NotFoundCode)))
  }

  /** Only a 404 leads to a create; any other lookup failure is thrown on. */
  predicate CreatesAfter(lookup: Result<()>) {
    lookup.Err? && lookup.error.statusCode == Some(NotFoundCode)
  }

  /** An existing database or collection is never re-created. */
  lemma ExistingNotRecreated(fault: Option<Error>)
    requires fault.None? || fault.value.statusCode != Some(NotFoundCode)
    ensures !CreatesAfter(Lookup(true, fault))
  {
  }

  class Server {
    var databaseExists: bool
    var collections: map<string, Collection>

    constructor ()
      ensures !databaseExists && collections == map[]
    {
      databaseExists := false;
      collections := map[];
    }

    /** `createDatabase()`: create the database only when the lookup says 404. */
    method CreateDatabase(lookupFault: Option<Error>, createFault: Option<Error>) returns (r: Result<()>)
      modifies this
      ensures collections == old(collections)
      ensures var lookup := Lookup(old(databaseExists), lookupFault);
        && (lookup.Ok? ==> r == Ok(()) && databaseExists == old(databaseExists))
        && (lookup.Err? && !CreatesAfter(lookup) ==> r == lookup && databaseExists == old(databaseExists))
        && (CreatesAfter(lookup) ==>
              if createFault.Some? then r == Err(createFault.value) && databaseExists == old(databaseExists)
              else r == Ok(()) && databaseExists)
    {
      var lookup := Lookup(databaseExists, lookupFault);
      if lookup.Ok? {
        return Ok(());
      }
      if lookup.error.statusCode != Some(NotFoundCode) {
        return lookup;
      }
      if createFault.Some? {
        return Err(createFault.value);
      }
      databaseExists := true;
      r := Ok(());
    }

    /** The collection `createCollection` leaves behind: its permissions, and the
        attributes and indexes whose creation went through. */
    function Populated(config: CollectionConfig, attrFails: nat -> bool, indexFails: nat -> bool): Collection {
      Collection(config.name, CollectionPermissions(config.id), config.documentSecurity, config.enabled,
                 Created(AttributeKeys(config.attributes), AttributeOk(config.attributes, attrFails)),
                 Created(config.indexes, IndexOk(indexFails)))
    }

    /** `createCollection(config)`: skip an existing collection, throw on a lookup
        failure other than 404, otherwise create it with its permissions and then
        add each attribute and index, logging (in `problems`) the ones that fail. */
    method CreateCollection(config: CollectionConfig, lookupFault: Option<Error>, createFault: Option<Error>,
                            attrFails: nat -> bool, indexFails: nat -> bool)
      returns (r: Result<()>, problems: seq<string>)
      modifies this
      ensures databaseExists == old(databaseExists)
      ensures var lookup := Lookup(config.id in old(collections), lookupFault);
        && (lookup.Ok? ==> r == Ok(()) && problems == [] && collections == old(collections))
        && (lookup.Err? && !CreatesAfter(lookup) ==> r == lookup && problems == [] && collections == old(collections))
        && (CreatesAfter(lookup) && createFault.Some? ==>
              r == Err(createFault.value) && problems == [] && collections == old(collections))
        && (CreatesAfter(lookup) && createFault.None? ==>
              var keys, ok := AttributeKeys(config.attributes), AttributeOk(config.attributes, attrFails);
              && r == Ok(())
              && collections == old(collections)[config.id := Populated(config, attrFails, indexFails)]
              && problems == Failed(keys, ok) + Failed(config.indexes, IndexOk(indexFails)))
    {
      var lookup := Lookup(config.id in collections, lookupFault);
      if lookup.Ok? {
        return Ok(()), [];
      }
      if lookup.error.statusCode != Some(NotFoundCode) {
        return lookup, [];
      }
      if createFault.Some? {
        return Err(createFault.value), [];
      }
      problems := Populate(config, attrFails, indexFails);
      r := Ok(());
    }

    /** The creating half of `createCollection`: the collection with its
        permissions, then its attributes and indexes. */
    method Populate(config: CollectionConfig, attrFails: nat -> bool, indexFails: nat -> bool) returns (problems: seq<string>)
      modifies this
      ensures databaseExists == old(databaseExists)
      ensures collections == old(collections)[config.id := Populated(config, attrFails, indexFails)]
      ensures problems == Failed(AttributeKeys(config.attributes), AttributeOk(config.attributes, attrFails))
                          + Failed(config.indexes, IndexOk(indexFails))
    {
      var id := config.id;
      var empty := Collection(config.name, CollectionPermissions(id), config.documentSecurity, config.enabled, [], []);
      collections := collections[id := empty];
      var attributeProblems := AddAttributes(id, config.attributes, attrFails);
      assert collections[id].indexes == [];
      var indexProblems := AddIndexes(id, config.indexes, indexFails);
      assert collections[id] == Populated(config, attrFails, indexFails);
      problems := attributeProblems + indexProblems;
    }

    /** The attribute loop of `createCollection`: each attribute of a known type is
        created on collection `id`; a failure or an unknown type is logged and the
        loop goes on. */
    method AddAttributes(id: string, attrs: seq<AttributeSpec>, attrFails: nat -> bool) returns (problems: seq<string>)
      requires id in collections
      modifies this
      ensures databaseExists == old(databaseExists)
      ensures var keys, ok := AttributeKeys(attrs), AttributeOk(attrs, attrFails);
        && collections == old(collections)[id := old(collections)[id].(attributes := Created(keys, ok))]
        && problems == Failed(keys, ok)
    {
      var keys, ok := AttributeKeys(attrs), AttributeOk(attrs, attrFails);
      var start := collections[id];
      var attributes: seq<string> := [];
      collections := collections[id := start.(attributes := attributes)];
      problems := [];
      for k := 0 to |attrs|
        invariant attributes == Created(keys[..k], ok) && problems == Failed(keys[..k], ok)
        invariant databaseExists == old(databaseExists)
        invariant collections == old(collections)[id := start.(attributes := attributes)]
      {
        assert keys[..k + 1][..k] == keys[..k];
        if !attrs[k].kind.UnknownAttribute? && !attrFails(k) {
          attributes := attributes + [attrs[k].key];
          collections := collections[id := start.(attributes := attributes)];
        } else {
          problems := problems + [attrs[k].key];
        }
      }
      assert keys[..|attrs|] == keys;
    }

    /** The index loop of `createCollection`: a failing index is logged and the
        loop goes on. */
    method AddIndexes(id: string, indexes: seq<string>, indexFails: nat -> bool) returns (problems: seq<string>)
      requires id in collections
      modifies this
      ensures databaseExists == old(databaseExists)
      ensures collections == old(collections)[id := old(collections)[id].(indexes := Created(indexes, IndexOk(indexFails)))]
      ensures problems == Failed(indexes, IndexOk(indexFails))
    {
      var ok := IndexOk(indexFails);
      var start := collections[id];
      var created: seq<string> := [];
      collections := collections[id := start.(indexes := created)];
      problems := [];
      for k := 0 to |indexes|
        invariant created == Created(indexes[..k], ok) && problems == Failed(indexes[..k], ok)
        invariant databaseExists == old(databaseExists)
        invariant collections == old(collections)[id := start.(indexes := created)]
      {
        assert indexes[..k + 1][..k] == indexes[..k];
        if !indexFails(k) {
          created := created + [indexes[k]];
          collections := collections[id := start.(indexes := created)];
        } else {
          problems := problems + [indexes[k]];
        }
      }
      assert indexes[..|indexes|] == indexes;
    }
  }
}
