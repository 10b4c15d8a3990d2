/** The policy-version repository: three public cache-aside reads, none of which supports an
    include path, each backed by a private cache-aside read of the (mock) data source. */
module PolicyVersions {
  import opened Common
  import opened ExpressionExtensions
  import opened RepositoryBase
  import opened Entities

  type Store = map<string, Slot<PolicyVersion>>

  // ---------------------------------------------------------------------------------------
  // The methods as reflection describes them; they name the cache keys.

  const TypeName := RepositoryType("PolicyVersionRepository")
  const ByIdName := "GetPolicyVersionByPolicyVersionId"
  const ByPolicyIdName := "GetPolicyVersionsByPolicyId"
  const ByClientIdName := "GetPolicyVersionsByClientId"

  const PolicyVersionIdParameter := ParameterInfo(Int32, "policyVersionId")
  const PolicyIdParameter := ParameterInfo(Int32, "policyId")
  const ClientIdParameter := ParameterInfo(Int32, "clientId")
  const IncludePathsParameter := ParameterInfo(SelectorArrayType("PolicyVersion"), "includePaths")
  const RefreshCacheParameter := ParameterInfo(Boolean, "refreshCache")

  const ByIdPublic := MethodBase(TypeName, ByIdName, [PolicyVersionIdParameter, IncludePathsParameter, RefreshCacheParameter])
  const ByIdPrivate := MethodBase(TypeName, ByIdName, [PolicyVersionIdParameter, RefreshCacheParameter])
  const ByPolicyIdPublic := MethodBase(TypeName, ByPolicyIdName, [PolicyIdParameter, IncludePathsParameter, RefreshCacheParameter])
  const ByPolicyIdPrivate := MethodBase(TypeName, ByPolicyIdName, [PolicyIdParameter, RefreshCacheParameter])
  const ByClientIdPublic := MethodBase(TypeName, ByClientIdName, [ClientIdParameter, IncludePathsParameter, RefreshCacheParameter])
  const ByClientIdPrivate := MethodBase(TypeName, ByClientIdName, [ClientIdParameter, RefreshCacheParameter])

  /** The arguments of a public read: the id and the include paths. */
  function PublicArgs(id: int, includePaths: Option<seq<Expr>>): Option<seq<Arg>> {
    Some([IntArg(id), IncludePathsArg(includePaths)])
  }

  lemma MethodNamesNoColon()
    ensures NoColon(ByIdName) && NoColon(ByPolicyIdName) && NoColon(ByClientIdName)
  {
    assert NoColon("GetPolicyVersionByPolicyVersionId");
    assert NoColon("GetPolicyVersionsByPolicyId");
    assert NoColon("GetPolicyVersionsByClientId");
  }

  lemma NamesNoColon()
    ensures NoColon(TypeName) && NoColon(ByIdName) && NoColon(ByPolicyIdName) && NoColon(ByClientIdName)
    ensures ParametersNoColon([PolicyVersionIdParameter, IncludePathsParameter, RefreshCacheParameter])
    ensures ParametersNoColon([PolicyIdParameter, IncludePathsParameter, RefreshCacheParameter])
    ensures ParametersNoColon([ClientIdParameter, IncludePathsParameter, RefreshCacheParameter])
  {
    assert NoColon("PolicyVersionRepository") && NoColon("PolicyVersion");
    TypeNamesNoColon("PolicyVersionRepository");
    TypeNamesNoColon("PolicyVersion");
    MethodNamesNoColon();
    assert NoColon("policyVersionId") && NoColon("policyId") && NoColon("clientId");
    assert NoColon("includePaths") && NoColon("refreshCache");
  }

  /** The public reads never write under the key of the private read they call. */
  lemma PublicKeysAreNotPrivateKeys(id: int, includePaths: Option<seq<Expr>>, encode: seq<Arg> -> string)
    ensures CacheKey(ByIdPublic, PublicArgs(id, includePaths), encode) != Success(PlainKey(ByIdPrivate, [IntArg(id)], encode))
    ensures CacheKey(ByPolicyIdPublic, PublicArgs(id, includePaths), encode) != Success(PlainKey(ByPolicyIdPrivate, [IntArg(id)], encode))
    ensures CacheKey(ByClientIdPublic, PublicArgs(id, includePaths), encode) != Success(PlainKey(ByClientIdPrivate, [IntArg(id)], encode))
  {
    NamesNoColon();
    var privateArgs, publicArgs := Some([IntArg(id)]), PublicArgs(id, includePaths);
    assert ByIdPublic == MethodBase(TypeName, ByIdName, [PolicyVersionIdParameter] + [IncludePathsParameter, RefreshCacheParameter]);
    assert ByIdPrivate == MethodBase(TypeName, ByIdName, [PolicyVersionIdParameter] + [RefreshCacheParameter]);
    assert CacheKey(ByIdPrivate, privateArgs, encode) == Success(PlainKey(ByIdPrivate, [IntArg(id)], encode));
    OverloadKeysDiffer(TypeName, ByIdName, [PolicyVersionIdParameter], IncludePathsParameter, RefreshCacheParameter,
                       privateArgs, publicArgs, encode);
    assert ByPolicyIdPublic == MethodBase(TypeName, ByPolicyIdName, [PolicyIdParameter] + [IncludePathsParameter, RefreshCacheParameter]);
    assert ByPolicyIdPrivate == MethodBase(TypeName, ByPolicyIdName, [PolicyIdParameter] + [RefreshCacheParameter]);
    assert CacheKey(ByPolicyIdPrivate, privateArgs, encode) == Success(PlainKey(ByPolicyIdPrivate, [IntArg(id)], encode));
    OverloadKeysDiffer(TypeName, ByPolicyIdName, [PolicyIdParameter], IncludePathsParameter, RefreshCacheParameter,
                       privateArgs, publicArgs, encode);
    assert ByClientIdPublic == MethodBase(TypeName, ByClientIdName, [ClientIdParameter] + [IncludePathsParameter, RefreshCacheParameter]);
    assert ByClientIdPrivate == MethodBase(TypeName, ByClientIdName, [ClientIdParameter] + [RefreshCacheParameter]);
    assert CacheKey(ByClientIdPrivate, privateArgs, encode) == Success(PlainKey(ByClientIdPrivate, [IntArg(id)], encode));
    OverloadKeysDiffer(TypeName, ByClientIdName, [ClientIdParameter], IncludePathsParameter, RefreshCacheParameter,
                       privateArgs, publicArgs, encode);
  }

  // ---------------------------------------------------------------------------------------
  // The mock data source.

  /** The policy version the data source returns for an id; its policy id is left at 0. */
  function SourcePolicyVersion(policyVersionId: int): PolicyVersion {
    PolicyVersion(policyVersionId, 0)
  }

  /** The versions the data source returns for any policy or client. */
  function SourcePolicyVersions(): seq<PolicyVersion> {
    [PolicyVersion(1, 0), PolicyVersion(2, 0), PolicyVersion(3, 0)]
  }

  class PolicyVersionRepository {
    const base: BaseRepository<PolicyVersion>

    constructor (cache: Option<Store>, cacheEnabled: bool, cacheAbsoluteExpiration: int, encode: seq<Arg> -> string)
      ensures fresh(base)
      ensures base.present == cache.Some? && base.cacheEnabled == cacheEnabled
      ensures base.cacheAbsoluteExpiration == cacheAbsoluteExpiration && base.encode == encode
      ensures base.store == if cache.Some? then cache.value else map[]
    {
      base := new BaseRepository(cache, cacheEnabled, cacheAbsoluteExpiration, encode);
    }

    // -------------------------------------------------------------------------------------
    // What each read returns, and the store it leaves behind.

    function LoadById(s: Store, policyVersionId: int, refreshCache: bool, now: int): After<Option<PolicyVersion>, PolicyVersion> {
      base.ReadThroughEntity(s, PlainKey(ByIdPrivate, [IntArg(policyVersionId)], base.encode), refreshCache,
                             SourcePolicyVersion(policyVersionId), now)
    }

    function LoadByPolicyId(s: Store, policyId: int, refreshCache: bool, now: int): After<Option<seq<PolicyVersion>>, PolicyVersion> {
      base.ReadThroughEntities(s, PlainKey(ByPolicyIdPrivate, [IntArg(policyId)], base.encode), refreshCache,
                               SourcePolicyVersions(), now)
    }

    function LoadByClientId(s: Store, clientId: int, refreshCache: bool, now: int): After<Option<seq<PolicyVersion>>, PolicyVersion> {
      base.ReadThroughEntities(s, PlainKey(ByClientIdPrivate, [IntArg(clientId)], base.encode), refreshCache,
                               SourcePolicyVersions(), now)
    }

    function ById(s: Store, policyVersionId: int, includePaths: Option<seq<Expr>>, refreshCache: bool, now: int)
      : After<Result<Option<PolicyVersion>>, PolicyVersion>
    {
      var args := PublicArgs(policyVersionId, includePaths);
      var cached := base.FirstLookup(s, ByIdPublic, args, refreshCache);
      if cached.Failure? then After(Failure(cached.error), s)
      else if cached.value.Hit? then After(Success(cached.value.value), s)
      else
        var loaded := LoadById(s, policyVersionId, refreshCache, now);
        if includePaths.Some? then After(Failure(NotSupportedException(None)), loaded.store)
        else base.Finish(loaded.store, ByIdPublic, args, EntityValue(loaded.value), loaded.value, now)
    }

    /** The shared tail of the two public list reads: `.ToList()` on the loaded list, the
        include-path check, the write. */
    function ListRead(loaded: After<Option<seq<PolicyVersion>>, PolicyVersion>, m: MethodBase, id: int,
                      includePaths: Option<seq<Expr>>, now: int): After<Result<Option<seq<PolicyVersion>>>, PolicyVersion>
    {
      if loaded.value.None? then After(Failure(ArgumentNullException), loaded.store)
      else if includePaths.Some? then After(Failure(NotImplementedException), loaded.store)
      else base.Finish(loaded.store, m, PublicArgs(id, includePaths), EntitiesValue(loaded.value), loaded.value, now)
    }

    function ByPolicyId(s: Store, policyId: int, includePaths: Option<seq<Expr>>, refreshCache: bool, now: int)
      : After<Result<Option<seq<PolicyVersion>>>, PolicyVersion>
    {
      var cached := base.FirstLookupAll(s, ByPolicyIdPublic, PublicArgs(policyId, includePaths), refreshCache);
      if cached.Failure? then After(Failure(cached.error), s)
      else if cached.value.Hit? then After(Success(cached.value.value), s)
      else ListRead(LoadByPolicyId(s, policyId, refreshCache, now), ByPolicyIdPublic, policyId, includePaths, now)
    }

    function ByClientId(s: Store, clientId: int, includePaths: Option<seq<Expr>>, refreshCache: bool, now: int)
      : After<Result<Option<seq<PolicyVersion>>>, PolicyVersion>
    {
      var cached := base.FirstLookupAll(s, ByClientIdPublic, PublicArgs(clientId, includePaths), refreshCache);
      if cached.Failure? then After(Failure(cached.error), s)
      else if cached.value.Hit? then After(Success(cached.value.value), s)
      else ListRead(LoadByClientId(s, clientId, refreshCache, now), ByClientIdPublic, clientId, includePaths, now)
    }

    // -------------------------------------------------------------------------------------
    // The operations.

    method GetPolicyVersionByPolicyVersionId(policyVersionId: int, includePaths: Option<seq<Expr>>, refreshCache: bool, now: int)
      returns (r: Result<Option<PolicyVersion>>)
      modifies base
      ensures After(r, base.store) == ById(old(base.store), policyVersionId, includePaths, refreshCache, now)
    {
      if !refreshCache {
        var parameters := new Arg[] [IntArg(policyVersionId), IncludePathsArg(includePaths)];
        assert parameters[..] == [IntArg(policyVersionId), IncludePathsArg(includePaths)];
        var cached :- base.TryGetCacheEntity(ByIdPublic, parameters);
        if cached.Hit? {
          return Success(cached.value);
        }
      }
      var policyVersion := LoadPolicyVersionByPolicyVersionId(policyVersionId, refreshCache, now);
      if includePaths.Some? {
        return Failure(NotSupportedException(None));
      }
      var parameters := new Arg[] [IntArg(policyVersionId), IncludePathsArg(includePaths)];
      assert parameters[..] == [IntArg(policyVersionId), IncludePathsArg(includePaths)];
      var written :- base.TrySetCacheEntity(policyVersion, ByIdPublic, parameters, now);
      return Success(policyVersion);
    }

    method GetPolicyVersionsByPolicyId(policyId: int, includePaths: Option<seq<Expr>>, refreshCache: bool, now: int)
      returns (r: Result<Option<seq<PolicyVersion>>>)
      modifies base
      ensures After(r, base.store) == ByPolicyId(old(base.store), policyId, includePaths, refreshCache, now)
    {
      if !refreshCache {
        var parameters := new Arg[] [IntArg(policyId), IncludePathsArg(includePaths)];
        assert parameters[..] == [IntArg(policyId), IncludePathsArg(includePaths)];
        var cached :- base.TryGetCacheEntities(ByPolicyIdPublic, parameters);
        if cached.Hit? {
          return Success(cached.value);
        }
      }
      var loaded := LoadPolicyVersionsByPolicyId(policyId, refreshCache, now);
      if loaded.None? {
        return Failure(ArgumentNullException);
      }
      if includePaths.Some? {
        return Failure(NotImplementedException);
      }
      var parameters := new Arg[] [IntArg(policyId), IncludePathsArg(includePaths)];
      assert parameters[..] == [IntArg(policyId), IncludePathsArg(includePaths)];
      var written :- base.TrySetCacheEntities(loaded, ByPolicyIdPublic, parameters, now);
      return Success(loaded);
    }

    method GetPolicyVersionsByClientId(clientId: int, includePaths: Option<seq<Expr>>, refreshCache: bool, now: int)
      returns (r: Result<Option<seq<PolicyVersion>>>)
      modifies base
      ensures After(r, base.store) == ByClientId(old(base.store), clientId, includePaths, refreshCache, now)
    {
      if !refreshCache {
        var parameters := new Arg[] [IntArg(clientId), IncludePathsArg(includePaths)];
        assert parameters[..] == [IntArg(clientId), IncludePathsArg(includePaths)];
        var cached :- base.TryGetCacheEntities(ByClientIdPublic, parameters);
        if cached.Hit? {
          return Success(cached.value);
        }
      }
      var loaded := LoadPolicyVersionsByClientId(clientId, refreshCache, now);
      if loaded.None? {
        return Failure(ArgumentNullException);
      }
      if includePaths.Some? {
        return Failure(NotImplementedException);
      }
      var parameters := new Arg[] [IntArg(clientId), IncludePathsArg(includePaths)];
      assert parameters[..] == [IntArg(clientId), IncludePathsArg(includePaths)];
      var written :- base.TrySetCacheEntities(loaded, ByClientIdPublic, parameters, now);
      return Success(loaded);
    }

    /** The private overload of GetPolicyVersionByPolicyVersionId. */
    method LoadPolicyVersionByPolicyVersionId(policyVersionId: int, refreshCache: bool, now: int)
      returns (policyVersion: Option<PolicyVersion>)
      modifies base
      ensures After(policyVersion, base.store) == LoadById(old(base.store), policyVersionId, refreshCache, now)
    {
      ghost var key := PlainKey(ByIdPrivate, [IntArg(policyVersionId)], base.encode);
      if !refreshCache {
        var parameters := new Arg[] [IntArg(policyVersionId)];
        assert parameters[..] == [IntArg(policyVersionId)];
        var cached := base.TryGetCacheEntity(ByIdPrivate, parameters);
        if cached.Success? && cached.value.Hit? {
          return cached.value.value;
        }
      }
      var fetched := SourcePolicyVersion(policyVersionId);
      var parameters := new Arg[] [IntArg(policyVersionId)];
      assert parameters[..] == [IntArg(policyVersionId)];
      var written := base.TrySetCacheEntity(Some(fetched), ByIdPrivate, parameters, now);
      return Some(fetched);
    }

    /** The private overload of GetPolicyVersionsByPolicyId. */
    method LoadPolicyVersionsByPolicyId(policyId: int, refreshCache: bool, now: int)
      returns (policyVersions: Option<seq<PolicyVersion>>)
      modifies base
      ensures After(policyVersions, base.store) == LoadByPolicyId(old(base.store), policyId, refreshCache, now)
    {
      ghost var key := PlainKey(ByPolicyIdPrivate, [IntArg(policyId)], base.encode);
      if !refreshCache {
        var parameters := new Arg[] [IntArg(policyId)];
        assert parameters[..] == [IntArg(policyId)];
        var cached := base.TryGetCacheEntities(ByPolicyIdPrivate, parameters);
        if cached.Success? && cached.value.Hit? {
          return cached.value.value;
        }
      }
      var fetched := SourcePolicyVersions();
      var parameters := new Arg[] [IntArg(policyId)];
      assert parameters[..] == [IntArg(policyId)];
      var written := base.TrySetCacheEntities(Some(fetched), ByPolicyIdPrivate, parameters, now);
      return Some(fetched);
    }

    /** The private overload of GetPolicyVersionsByClientId. */
    method LoadPolicyVersionsByClientId(clientId: int, refreshCache: bool, now: int)
      returns (policyVersions: Option<seq<PolicyVersion>>)
      modifies base
      ensures After(policyVersions, base.store) == LoadByClientId(old(base.store), clientId, refreshCache, now)
    {
      ghost var key := PlainKey(ByClientIdPrivate, [IntArg(clientId)], base.encode);
      if !refreshCache {
        var parameters := new Arg[] [IntArg(clientId)];
        assert parameters[..] == [IntArg(clientId)];
        var cached := base.TryGetCacheEntities(ByClientIdPrivate, parameters);
        if cached.Success? && cached.value.Hit? {
          return cached.value.value;
        }
      }
      var fetched := SourcePolicyVersions();
      var parameters := new Arg[] [IntArg(clientId)];
      assert parameters[..] == [IntArg(clientId)];
      var written := base.TrySetCacheEntities(Some(fetched), ByClientIdPrivate, parameters, now);
      return Some(fetched);
    }

    // -------------------------------------------------------------------------------------
    // Properties of the reads.

    /** On a miss or a refresh, the private single read returns the version with the requested
        id, and afterwards the private key holds it. */
    lemma LoadByIdOnMiss(s: Store, policyVersionId: int, refreshCache: bool, now: int)
      requires refreshCache || base.CachedEntity(s, ByIdPrivate, Some([IntArg(policyVersionId)])) == Success(Miss)
      ensures var r := LoadById(s, policyVersionId, refreshCache, now);
              r.value.Some? && r.value.value.policyVersionId == policyVersionId &&
              (base.Available() ==> base.CachedEntity(r.store, ByIdPrivate, Some([IntArg(policyVersionId)])) == Success(Hit(r.value)))
    {
    }

    /** On a miss or a refresh, both private list reads return versions 1, 2 and 3, whatever
        the id asked for. */
    lemma LoadListsOnMiss(s: Store, id: int, refreshCache: bool, now: int)
      ensures (refreshCache || base.CachedEntities(s, ByPolicyIdPrivate, Some([IntArg(id)])) == Success(Miss)) ==>
                var r := LoadByPolicyId(s, id, refreshCache, now); r.value.Some? && VersionIds(r.value.value) == [1, 2, 3]
      ensures (refreshCache || base.CachedEntities(s, ByClientIdPrivate, Some([IntArg(id)])) == Success(Miss)) ==>
                var r := LoadByClientId(s, id, refreshCache, now); r.value.Some? && VersionIds(r.value.value) == [1, 2, 3]
    {
      assert VersionIds(SourcePolicyVersions()) == [1, 2, 3];
    }

    /** Without a refresh, a hit is returned as it is and nothing is fetched or written. */
    lemma HitReturnsCached(s: Store, id: int, includePaths: Option<seq<Expr>>, now: int)
      ensures base.CachedEntity(s, ByIdPublic, PublicArgs(id, includePaths)).Success? &&
              base.CachedEntity(s, ByIdPublic, PublicArgs(id, includePaths)).value.Hit? ==>
                ById(s, id, includePaths, false, now) ==
                After(Success(base.CachedEntity(s, ByIdPublic, PublicArgs(id, includePaths)).value.value), s)
      ensures base.CachedEntities(s, ByPolicyIdPublic, PublicArgs(id, includePaths)).Success? &&
              base.CachedEntities(s, ByPolicyIdPublic, PublicArgs(id, includePaths)).value.Hit? ==>
                ByPolicyId(s, id, includePaths, false, now) ==
                After(Success(base.CachedEntities(s, ByPolicyIdPublic, PublicArgs(id, includePaths)).value.value), s)
      ensures base.CachedEntities(s, ByClientIdPublic, PublicArgs(id, includePaths)).Success? &&
              base.CachedEntities(s, ByClientIdPublic, PublicArgs(id, includePaths)).value.Hit? ==>
                ByClientId(s, id, includePaths, false, now) ==
                After(Success(base.CachedEntities(s, ByClientIdPublic, PublicArgs(id, includePaths)).value.value), s)
    {
    }

    /** Any include-path array, even an empty one, makes a read that was not answered from the
        cache throw, after the private read; the public key keeps what it held. */
    lemma IncludePathsRejected(s: Store, id: int, includePaths: Option<seq<Expr>>, refreshCache: bool, now: int)
      requires includePaths.Some?
      requires base.FirstLookup(s, ByIdPublic, PublicArgs(id, includePaths), refreshCache) == Success(Miss)
      ensures var r := ById(s, id, includePaths, refreshCache, now);
              r.value == Failure(NotSupportedException(None)) &&
              r.store == LoadById(s, id, refreshCache, now).store &&
              base.CachedEntity(r.store, ByIdPublic, PublicArgs(id, includePaths)) == base.CachedEntity(s, ByIdPublic, PublicArgs(id, includePaths))
    {
      PublicKeysAreNotPrivateKeys(id, includePaths, base.encode);
    }

    lemma PolicyListIncludePathsRejected(s: Store, id: int, includePaths: Option<seq<Expr>>, refreshCache: bool, now: int)
      requires includePaths.Some?
      requires base.FirstLookupAll(s, ByPolicyIdPublic, PublicArgs(id, includePaths), refreshCache) == Success(Miss)
      ensures var r := ByPolicyId(s, id, includePaths, refreshCache, now);
              r.value.Failure? && r.store == LoadByPolicyId(s, id, refreshCache, now).store &&
              base.CachedEntities(r.store, ByPolicyIdPublic, PublicArgs(id, includePaths)) == base.CachedEntities(s, ByPolicyIdPublic, PublicArgs(id, includePaths))
    {
      PublicKeysAreNotPrivateKeys(id, includePaths, base.encode);
    }

    lemma ClientListIncludePathsRejected(s: Store, id: int, includePaths: Option<seq<Expr>>, refreshCache: bool, now: int)
      requires includePaths.Some?
      requires base.FirstLookupAll(s, ByClientIdPublic, PublicArgs(id, includePaths), refreshCache) == Success(Miss)
      ensures var r := ByClientId(s, id, includePaths, refreshCache, now);
              r.value.Failure? && r.store == LoadByClientId(s, id, refreshCache, now).store &&
              base.CachedEntities(r.store, ByClientIdPublic, PublicArgs(id, includePaths)) == base.CachedEntities(s, ByClientIdPublic, PublicArgs(id, includePaths))
    {
      PublicKeysAreNotPrivateKeys(id, includePaths, base.encode);
    }

    /** The list reads throw NotImplementedException for include paths once the list is loaded. */
    lemma ListIncludePathsNotImplemented(s: Store, id: int, includePaths: Option<seq<Expr>>, refreshCache: bool, now: int)
      requires includePaths.Some?
      requires refreshCache || base.CachedEntities(s, ByPolicyIdPrivate, Some([IntArg(id)])) == Success(Miss)
      requires base.FirstLookupAll(s, ByPolicyIdPublic, PublicArgs(id, includePaths), refreshCache) == Success(Miss)
      ensures ByPolicyId(s, id, includePaths, refreshCache, now).value == Failure(NotImplementedException)
    {
    }

    /** A refresh skips the lookup but still writes: afterwards the public key holds the freshly
        loaded version. */
    lemma RefreshStillWrites(s: Store, id: int, now: int)
      requires base.Available()
      ensures var r := ById(s, id, None, true, now);
              r.value == Success(Some(SourcePolicyVersion(id))) &&
              base.CachedEntity(r.store, ByIdPublic, PublicArgs(id, None)) == Success(Hit(Some(SourcePolicyVersion(id))))
    {
      var args := [IntArg(id), NullArg];
      assert PublicArgs(id, None) == Some(args);
      var key := PlainKey(ByIdPublic, args, base.encode);
    }

    /** A completed read leaves the cache so that the same read without a refresh, made before
        an entry written at `now` expires, is answered from the cache with the same value. */
    lemma RepeatedReadHits(s: Store, id: int, includePaths: Option<seq<Expr>>, refreshCache: bool, now: int, later: int)
      requires base.Available()
      requires later < now + base.cacheAbsoluteExpiration
      ensures var r := ById(s, id, includePaths, refreshCache, now);
              r.value.Success? ==> ById(r.store, id, includePaths, false, later) == After(r.value, r.store)
    {
      var args := PublicArgs(id, includePaths);
      var r := ById(s, id, includePaths, refreshCache, now);
      var cached := base.FirstLookup(s, ByIdPublic, args, refreshCache);
      if r.value.Success? && !(cached.Success? && cached.value.Hit?) {
        var loaded := LoadById(s, id, refreshCache, now);
        base.FinishThenHit(loaded.store, ByIdPublic, args, loaded.value, now);
      }
    }

    lemma RepeatedPolicyListReadHits(s: Store, id: int, includePaths: Option<seq<Expr>>, refreshCache: bool, now: int, later: int)
      requires base.Available()
      requires later < now + base.cacheAbsoluteExpiration
      ensures var r := ByPolicyId(s, id, includePaths, refreshCache, now);
              r.value.Success? ==> ByPolicyId(r.store, id, includePaths, false, later) == After(r.value, r.store)
    {
      var args := PublicArgs(id, includePaths);
      var r := ByPolicyId(s, id, includePaths, refreshCache, now);
      var cached := base.FirstLookupAll(s, ByPolicyIdPublic, args, refreshCache);
      if r.value.Success? && !(cached.Success? && cached.value.Hit?) {
        var loaded := LoadByPolicyId(s, id, refreshCache, now);
        base.FinishThenHitAll(loaded.store, ByPolicyIdPublic, args, loaded.value, now);
      }
    }

    lemma RepeatedClientListReadHits(s: Store, id: int, includePaths: Option<seq<Expr>>, refreshCache: bool, now: int, later: int)
      requires base.Available()
      requires later < now + base.cacheAbsoluteExpiration
      ensures var r := ByClientId(s, id, includePaths, refreshCache, now);
              r.value.Success? ==> ByClientId(r.store, id, includePaths, false, later) == After(r.value, r.store)
    {
      var args := PublicArgs(id, includePaths);
      var r := ByClientId(s, id, includePaths, refreshCache, now);
      var cached := base.FirstLookupAll(s, ByClientIdPublic, args, refreshCache);
      if r.value.Success? && !(cached.Success? && cached.value.Hit?) {
        var loaded := LoadByClientId(s, id, refreshCache, now);
        base.FinishThenHitAll(loaded.store, ByClientIdPublic, args, loaded.value, now);
      }
    }
  }
}
