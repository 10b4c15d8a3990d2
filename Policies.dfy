/** The policy repository: a read of one policy that can attach its versions, and a read of a
    client's policies that can attach to each policy the client's versions of that policy. The
    versions come from the policy-version repository, which keeps its own cache. */
module Policies {
  import opened Common
  import opened ExpressionExtensions
  import opened RepositoryBase
  import opened Entities
  import PolicyVersions

  type Store = map<string, Slot<Policy>>

  /** A value or exception together with both repositories' stores afterwards. */
  datatype Outcome<T> = Outcome(result: Result<T>, policies: Store, versions: PolicyVersions.Store)

  // ---------------------------------------------------------------------------------------
  // The methods as reflection describes them; they name the cache keys.

  const TypeName := RepositoryType("PolicyRepository")
  const ByIdName := "GetPolicyByPolicyId"
  const ByClientIdName := "GetPoliciesByClientId"

  const PolicyIdParameter := ParameterInfo(Int32, "policyId")
  const ClientIdParameter := ParameterInfo(Int32, "clientId")
  const IncludePathsParameter := ParameterInfo(SelectorArrayType("Policy"), "includePaths")
  const RefreshCacheParameter := ParameterInfo(Boolean, "refreshCache")

  const ByIdPublic := MethodBase(TypeName, ByIdName, [PolicyIdParameter, IncludePathsParameter, RefreshCacheParameter])
  const ByIdPrivate := MethodBase(TypeName, ByIdName, [PolicyIdParameter, RefreshCacheParameter])
  const ByClientIdPublic := MethodBase(TypeName, ByClientIdName, [ClientIdParameter, IncludePathsParameter, RefreshCacheParameter])
  const ByClientIdPrivate := MethodBase(TypeName, ByClientIdName, [ClientIdParameter, RefreshCacheParameter])

  function PublicArgs(id: int, includePaths: Option<seq<Expr>>): Option<seq<Arg>> {
    Some([IntArg(id), IncludePathsArg(includePaths)])
  }

  /** `p => p.PolicyVersions`, the one include path a policy supports. */
  const PolicyVersionsSelector := SelectorFor(["PolicyVersions"])

  /** Whether an include path reads as "PolicyVersions". */
  predicate NamesPolicyVersions(includePath: Expr) {
    GetPathString(includePath) == Success(Some("PolicyVersions"))
  }

  /** Comparing an include path with `p => p.PolicyVersions` asks whether it reads
      "PolicyVersions"; a path that cannot be read throws. */
  lemma MatchesPolicyVersions(includePath: Expr)
    ensures PathEquals(includePath, PolicyVersionsSelector, false).Success? <==> GetPathString(includePath).Success?
    ensures PathEquals(includePath, PolicyVersionsSelector, false) == Success(true) <==> NamesPolicyVersions(includePath)
  {
    SelectorPath(["PolicyVersions"]);
  }

  lemma NamesNoColon()
    ensures NoColon(TypeName) && NoColon(ByIdName) && NoColon(ByClientIdName)
    ensures ParametersNoColon([PolicyIdParameter, IncludePathsParameter, RefreshCacheParameter])
    ensures ParametersNoColon([ClientIdParameter, IncludePathsParameter, RefreshCacheParameter])
  {
    assert NoColon("PolicyRepository") && NoColon("Policy");
    TypeNamesNoColon("PolicyRepository");
    TypeNamesNoColon("Policy");
    assert NoColon("GetPolicyByPolicyId") && NoColon("GetPoliciesByClientId");
    assert NoColon("policyId") && NoColon("clientId") && NoColon("includePaths") && NoColon("refreshCache");
  }

  /** The public reads never write under the key of the private read they call. */
  lemma PublicKeysAreNotPrivateKeys(id: int, includePaths: Option<seq<Expr>>, encode: seq<Arg> -> string)
    ensures CacheKey(ByIdPublic, PublicArgs(id, includePaths), encode) != Success(PlainKey(ByIdPrivate, [IntArg(id)], encode))
    ensures CacheKey(ByClientIdPublic, PublicArgs(id, includePaths), encode) != Success(PlainKey(ByClientIdPrivate, [IntArg(id)], encode))
  {
    NamesNoColon();
    var privateArgs, publicArgs := Some([IntArg(id)]), PublicArgs(id, includePaths);
    assert ByIdPublic == MethodBase(TypeName, ByIdName, [PolicyIdParameter] + [IncludePathsParameter, RefreshCacheParameter]);
    assert ByIdPrivate == MethodBase(TypeName, ByIdName, [PolicyIdParameter] + [RefreshCacheParameter]);
    assert CacheKey(ByIdPrivate, privateArgs, encode) == Success(PlainKey(ByIdPrivate, [IntArg(id)], encode));
    OverloadKeysDiffer(TypeName, ByIdName, [PolicyIdParameter], IncludePathsParameter, RefreshCacheParameter,
                       privateArgs, publicArgs, encode);
    assert ByClientIdPublic == MethodBase(TypeName, ByClientIdName, [ClientIdParameter] + [IncludePathsParameter, RefreshCacheParameter]);
    assert ByClientIdPrivate == MethodBase(TypeName, ByClientIdName, [ClientIdParameter] + [RefreshCacheParameter]);
    assert CacheKey(ByClientIdPrivate, privateArgs, encode) == Success(PlainKey(ByClientIdPrivate, [IntArg(id)], encode));
    OverloadKeysDiffer(TypeName, ByClientIdName, [ClientIdParameter], IncludePathsParameter, RefreshCacheParameter,
                       privateArgs, publicArgs, encode);
  }

  // ---------------------------------------------------------------------------------------
  // The mock data source and the attachment of versions.

  /** The policy the data source returns for an id, without versions. */
  function SourcePolicy(policyId: int): Policy {
    Policy(policyId, None)
  }

  /** The policies the data source returns for any client. */
  function SourcePolicies(): seq<Policy> {
    [Policy(1, None), Policy(2, None), Policy(3, None)]
  }

  /** `policyVersions.Where(pv => pv.PolicyId == policyId).ToList()` */
  function VersionsOf(versions: seq<PolicyVersion>, policyId: int): (r: seq<PolicyVersion>)
    ensures forall v :: v in r <==> v in versions && v.policyId == policyId
    ensures |r| <= |versions|
  {
    if versions == [] then []
    else (if versions[0].policyId == policyId then [versions[0]] else []) + VersionsOf(versions[1..], policyId)
  }

  /** What `p.PolicyVersions` becomes for a policy: null when no versions were fetched,
      otherwise the fetched versions that belong to it. */
  function VersionsFor(fetched: Option<seq<PolicyVersion>>, policyId: int): Option<seq<PolicyVersion>> {
    if fetched.None? then None else Some(VersionsOf(fetched.value, policyId))
  }

  /** Every policy with its versions set from `fetched`. */
  function WithVersions(policies: seq<Policy>, fetched: Option<seq<PolicyVersion>>): (r: seq<Policy>)
    ensures |r| == |policies|
    ensures forall i :: 0 <= i < |r| ==> r[i] == policies[i].(policyVersions := VersionsFor(fetched, policies[i].policyId))
  {
    if policies == [] then []
    else [policies[0].(policyVersions := VersionsFor(fetched, policies[0].policyId))] + WithVersions(policies[1..], fetched)
  }

  class PolicyRepository {
    const base: BaseRepository<Policy>
    const versions: PolicyVersions.PolicyVersionRepository

    constructor (cache: Option<Store>, cacheEnabled: bool, cacheAbsoluteExpiration: int, encode: seq<Arg> -> string,
                 policyVersionRepository: PolicyVersions.PolicyVersionRepository)
      ensures fresh(base) && versions == policyVersionRepository
      ensures base.present == cache.Some? && base.cacheEnabled == cacheEnabled
      ensures base.cacheAbsoluteExpiration == cacheAbsoluteExpiration && base.encode == encode
      ensures base.store == if cache.Some? then cache.value else map[]
    {
      base := new BaseRepository(cache, cacheEnabled, cacheAbsoluteExpiration, encode);
      versions := policyVersionRepository;
    }

    // -------------------------------------------------------------------------------------
    // What each read returns, and the stores it leaves behind.

    function LoadById(s: Store, policyId: int, refreshCache: bool, now: int): After<Option<Policy>, Policy> {
      base.ReadThroughEntity(s, PlainKey(ByIdPrivate, [IntArg(policyId)], base.encode), refreshCache,
                             SourcePolicy(policyId), now)
    }

    function LoadByClientId(s: Store, clientId: int, refreshCache: bool, now: int): After<Option<seq<Policy>>, Policy> {
      base.ReadThroughEntities(s, PlainKey(ByClientIdPrivate, [IntArg(clientId)], base.encode), refreshCache,
                               SourcePolicies(), now)
    }

    /** The include-path loop of GetPolicyByPolicyId: each path must read "PolicyVersions" while
        the policy has no versions yet, and then fetches them. */
    function AttachVersions(paths: seq<Expr>, policy: Policy, policyId: int, refreshCache: bool,
                            sv: PolicyVersions.Store, now: int): After<Result<Policy>, PolicyVersion>
    {
      if paths == [] then After(Success(policy), sv)
      else
        var matches := PathEquals(paths[0], PolicyVersionsSelector, false);
        if matches.Failure? then After(Failure(matches.error), sv)
        else if matches.value && policy.policyVersions.None? then
          var fetched := versions.ByPolicyId(sv, policyId, None, refreshCache, now);
          if fetched.value.Failure? then After(Failure(fetched.value.error), fetched.store)
          else AttachVersions(paths[1..], policy.(policyVersions := fetched.value.value), policyId, refreshCache, fetched.store, now)
        else After(UnsupportedIncludePath(paths[0]), sv)
    }

    /** The include-path loop of GetPoliciesByClientId: each path must read "PolicyVersions"
        while no versions have been fetched yet, and then fetches the client's versions. */
    function FetchVersions(paths: seq<Expr>, fetched: Option<seq<PolicyVersion>>, clientId: int, refreshCache: bool,
                           sv: PolicyVersions.Store, now: int): After<Result<Option<seq<PolicyVersion>>>, PolicyVersion>
    {
      if paths == [] then After(Success(fetched), sv)
      else
        var matches := PathEquals(paths[0], PolicyVersionsSelector, false);
        if matches.Failure? then After(Failure(matches.error), sv)
        else if matches.value && fetched.None? then
          var read := versions.ByClientId(sv, clientId, None, refreshCache, now);
          if read.value.Failure? then After(Failure(read.value.error), read.store)
          else FetchVersions(paths[1..], read.value.value, clientId, refreshCache, read.store, now)
        else After(UnsupportedIncludePath(paths[0]), sv)
    }

    function Complete<T>(written: After<Result<T>, Policy>, sv: PolicyVersions.Store): Outcome<T> {
      Outcome(written.value, written.store, sv)
    }

    function ById(sp: Store, sv: PolicyVersions.Store, policyId: int, includePaths: Option<seq<Expr>>, refreshCache: bool, now: int)
      : Outcome<Option<Policy>>
    {
      var args := PublicArgs(policyId, includePaths);
      var cached := base.FirstLookup(sp, ByIdPublic, args, refreshCache);
      if cached.Failure? then Outcome(Failure(cached.error), sp, sv)
      else if cached.value.Hit? then Outcome(Success(cached.value.value), sp, sv)
      else
        var loaded := LoadById(sp, policyId, refreshCache, now);
        if loaded.value.Some? && includePaths.Some? then
          var attached := AttachVersions(NonNull(includePaths.value), loaded.value.value, policyId, refreshCache, sv, now);
          if attached.value.Failure? then Outcome(Failure(attached.value.error), loaded.store, attached.store)
          else
            var policy := Some(attached.value.value);
            Complete(base.Finish(loaded.store, ByIdPublic, args, EntityValue(policy), policy, now), attached.store)
        else Complete(base.Finish(loaded.store, ByIdPublic, args, EntityValue(loaded.value), loaded.value, now), sv)
    }

    function ByClientId(sp: Store, sv: PolicyVersions.Store, clientId: int, includePaths: Option<seq<Expr>>, refreshCache: bool, now: int)
      : Outcome<Option<seq<Policy>>>
    {
      var args := PublicArgs(clientId, includePaths);
      var cached := base.FirstLookupAll(sp, ByClientIdPublic, args, refreshCache);
      if cached.Failure? then Outcome(Failure(cached.error), sp, sv)
      else if cached.value.Hit? then Outcome(Success(cached.value.value), sp, sv)
      else
        var loaded := LoadByClientId(sp, clientId, refreshCache, now);
        if loaded.value.None? then Outcome(Failure(ArgumentNullException), loaded.store, sv)
        else if includePaths.Some? then
          var fetched := FetchVersions(NonNull(includePaths.value), None, clientId, refreshCache, sv, now);
          if fetched.value.Failure? then Outcome(Failure(fetched.value.error), loaded.store, fetched.store)
          else
            var policies := Some(WithVersions(loaded.value.value, fetched.value.value));
            Complete(base.Finish(loaded.store, ByClientIdPublic, args, EntitiesValue(policies), policies, now), fetched.store)
        else Complete(base.Finish(loaded.store, ByClientIdPublic, args, EntitiesValue(loaded.value), loaded.value, now), sv)
    }

    // -------------------------------------------------------------------------------------
    // The operations.

    method GetPolicyByPolicyId(policyId: int, includePaths: Option<seq<Expr>>, refreshCache: bool, now: int)
      returns (r: Result<Option<Policy>>)
      modifies base, versions.base
      ensures Outcome(r, base.store, versions.base.store)
           == ById(old(base.store), old(versions.base.store), policyId, includePaths, refreshCache, now)
    {
      if !refreshCache {
        var parameters := new Arg[] [IntArg(policyId), IncludePathsArg(includePaths)];
        assert parameters[..] == [IntArg(policyId), IncludePathsArg(includePaths)];
        var cached :- base.TryGetCacheEntity(ByIdPublic, parameters);
        if cached.Hit? {
          return Success(cached.value);
        }
      }
      var policy := LoadPolicyByPolicyId(policyId, refreshCache, now);
      if policy.Some? && includePaths.Some? {
        var attached :- AttachIncludedVersions(policy.value, policyId, includePaths.value, refreshCache, now);
        policy := Some(attached);
      }
      var parameters := new Arg[] [IntArg(policyId), IncludePathsArg(includePaths)];
      assert parameters[..] == [IntArg(policyId), IncludePathsArg(includePaths)];
      var written :- base.TrySetCacheEntity(policy, ByIdPublic, parameters, now);
      return Success(policy);
    }

    method GetPoliciesByClientId(clientId: int, includePaths: Option<seq<Expr>>, refreshCache: bool, now: int)
      returns (r: Result<Option<seq<Policy>>>)
      modifies base, versions.base
      ensures Outcome(r, base.store, versions.base.store)
           == ByClientId(old(base.store), old(versions.base.store), clientId, includePaths, refreshCache, now)
    {
      if !refreshCache {
        var parameters := new Arg[] [IntArg(clientId), IncludePathsArg(includePaths)];
        assert parameters[..] == [IntArg(clientId), IncludePathsArg(includePaths)];
        var cached :- base.TryGetCacheEntities(ByClientIdPublic, parameters);
        if cached.Hit? {
          return Success(cached.value);
        }
      }
      var loaded := LoadPoliciesByClientId(clientId, refreshCache, now);
      if loaded.None? {
        return Failure(ArgumentNullException);
      }
      var policies := loaded.value;
      if includePaths.Some? {
        var policyVersions :- FetchIncludedVersions(clientId, includePaths.value, refreshCache, now);
        policies := SetVersions(policies, policyVersions);
      }
      var parameters := new Arg[] [IntArg(clientId), IncludePathsArg(includePaths)];
      assert parameters[..] == [IntArg(clientId), IncludePathsArg(includePaths)];
      var written :- base.TrySetCacheEntities(Some(policies), ByClientIdPublic, parameters, now);
      return Success(Some(policies));
    }

    /** The include-path loop of GetPolicyByPolicyId, over the non-null paths. */
    method AttachIncludedVersions(policy: Policy, policyId: int, includePaths: seq<Expr>, refreshCache: bool, now: int)
      returns (r: Result<Policy>)
      modifies versions.base
      ensures After(r, versions.base.store)
           == AttachVersions(NonNull(includePaths), policy, policyId, refreshCache, old(versions.base.store), now)
    {
      var paths := NonNull(includePaths);
      var current := policy;
      ghost var sv0 := versions.base.store;
      for i := 0 to |paths|
        invariant AttachVersions(paths, policy, policyId, refreshCache, sv0, now)
               == AttachVersions(paths[i..], current, policyId, refreshCache, versions.base.store, now)
      {
        assert paths[i..][0] == paths[i] && paths[i..][1..] == paths[i + 1..];
        var includePath := paths[i];
        var matches := PathEquals(includePath, PolicyVersionsSelector, false);
        if matches.Failure? {
          return Failure(matches.error);
        }
        if matches.value && current.policyVersions.None? {
          var fetched :- versions.GetPolicyVersionsByPolicyId(policyId, None, refreshCache, now);
          current := current.(policyVersions := fetched);
        } else {
          return UnsupportedIncludePath(includePath);
        }
      }
      assert paths[|paths|..] == [];
      return Success(current);
    }

    /** The include-path loop of GetPoliciesByClientId, over the non-null paths. */
    method FetchIncludedVersions(clientId: int, includePaths: seq<Expr>, refreshCache: bool, now: int)
      returns (r: Result<Option<seq<PolicyVersion>>>)
      modifies versions.base
      ensures After(r, versions.base.store)
           == FetchVersions(NonNull(includePaths), None, clientId, refreshCache, old(versions.base.store), now)
    {
      var paths := NonNull(includePaths);
      var policyVersions: Option<seq<PolicyVersion>> := None;
      ghost var sv0 := versions.base.store;
      for i := 0 to |paths|
        invariant FetchVersions(paths, None, clientId, refreshCache, sv0, now)
               == FetchVersions(paths[i..], policyVersions, clientId, refreshCache, versions.base.store, now)
      {
        assert paths[i..][0] == paths[i] && paths[i..][1..] == paths[i + 1..];
        var includePath := paths[i];
        var matches := PathEquals(includePath, PolicyVersionsSelector, false);
        if matches.Failure? {
          return Failure(matches.error);
        }
        if matches.value && policyVersions.None? {
          policyVersions :- versions.GetPolicyVersionsByClientId(clientId, None, refreshCache, now);
        } else {
          return UnsupportedIncludePath(includePath);
        }
      }
      assert paths[|paths|..] == [];
      return Success(policyVersions);
    }

    /** `policies.ToList().ForEach(p => p.PolicyVersions = ...)`, one policy at a time. */
    method SetVersions(policies: seq<Policy>, policyVersions: Option<seq<PolicyVersion>>) returns (updated: seq<Policy>)
      ensures updated == WithVersions(policies, policyVersions)
    {
      updated := policies;
      for i := 0 to |policies|
        invariant |updated| == |policies|
        invariant forall j :: 0 <= j < i ==> updated[j] == policies[j].(policyVersions := VersionsFor(policyVersions, policies[j].policyId))
        invariant updated[i..] == policies[i..]
      {
        var versionsOfPolicy := if policyVersions.None? then None
                                else Some(VersionsOf(policyVersions.value, updated[i].policyId));
        updated := updated[i := updated[i].(policyVersions := versionsOfPolicy)];
      }
    }

    /** The private overload of GetPolicyByPolicyId. */
    method LoadPolicyByPolicyId(policyId: int, refreshCache: bool, now: int) returns (policy: Option<Policy>)
      modifies base
      ensures After(policy, base.store) == LoadById(old(base.store), policyId, refreshCache, now)
    {
      ghost var key := PlainKey(ByIdPrivate, [IntArg(policyId)], base.encode);
      if !refreshCache {
        var parameters := new Arg[] [IntArg(policyId)];
        assert parameters[..] == [IntArg(policyId)];
        var cached := base.TryGetCacheEntity(ByIdPrivate, parameters);
        if cached.Success? && cached.value.Hit? {
          return cached.value.value;
        }
      }
      var fetched := SourcePolicy(policyId);
      var parameters := new Arg[] [IntArg(policyId)];
      assert parameters[..] == [IntArg(policyId)];
      var written := base.TrySetCacheEntity(Some(fetched), ByIdPrivate, parameters, now);
      return Some(fetched);
    }

    /** The private overload of GetPoliciesByClientId. */
    method LoadPoliciesByClientId(clientId: int, refreshCache: bool, now: int) returns (policies: Option<seq<Policy>>)
      modifies base
      ensures After(policies, base.store) == LoadByClientId(old(base.store), clientId, refreshCache, now)
    {
      ghost var key := PlainKey(ByClientIdPrivate, [IntArg(clientId)], base.encode);
      if !refreshCache {
        var parameters := new Arg[] [IntArg(clientId)];
        assert parameters[..] == [IntArg(clientId)];
        var cached := base.TryGetCacheEntities(ByClientIdPrivate, parameters);
        if cached.Success? && cached.value.Hit? {
          return cached.value.value;
        }
      }
      var fetched := SourcePolicies();
      var parameters := new Arg[] [IntArg(clientId)];
      assert parameters[..] == [IntArg(clientId)];
      var written := base.TrySetCacheEntities(Some(fetched), ByClientIdPrivate, parameters, now);
      return Some(fetched);
    }

    // -------------------------------------------------------------------------------------
    // Properties of the reads.

    /** On a miss or a refresh, the private reads return the policy with the requested id
        (without versions), and policies 1, 2 and 3 whatever the client. */
    lemma LoadsOnMiss(s: Store, id: int, refreshCache: bool, now: int)
      ensures (refreshCache || base.CachedEntity(s, ByIdPrivate, Some([IntArg(id)])) == Success(Miss)) ==>
                LoadById(s, id, refreshCache, now).value == Some(Policy(id, None))
      ensures (refreshCache || base.CachedEntities(s, ByClientIdPrivate, Some([IntArg(id)])) == Success(Miss)) ==>
                var r := LoadByClientId(s, id, refreshCache, now); r.value.Some? && PolicyIds(r.value.value) == [1, 2, 3]
    {
      assert PolicyIds(SourcePolicies()) == [1, 2, 3];
    }

    /** Without a refresh, a hit is returned as it is and nothing is fetched or written. */
    lemma HitReturnsCached(sp: Store, sv: PolicyVersions.Store, id: int, includePaths: Option<seq<Expr>>, now: int)
      ensures var c := base.CachedEntity(sp, ByIdPublic, PublicArgs(id, includePaths));
              c.Success? && c.value.Hit? ==> ById(sp, sv, id, includePaths, false, now) == Outcome(Success(c.value.value), sp, sv)
      ensures var c := base.CachedEntities(sp, ByClientIdPublic, PublicArgs(id, includePaths));
              c.Success? && c.value.Hit? ==> ByClientId(sp, sv, id, includePaths, false, now) == Outcome(Success(c.value.value), sp, sv)
    {
    }

    /** The include-path loop of GetPolicyByPolicyId accepts only paths that read "PolicyVersions". */
    lemma {:induction false} AttachAcceptsOnlyPolicyVersions(paths: seq<Expr>, policy: Policy, policyId: int, refreshCache: bool,
                                                            sv: PolicyVersions.Store, now: int)
      requires AttachVersions(paths, policy, policyId, refreshCache, sv, now).value.Success?
      ensures forall i :: 0 <= i < |paths| ==> NamesPolicyVersions(paths[i])
    {
      if paths != [] {
        MatchesPolicyVersions(paths[0]);
        var fetched := versions.ByPolicyId(sv, policyId, None, refreshCache, now);
        AttachAcceptsOnlyPolicyVersions(paths[1..], policy.(policyVersions := fetched.value.value), policyId, refreshCache, fetched.store, now);
        assert forall i :: 1 <= i < |paths| ==> paths[i] == paths[1..][i - 1];
      }
    }

    /** The include-path loop of GetPoliciesByClientId accepts only paths that read "PolicyVersions". */
    lemma {:induction false} FetchAcceptsOnlyPolicyVersions(paths: seq<Expr>, fetched: Option<seq<PolicyVersion>>, clientId: int,
                                                           refreshCache: bool, sv: PolicyVersions.Store, now: int)
      requires FetchVersions(paths, fetched, clientId, refreshCache, sv, now).value.Success?
      ensures forall i :: 0 <= i < |paths| ==> NamesPolicyVersions(paths[i])
    {
      if paths != [] {
        MatchesPolicyVersions(paths[0]);
        var read := versions.ByClientId(sv, clientId, None, refreshCache, now);
        FetchAcceptsOnlyPolicyVersions(paths[1..], read.value.value, clientId, refreshCache, read.store, now);
        assert forall i :: 1 <= i < |paths| ==> paths[i] == paths[1..][i - 1];
      }
    }

    /** "PolicyVersions" on a policy without versions sets them from the version repository. */
    lemma PolicyVersionsPathAttaches(includePath: Expr, policy: Policy, policyId: int, refreshCache: bool,
                                     sv: PolicyVersions.Store, now: int)
      requires NamesPolicyVersions(includePath) && policy.policyVersions.None?
      ensures var fetched := versions.ByPolicyId(sv, policyId, None, refreshCache, now);
              AttachVersions([includePath], policy, policyId, refreshCache, sv, now) ==
                if fetched.value.Failure? then After(Failure(fetched.value.error), fetched.store)
                else After(Success(policy.(policyVersions := fetched.value.value)), fetched.store)
    {
      MatchesPolicyVersions(includePath);
      assert [includePath][1..] == [];
    }

    /** Any other path throws NotSupportedException naming the path. */
    lemma OtherPathThrows(includePath: Expr, rest: seq<Expr>, policy: Policy, policyId: int, refreshCache: bool,
                          sv: PolicyVersions.Store, now: int, pathString: string)
      requires GetPathString(includePath) == Success(Some(pathString)) && pathString != "PolicyVersions"
      ensures AttachVersions([includePath] + rest, policy, policyId, refreshCache, sv, now)
           == After(Failure(NotSupportedException(Some("The include path " + pathString + " is not supported"))), sv)
      ensures FetchVersions([includePath] + rest, None, policyId, refreshCache, sv, now)
           == After(Failure(NotSupportedException(Some("The include path " + pathString + " is not supported"))), sv)
    {
      MatchesPolicyVersions(includePath);
      assert ([includePath] + rest)[0] == includePath;
    }

    /** A second "PolicyVersions" throws in GetPolicyByPolicyId, because the policy's versions
        are already set by the first. */
    lemma DuplicatePathThrows(first: Expr, second: Expr, policy: Policy, policyId: int, refreshCache: bool,
                              sv: PolicyVersions.Store, now: int)
      requires NamesPolicyVersions(first) && NamesPolicyVersions(second) && policy.policyVersions.None?
      requires var fetched := versions.ByPolicyId(sv, policyId, None, refreshCache, now);
               fetched.value.Success? && fetched.value.value.Some?
      ensures AttachVersions([first, second], policy, policyId, refreshCache, sv, now)
           == After(Failure(NotSupportedException(Some(UnsupportedPathMessage(Some("PolicyVersions"))))),
                    versions.ByPolicyId(sv, policyId, None, refreshCache, now).store)
    {
      MatchesPolicyVersions(first);
      MatchesPolicyVersions(second);
      assert [first, second][1..] == [second];
      assert [second][1..] == [];
    }

    /** A second "PolicyVersions" throws in GetPoliciesByClientId, because the versions are
        already fetched. */
    lemma DuplicatePathThrowsForClient(first: Expr, second: Expr, clientId: int, refreshCache: bool,
                                       sv: PolicyVersions.Store, now: int)
      requires NamesPolicyVersions(first) && NamesPolicyVersions(second)
      requires var read := versions.ByClientId(sv, clientId, None, refreshCache, now);
               read.value.Success? && read.value.value.Some?
      ensures FetchVersions([first, second], None, clientId, refreshCache, sv, now)
           == After(Failure(NotSupportedException(Some(UnsupportedPathMessage(Some("PolicyVersions"))))),
                    versions.ByClientId(sv, clientId, None, refreshCache, now).store)
    {
      MatchesPolicyVersions(first);
      MatchesPolicyVersions(second);
      assert [first, second][1..] == [second];
      assert [second][1..] == [];
    }

    /** Include paths are not looked at when the loaded policy is null. */
    lemma NullPolicySkipsIncludePaths(sp: Store, sv: PolicyVersions.Store, id: int, includePaths: Option<seq<Expr>>,
                                      refreshCache: bool, now: int)
      requires base.FirstLookup(sp, ByIdPublic, PublicArgs(id, includePaths), refreshCache) == Success(Miss)
      requires LoadById(sp, id, refreshCache, now).value.None?
      ensures var r := ById(sp, sv, id, includePaths, refreshCache, now);
              r.versions == sv && (r.result.Success? ==> r.result.value.None?)
    {
    }

    /** When include paths are given to GetPoliciesByClientId and it completes without a hit,
        every returned policy carries exactly the fetched versions that belong to it, or null
        when none were fetched. */
    lemma VersionsBelongToTheirPolicy(sp: Store, sv: PolicyVersions.Store, clientId: int, includePaths: Option<seq<Expr>>,
                                      refreshCache: bool, now: int)
      requires includePaths.Some?
      requires base.FirstLookupAll(sp, ByClientIdPublic, PublicArgs(clientId, includePaths), refreshCache) == Success(Miss)
      requires ByClientId(sp, sv, clientId, includePaths, refreshCache, now).result.Success?
      ensures var r := ByClientId(sp, sv, clientId, includePaths, refreshCache, now);
              var fetched := FetchVersions(NonNull(includePaths.value), None, clientId, refreshCache, sv, now);
              var loaded := LoadByClientId(sp, clientId, refreshCache, now);
              fetched.value.Success? && loaded.value.Some? && r.result.value.Some? &&
              |r.result.value.value| == |loaded.value.value| &&
              forall i :: 0 <= i < |r.result.value.value| ==>
                var p := r.result.value.value[i];
                p.policyId == loaded.value.value[i].policyId &&
                (fetched.value.value.None? ==> p.policyVersions.None?) &&
                (fetched.value.value.Some? ==>
                   p.policyVersions.Some? &&
                   forall v :: v in p.policyVersions.value <==> v in fetched.value.value.value && v.policyId == p.policyId)
    {
    }

    /** A call that throws leaves the public key as it was; only the private read may have
        written. */
    lemma FailureLeavesPublicKey(sp: Store, sv: PolicyVersions.Store, id: int, includePaths: Option<seq<Expr>>,
                                 refreshCache: bool, now: int)
      ensures var r := ById(sp, sv, id, includePaths, refreshCache, now);
              r.result.Failure? ==>
                base.CachedEntity(r.policies, ByIdPublic, PublicArgs(id, includePaths)) == base.CachedEntity(sp, ByIdPublic, PublicArgs(id, includePaths))
    {
      PublicKeysAreNotPrivateKeys(id, includePaths, base.encode);
    }

    lemma FailureLeavesClientPublicKey(sp: Store, sv: PolicyVersions.Store, id: int, includePaths: Option<seq<Expr>>,
                                       refreshCache: bool, now: int)
      ensures var r := ByClientId(sp, sv, id, includePaths, refreshCache, now);
              r.result.Failure? ==>
                base.CachedEntities(r.policies, ByClientIdPublic, PublicArgs(id, includePaths)) == base.CachedEntities(sp, ByClientIdPublic, PublicArgs(id, includePaths))
    {
      PublicKeysAreNotPrivateKeys(id, includePaths, base.encode);
    }

    /** A completed read leaves the cache so that the same read without a refresh, made before
        an entry written at `now` expires, is answered from the cache with the same value, leaving both stores alone. */
    lemma RepeatedReadHits(sp: Store, sv: PolicyVersions.Store, id: int, includePaths: Option<seq<Expr>>,
                           refreshCache: bool, now: int, later: int)
      requires base.Available()
      requires later < now + base.cacheAbsoluteExpiration
      ensures var r := ById(sp, sv, id, includePaths, refreshCache, now);
              r.result.Success? ==> ById(r.policies, r.versions, id, includePaths, false, later) == r
    {
      var args := PublicArgs(id, includePaths);
      var r := ById(sp, sv, id, includePaths, refreshCache, now);
      var cached := base.FirstLookup(sp, ByIdPublic, args, refreshCache);
      if r.result.Success? && !(cached.Success? && cached.value.Hit?) {
        var loaded := LoadById(sp, id, refreshCache, now);
        if loaded.value.Some? && includePaths.Some? {
          var attached := AttachVersions(NonNull(includePaths.value), loaded.value.value, id, refreshCache, sv, now);
          base.FinishThenHit(loaded.store, ByIdPublic, args, Some(attached.value.value), now);
        } else {
          base.FinishThenHit(loaded.store, ByIdPublic, args, loaded.value, now);
        }
      }
    }

    lemma RepeatedClientReadHits(sp: Store, sv: PolicyVersions.Store, id: int, includePaths: Option<seq<Expr>>,
                                 refreshCache: bool, now: int, later: int)
      requires base.Available()
      requires later < now + base.cacheAbsoluteExpiration
      ensures var r := ByClientId(sp, sv, id, includePaths, refreshCache, now);
              r.result.Success? ==> ByClientId(r.policies, r.versions, id, includePaths, false, later) == r
    {
      var args := PublicArgs(id, includePaths);
      var r := ByClientId(sp, sv, id, includePaths, refreshCache, now);
      var cached := base.FirstLookupAll(sp, ByClientIdPublic, args, refreshCache);
      if r.result.Success? && !(cached.Success? && cached.value.Hit?) {
        var loaded := LoadByClientId(sp, id, refreshCache, now);
        if includePaths.Some? {
          var fetched := FetchVersions(NonNull(includePaths.value), None, id, refreshCache, sv, now);
          base.FinishThenHitAll(loaded.store, ByClientIdPublic, args, Some(WithVersions(loaded.value.value, fetched.value.value)), now);
        } else {
          base.FinishThenHitAll(loaded.store, ByClientIdPublic, args, loaded.value, now);
        }
      }
    }
  }
}
