/** The client repository: a read of all clients, which supports no include path, and a read of
    one client, which accepts "Policies" and "Policies.PolicyVersions" and resolves them through
    the policy repository. */
module Clients {
  import opened Common
  import opened ExpressionExtensions
  import opened RepositoryBase
  import opened Entities
  import PolicyVersions
  import Policies

  type Store = map<string, Slot<Client>>

  /** A value or exception together with the three repositories' stores afterwards. */
  datatype Outcome<T> = Outcome(result: Result<T>, clients: Store, policies: Policies.Store, versions: PolicyVersions.Store)

  // ---------------------------------------------------------------------------------------
  // The methods as reflection describes them; they name the cache keys.

  const TypeName := RepositoryType("ClientRepository")
  const AllName := "GetClients"
  const ByIdName := "GetClientByClientId"

  const ClientIdParameter := ParameterInfo(Int32, "clientId")
  const IncludePathsParameter := ParameterInfo(SelectorArrayType("Client"), "includePaths")
  const RefreshCacheParameter := ParameterInfo(Boolean, "refreshCache")

  const AllPublic := MethodBase(TypeName, AllName, [IncludePathsParameter, RefreshCacheParameter])
  const AllPrivate := MethodBase(TypeName, AllName, [RefreshCacheParameter])
  const ByIdPublic := MethodBase(TypeName, ByIdName, [ClientIdParameter, IncludePathsParameter, RefreshCacheParameter])
  const ByIdPrivate := MethodBase(TypeName, ByIdName, [ClientIdParameter, RefreshCacheParameter])

  function PublicArgs(id: int, includePaths: Option<seq<Expr>>): Option<seq<Arg>> {
    Some([IntArg(id), IncludePathsArg(includePaths)])
  }

  /** `TryGetCache(out clients, includePaths)`: the selector array is itself taken as the
      `params object[]` array, so each selector is an argument of its own and a null array is
      a null argument array. */
  function SelectorsAsArgs(includePaths: Option<seq<Expr>>): (r: Option<seq<Arg>>)
    ensures includePaths.None? <==> r.None?
    ensures r.Some? ==> (|r.value| == |includePaths.value| &&
                         forall i :: 0 <= i < |r.value| ==> r.value[i] == SelectorAsArg(includePaths.value[i]))
    ensures r.Some? ==> forall i :: 0 <= i < |r.value| ==> !r.value[i].SelectorsArg?
    ensures r.Some? ==> (AllSerializable(r.value) <==> forall i :: 0 <= i < |includePaths.value| ==> includePaths.value[i].Null?)
  {
    if includePaths.None? then None
    else Some(seq(|includePaths.value|, i requires 0 <= i < |includePaths.value| => SelectorAsArg(includePaths.value[i])))
  }

  function SelectorAsArg(selector: Expr): Arg {
    if selector.Null? then NullArg else SelectorArg(selector)
  }

  /** `c => c.Policies` */
  const PoliciesSelector := SelectorFor(["Policies"])

  /** `c => c.Policies.Select(p => p.PolicyVersions)` */
  const PoliciesPolicyVersionsSelector := SelectorFor(["Policies", "PolicyVersions"])

  lemma NamesNoColon()
    ensures NoColon(TypeName) && NoColon(AllName) && NoColon(ByIdName)
    ensures ParametersNoColon([IncludePathsParameter, RefreshCacheParameter])
    ensures ParametersNoColon([ClientIdParameter, IncludePathsParameter, RefreshCacheParameter])
  {
    assert NoColon("ClientRepository") && NoColon("Client");
    TypeNamesNoColon("ClientRepository");
    TypeNamesNoColon("Client");
    assert NoColon("GetClients") && NoColon("GetClientByClientId");
    assert NoColon("clientId") && NoColon("includePaths") && NoColon("refreshCache");
  }

  /** The public reads never write under the key of the private read they call. */
  lemma PublicKeysAreNotPrivateKeys(id: int, includePaths: Option<seq<Expr>>, encode: seq<Arg> -> string)
    ensures CacheKey(AllPublic, SelectorsAsArgs(includePaths), encode) != Success(PlainKey(AllPrivate, [], encode))
    ensures CacheKey(ByIdPublic, PublicArgs(id, includePaths), encode) != Success(PlainKey(ByIdPrivate, [IntArg(id)], encode))
  {
    NamesNoColon();
    assert AllPublic == MethodBase(TypeName, AllName, [] + [IncludePathsParameter, RefreshCacheParameter]);
    assert AllPrivate == MethodBase(TypeName, AllName, [] + [RefreshCacheParameter]);
    assert CacheKey(AllPrivate, Some([]), encode) == Success(PlainKey(AllPrivate, [], encode));
    OverloadKeysDiffer(TypeName, AllName, [], IncludePathsParameter, RefreshCacheParameter,
                       Some([]), SelectorsAsArgs(includePaths), encode);
    assert ByIdPublic == MethodBase(TypeName, ByIdName, [ClientIdParameter] + [IncludePathsParameter, RefreshCacheParameter]);
    assert ByIdPrivate == MethodBase(TypeName, ByIdName, [ClientIdParameter] + [RefreshCacheParameter]);
    assert CacheKey(ByIdPrivate, Some([IntArg(id)]), encode) == Success(PlainKey(ByIdPrivate, [IntArg(id)], encode));
    OverloadKeysDiffer(TypeName, ByIdName, [ClientIdParameter], IncludePathsParameter, RefreshCacheParameter,
                       Some([IntArg(id)]), PublicArgs(id, includePaths), encode);
  }

  /** `includePaths.Any(ip => ip.PathEquals(path))`, over every element, nulls included; the
      first comparison that throws, before any match, aborts it. */
  function AnyPathEquals(paths: seq<Expr>, path: Expr): Result<bool> {
    if paths == [] then Success(false)
    else
      var matches :- PathEquals(paths[0], path, false);
      if matches then Success(true) else AnyPathEquals(paths[1..], path)
  }

  /** What path extraction reads from the two client selectors. */
  lemma PoliciesSelectorReads()
    ensures GetPathString(PoliciesSelector) == Success(Some("Policies"))
  {
    SelectorPath(["Policies"]);
  }

  lemma PoliciesPolicyVersionsSelectorReads()
    ensures GetPathString(PoliciesPolicyVersionsSelector) == Success(Some("Policies.PolicyVersions"))
  {
    var pv := ["Policies", "PolicyVersions"];
    SelectorPath(pv);
    assert pv[1..] == ["PolicyVersions"];
    assert Dotted(pv) == "Policies" + "." + "PolicyVersions";
    PoliciesPolicyVersionsText();
  }

  lemma PoliciesPolicyVersionsText()
    ensures "Policies" + "." + "PolicyVersions" == "Policies.PolicyVersions"
  {
    assert "Policies" + "." == "Policies.";
  }

  lemma PoliciesSegments()
    ensures AreSegments(["Policies"]) && AreSegments(["Policies", "PolicyVersions"])
  {
    assert IsSegment("Policies") by {
      assert forall i :: 0 <= i < |"Policies"| ==> "Policies"[i] != '.';
    }
    assert IsSegment("PolicyVersions") by {
      assert forall i :: 0 <= i < |"PolicyVersions"| ==> "PolicyVersions"[i] != '.';
    }
  }

  /** How the two client selectors compare with each other. */
  lemma PoliciesSelectorsCompare()
    ensures GetPathString(PoliciesSelector) == Success(Some("Policies"))
    ensures GetPathString(PoliciesPolicyVersionsSelector) == Success(Some("Policies.PolicyVersions"))
    ensures StartsWith(PoliciesSelector, PoliciesSelector, false) == Success(true)
    ensures StartsWith(PoliciesPolicyVersionsSelector, PoliciesSelector, false) == Success(true)
    ensures PathEquals(PoliciesSelector, PoliciesPolicyVersionsSelector, false) == Success(false)
    ensures PathEquals(PoliciesPolicyVersionsSelector, PoliciesPolicyVersionsSelector, false) == Success(true)
  {
    PoliciesSelectorReads();
    PoliciesPolicyVersionsSelectorReads();
    var p, pv := ["Policies"], ["Policies", "PolicyVersions"];
    PoliciesSegments();
    SelectorStartsWith(p, p);
    SelectorStartsWith(pv, p);
    SelectorPathEquals(p, pv);
    SelectorPathEquals(pv, pv);
  }

  /** Any finds a match exactly when some element matches, provided no comparison throws. */
  lemma {:induction false} AnyPathEqualsMeansSome(paths: seq<Expr>, path: Expr)
    requires forall i :: 0 <= i < |paths| ==> PathEquals(paths[i], path, false).Success?
    ensures AnyPathEquals(paths, path).Success?
    ensures AnyPathEquals(paths, path).value <==> exists i :: 0 <= i < |paths| && PathEquals(paths[i], path, false) == Success(true)
  {
    if paths != [] {
      assert forall i :: 0 <= i < |paths[1..]| ==> paths[1..][i] == paths[i + 1];
      AnyPathEqualsMeansSome(paths[1..], path);
      if AnyPathEquals(paths[1..], path).value {
        var i :| 0 <= i < |paths[1..]| && PathEquals(paths[1..][i], path, false) == Success(true);
        assert PathEquals(paths[i + 1], path, false) == Success(true);
      }
      if exists i :: 0 <= i < |paths| && PathEquals(paths[i], path, false) == Success(true) {
        var i :| 0 <= i < |paths| && PathEquals(paths[i], path, false) == Success(true);
        if i > 0 {
          assert PathEquals(paths[1..][i - 1], path, false) == Success(true);
        }
      }
    }
  }

  // ---------------------------------------------------------------------------------------
  // The mock data source.

  /** The client the data source returns for an id, named after it. */
  function SourceClient(clientId: int): Client {
    Client(Some(clientId), Some(ClientName(clientId)), None)
  }

  /** The clients the data source returns. */
  function SourceClients(): seq<Client> {
    [Client(Some(1), Some("1 name"), None), Client(Some(2), Some("2 name"), None), Client(Some(3), Some("3 name"), None)]
  }

  lemma SourceClientsAreNamedAfterTheirIds()
    ensures forall c :: c in SourceClients() ==> c.clientId.Some? && c.name == Some(ClientName(c.clientId.value))
    ensures SourceClients() == [SourceClient(1), SourceClient(2), SourceClient(3)]
  {
    ClientNameExamples();
  }

  /** The selector array ["Policies"] normalises to the list of its one path. */
  lemma PoliciesIncludeNormalizes(id: int)
    ensures Normalized([IntArg(id), SelectorsArg([PoliciesSelector])]) == Success([IntArg(id), PathsArg([Some("Policies")])])
  {
    var args := [IntArg(id), SelectorsArg([PoliciesSelector])];
    SelectorPath(["Policies"]);
    assert GetPathString(PoliciesSelector) == Success(Some("Policies"));
    assert [PoliciesSelector][1..] == [];
    assert PathStrings([PoliciesSelector][1..]) == Success([]);
    assert [Some("Policies")] + [] == [Some("Policies")];
    assert PathStrings([PoliciesSelector]) == Success([Some("Policies")]);
    assert NormalizeArg(SelectorsArg([PoliciesSelector])) == Success(PathsArg([Some("Policies")]));
    UnnestedArgumentsNormalize([IntArg(id)]);
    assert args[..|args| - 1] == [IntArg(id)] && args[|args| - 1] == SelectorsArg([PoliciesSelector]);
    assert [IntArg(id)] + [PathsArg([Some("Policies")])] == [IntArg(id), PathsArg([Some("Policies")])];
  }

  lemma PoliciesIncludeEncodes(id: int, encode: seq<Arg> -> string)
    ensures EncodedParameters(PublicArgs(id, Some([PoliciesSelector])), encode) == Success(encode([IntArg(id), PathsArg([Some("Policies")])]))
  {
    PoliciesIncludeNormalizes(id);
    assert AllSerializable([IntArg(id), PathsArg([Some("Policies")])]);
  }

  /** The include paths passed on to the policy repository: ["PolicyVersions"] when the versions
      are asked for too, otherwise null. */
  function PoliciesIncludePath(withVersions: bool): Option<seq<Expr>> {
    if withVersions then Some([Policies.PolicyVersionsSelector]) else None
  }

  class ClientRepository {
    const base: BaseRepository<Client>
    const policies: Policies.PolicyRepository

    constructor (cache: Option<Store>, cacheEnabled: bool, cacheAbsoluteExpiration: int, encode: seq<Arg> -> string,
                 policyRepository: Policies.PolicyRepository)
      ensures fresh(base) && policies == policyRepository
      ensures base.present == cache.Some? && base.cacheEnabled == cacheEnabled
      ensures base.cacheAbsoluteExpiration == cacheAbsoluteExpiration && base.encode == encode
      ensures base.store == if cache.Some? then cache.value else map[]
    {
      base := new BaseRepository(cache, cacheEnabled, cacheAbsoluteExpiration, encode);
      policies := policyRepository;
    }

    // -------------------------------------------------------------------------------------
    // What each read returns, and the stores it leaves behind.

    function LoadAll(s: Store, refreshCache: bool, now: int): After<Option<seq<Client>>, Client> {
      base.ReadThroughEntities(s, PlainKey(AllPrivate, [], base.encode), refreshCache, SourceClients(), now)
    }

    function LoadById(s: Store, clientId: int, refreshCache: bool, now: int): After<Option<Client>, Client> {
      base.ReadThroughEntity(s, PlainKey(ByIdPrivate, [IntArg(clientId)], base.encode), refreshCache,
                             SourceClient(clientId), now)
    }

    function All(s: Store, includePaths: Option<seq<Expr>>, refreshCache: bool, now: int)
      : After<Result<Option<seq<Client>>>, Client>
    {
      var args := SelectorsAsArgs(includePaths);
      var cached := base.FirstLookupAll(s, AllPublic, args, refreshCache);
      if cached.Failure? then After(Failure(cached.error), s)
      else if cached.value.Hit? then After(Success(cached.value.value), s)
      else
        var loaded := LoadAll(s, refreshCache, now);
        if includePaths.Some? then After(Failure(NotSupportedException(None)), loaded.store)
        else base.Finish(loaded.store, AllPublic, args, EntitiesValue(loaded.value), loaded.value, now)
    }

    /** The include-path loop of GetClientByClientId: each path must start with "Policies" while
        no policies have been fetched yet, and then fetches the client's policies, with their
        versions when any include path equals "Policies.PolicyVersions". */
    function ResolvePolicies(paths: seq<Expr>, includePaths: seq<Expr>, fetched: Option<seq<Policy>>, clientId: int,
                             refreshCache: bool, sp: Policies.Store, sv: PolicyVersions.Store, now: int)
      : Policies.Outcome<Option<seq<Policy>>>
    {
      if paths == [] then Policies.Outcome(Success(fetched), sp, sv)
      else
        var starts := StartsWith(paths[0], PoliciesSelector, false);
        if starts.Failure? then Policies.Outcome(Failure(starts.error), sp, sv)
        else if starts.value && fetched.None? then
          var withVersions := AnyPathEquals(includePaths, PoliciesPolicyVersionsSelector);
          if withVersions.Failure? then Policies.Outcome(Failure(withVersions.error), sp, sv)
          else
            var read := policies.ByClientId(sp, sv, clientId, PoliciesIncludePath(withVersions.value), refreshCache, now);
            if read.result.Failure? then Policies.Outcome(Failure(read.result.error), read.policies, read.versions)
            else ResolvePolicies(paths[1..], includePaths, read.result.value, clientId, refreshCache, read.policies, read.versions, now)
        else Policies.Outcome(UnsupportedIncludePath(paths[0]), sp, sv)
    }

    function Complete<T>(written: After<Result<T>, Client>, sp: Policies.Store, sv: PolicyVersions.Store): Outcome<T> {
      Outcome(written.value, written.store, sp, sv)
    }

    /** The include paths of a loaded client, resolved; nothing happens for a null client or a
        null include-path array. */
    function IncludedPolicies(loaded: Option<Client>, clientId: int, includePaths: Option<seq<Expr>>, refreshCache: bool,
                              sp: Policies.Store, sv: PolicyVersions.Store, now: int): Policies.Outcome<Option<seq<Policy>>>
    {
      if loaded.Some? && includePaths.Some? then
        ResolvePolicies(NonNull(includePaths.value), includePaths.value, None, clientId, refreshCache, sp, sv, now)
      else Policies.Outcome(Success(None), sp, sv)
    }

    /** GetClientByClientId as written: the resolved policies are not attached to the client. */
    function ById(sc: Store, sp: Policies.Store, sv: PolicyVersions.Store, clientId: int, includePaths: Option<seq<Expr>>,
                  refreshCache: bool, now: int): Outcome<Option<Client>>
    {
      var args := PublicArgs(clientId, includePaths);
      var cached := base.FirstLookup(sc, ByIdPublic, args, refreshCache);
      if cached.Failure? then Outcome(Failure(cached.error), sc, sp, sv)
      else if cached.value.Hit? then Outcome(Success(cached.value.value), sc, sp, sv)
      else
        var loaded := LoadById(sc, clientId, refreshCache, now);
        var resolved := IncludedPolicies(loaded.value, clientId, includePaths, refreshCache, sp, sv, now);
        if resolved.result.Failure? then Outcome(Failure(resolved.result.error), loaded.store, resolved.policies, resolved.versions)
        else Complete(base.Finish(loaded.store, ByIdPublic, args, EntityValue(loaded.value), loaded.value, now),
                      resolved.policies, resolved.versions)
    }

    /** GetClientByClientId as evidently intended: the same steps, with the resolved policies
        attached to the client before it is cached and returned. */
    function ByIdWithPolicies(sc: Store, sp: Policies.Store, sv: PolicyVersions.Store, clientId: int,
                              includePaths: Option<seq<Expr>>, refreshCache: bool, now: int): Outcome<Option<Client>>
    {
      var args := PublicArgs(clientId, includePaths);
      var cached := base.FirstLookup(sc, ByIdPublic, args, refreshCache);
      if cached.Failure? then Outcome(Failure(cached.error), sc, sp, sv)
      else if cached.value.Hit? then Outcome(Success(cached.value.value), sc, sp, sv)
      else
        var loaded := LoadById(sc, clientId, refreshCache, now);
        var resolved := IncludedPolicies(loaded.value, clientId, includePaths, refreshCache, sp, sv, now);
        if resolved.result.Failure? then Outcome(Failure(resolved.result.error), loaded.store, resolved.policies, resolved.versions)
        else
          var client := if loaded.value.Some? && includePaths.Some? then Some(loaded.value.value.(policies := resolved.result.value))
                        else loaded.value;
          Complete(base.Finish(loaded.store, ByIdPublic, args, EntityValue(client), client, now),
                   resolved.policies, resolved.versions)
    }

    // -------------------------------------------------------------------------------------
    // The operations.

    /** The argument array of GetClients' cache calls: the include-path array itself. */
    static method SelectorArray(includePaths: Option<seq<Expr>>) returns (parameters: array?<Arg>)
      ensures parameters == null || fresh(parameters)
      ensures ArgsOf(parameters) == SelectorsAsArgs(includePaths)
    {
      if includePaths.None? {
        return null;
      }
      var selectors := includePaths.value;
      parameters := new Arg[|selectors|](i requires 0 <= i < |selectors| => SelectorAsArg(selectors[i]));
      assert parameters[..] == SelectorsAsArgs(includePaths).value;
    }

    method GetClients(includePaths: Option<seq<Expr>>, refreshCache: bool, now: int) returns (r: Result<Option<seq<Client>>>)
      modifies base
      ensures After(r, base.store) == All(old(base.store), includePaths, refreshCache, now)
    {
      if !refreshCache {
        var parameters := SelectorArray(includePaths);
        var cached :- base.TryGetCacheEntities(AllPublic, parameters);
        if cached.Hit? {
          return Success(cached.value);
        }
      }
      var clients := LoadClients(refreshCache, now);
      if includePaths.Some? {
        return Failure(NotSupportedException(None));
      }
      // the include-path array is null here, so the argument array is null and encodes without fail
      var written := base.TrySetCacheEntities(clients, AllPublic, null, now);
      return Success(clients);
    }

    method GetClientByClientId(clientId: int, includePaths: Option<seq<Expr>>, refreshCache: bool, now: int)
      returns (r: Result<Option<Client>>)
      modifies base, policies.base, policies.versions.base
      ensures Outcome(r, base.store, policies.base.store, policies.versions.base.store)
           == ById(old(base.store), old(policies.base.store), old(policies.versions.base.store), clientId, includePaths, refreshCache, now)
    {
      if !refreshCache {
        var parameters := new Arg[] [IntArg(clientId), IncludePathsArg(includePaths)];
        assert parameters[..] == [IntArg(clientId), IncludePathsArg(includePaths)];
        var cached :- base.TryGetCacheEntity(ByIdPublic, parameters);
        if cached.Hit? {
          return Success(cached.value);
        }
      }
      var client := LoadClientByClientId(clientId, refreshCache, now);
      // the policies are resolved into a local only
      if client.Some? && includePaths.Some? {
        var clientPolicies :- ResolveIncludePaths(clientId, includePaths.value, refreshCache, now);
      }
      var parameters := new Arg[] [IntArg(clientId), IncludePathsArg(includePaths)];
      assert parameters[..] == [IntArg(clientId), IncludePathsArg(includePaths)];
      var written :- base.TrySetCacheEntity(client, ByIdPublic, parameters, now);
      return Success(client);
    }

    /** GetClientByClientId with the resolved policies attached to the client before it is
        cached and returned. */
    method GetClientWithPolicies(clientId: int, includePaths: Option<seq<Expr>>, refreshCache: bool, now: int)
      returns (r: Result<Option<Client>>)
      modifies base, policies.base, policies.versions.base
      ensures Outcome(r, base.store, policies.base.store, policies.versions.base.store)
           == ByIdWithPolicies(old(base.store), old(policies.base.store), old(policies.versions.base.store), clientId,
                               includePaths, refreshCache, now)
    {
      if !refreshCache {
        var parameters := new Arg[] [IntArg(clientId), IncludePathsArg(includePaths)];
        assert parameters[..] == [IntArg(clientId), IncludePathsArg(includePaths)];
        var cached :- base.TryGetCacheEntity(ByIdPublic, parameters);
        if cached.Hit? {
          return Success(cached.value);
        }
      }
      var client := LoadClientByClientId(clientId, refreshCache, now);
      if client.Some? && includePaths.Some? {
        var clientPolicies :- ResolveIncludePaths(clientId, includePaths.value, refreshCache, now);
        client := Some(client.value.(policies := clientPolicies));
      }
      var parameters := new Arg[] [IntArg(clientId), IncludePathsArg(includePaths)];
      assert parameters[..] == [IntArg(clientId), IncludePathsArg(includePaths)];
      var written :- base.TrySetCacheEntity(client, ByIdPublic, parameters, now);
      return Success(client);
    }

    /** The include-path loop of GetClientByClientId, over the non-null paths. */
    method ResolveIncludePaths(clientId: int, includePaths: seq<Expr>, refreshCache: bool, now: int)
      returns (r: Result<Option<seq<Policy>>>)
      modifies policies.base, policies.versions.base
      ensures Policies.Outcome(r, policies.base.store, policies.versions.base.store)
           == ResolvePolicies(NonNull(includePaths), includePaths, None, clientId, refreshCache,
                              old(policies.base.store), old(policies.versions.base.store), now)
    {
      var paths := NonNull(includePaths);
      var clientPolicies: Option<seq<Policy>> := None;
      ghost var sp0, sv0 := policies.base.store, policies.versions.base.store;
      for i := 0 to |paths|
        invariant ResolvePolicies(paths, includePaths, None, clientId, refreshCache, sp0, sv0, now)
               == ResolvePolicies(paths[i..], includePaths, clientPolicies, clientId, refreshCache,
                                  policies.base.store, policies.versions.base.store, now)
      {
        assert paths[i..][0] == paths[i] && paths[i..][1..] == paths[i + 1..];
        var includePath := paths[i];
        var starts := StartsWith(includePath, PoliciesSelector, false);
        if starts.Failure? {
          return Failure(starts.error);
        }
        if starts.value && clientPolicies.None? {
          var policiesIncludePath: Option<seq<Expr>> := None;
          var withVersions :- AnyPathEquals(includePaths, PoliciesPolicyVersionsSelector);
          if withVersions {
            policiesIncludePath := Some([Policies.PolicyVersionsSelector]);
          }
          clientPolicies :- policies.GetPoliciesByClientId(clientId, policiesIncludePath, refreshCache, now);
        } else {
          return UnsupportedIncludePath(includePath);
        }
      }
      assert paths[|paths|..] == [];
      return Success(clientPolicies);
    }

    /** The private overload of GetClientByClientId. */
    method LoadClientByClientId(clientId: int, refreshCache: bool, now: int) returns (client: Option<Client>)
      modifies base
      ensures After(client, base.store) == LoadById(old(base.store), clientId, refreshCache, now)
    {
      ghost var key := PlainKey(ByIdPrivate, [IntArg(clientId)], base.encode);
      if !refreshCache {
        var parameters := new Arg[] [IntArg(clientId)];
        assert parameters[..] == [IntArg(clientId)];
        var cached := base.TryGetCacheEntity(ByIdPrivate, parameters);
        if cached.Success? && cached.value.Hit? {
          return cached.value.value;
        }
      }
      var fetched := Client(Some(clientId), Some(IntToString(clientId) + " name"), None);
      var parameters := new Arg[] [IntArg(clientId)];
      assert parameters[..] == [IntArg(clientId)];
      var written := base.TrySetCacheEntity(Some(fetched), ByIdPrivate, parameters, now);
      return Some(fetched);
    }

    /** The private overload of GetClients; its cache calls pass an empty argument array. */
    method LoadClients(refreshCache: bool, now: int) returns (clients: Option<seq<Client>>)
      modifies base
      ensures After(clients, base.store) == LoadAll(old(base.store), refreshCache, now)
    {
      ghost var key := PlainKey(AllPrivate, [], base.encode);
      if !refreshCache {
        var parameters := new Arg[0];
        var cached := base.TryGetCacheEntities(AllPrivate, parameters);
        if cached.Success? && cached.value.Hit? {
          return cached.value.value;
        }
      }
      var fetched := SourceClients();
      var parameters := new Arg[0];
      var written := base.TrySetCacheEntities(Some(fetched), AllPrivate, parameters, now);
      return Some(fetched);
    }

    // -------------------------------------------------------------------------------------
    // Properties of the reads.

    /** On a miss, or when refreshing, the private reads hand out the data source's clients. */
    lemma LoadsOnMiss(s: Store, id: int, refreshCache: bool, now: int)
      ensures (refreshCache || base.CachedEntity(s, ByIdPrivate, Some([IntArg(id)])) == Success(Miss)) ==>
                LoadById(s, id, refreshCache, now).value == Some(Client(Some(id), Some(ClientName(id)), None))
      ensures (refreshCache || base.CachedEntities(s, AllPrivate, Some([])) == Success(Miss)) ==>
                LoadAll(s, refreshCache, now).value ==
                  Some([Client(Some(1), Some("1 name"), None), Client(Some(2), Some("2 name"), None), Client(Some(3), Some("3 name"), None)])
    {
    }

    /** Without a refresh, a hit is returned as it is and no store changes. */
    lemma HitReturnsCached(sc: Store, sp: Policies.Store, sv: PolicyVersions.Store, id: int, includePaths: Option<seq<Expr>>, now: int)
      ensures var c := base.CachedEntity(sc, ByIdPublic, PublicArgs(id, includePaths));
              c.Success? && c.value.Hit? ==> ById(sc, sp, sv, id, includePaths, false, now) == Outcome(Success(c.value.value), sc, sp, sv)
      ensures var c := base.CachedEntities(sc, AllPublic, SelectorsAsArgs(includePaths));
              c.Success? && c.value.Hit? ==> All(sc, includePaths, false, now) == After(Success(c.value.value), sc)
    {
    }

    /** A selector array of GetClients normalises to its own elements. */
    lemma SelectorArgumentsNormalize(includePaths: seq<Expr>)
      ensures Normalized(SelectorsAsArgs(Some(includePaths)).value) == Success(SelectorsAsArgs(Some(includePaths)).value)
    {
      UnnestedArgumentsNormalize(SelectorsAsArgs(Some(includePaths)).value);
    }

    /** GetClients supports no include path: a refreshing call with an include-path array throws
        NotSupportedException after the private read. */
    lemma AllRejectsIncludePaths(s: Store, includePaths: seq<Expr>, now: int)
      ensures All(s, Some(includePaths), true, now) == After(Failure(NotSupportedException(None)), LoadAll(s, true, now).store)
    {
    }

    /** Without a refresh, a non-null selector cannot even be serialised into the lookup key. */
    lemma AllCannotKeySelectors(s: Store, includePaths: seq<Expr>, now: int)
      requires exists i :: 0 <= i < |includePaths| && !includePaths[i].Null?
      ensures All(s, Some(includePaths), false, now) == After(Failure(SerializationException), s)
    {
      SelectorArgumentsNormalize(includePaths);
      var args := SelectorsAsArgs(Some(includePaths)).value;
      var i :| 0 <= i < |includePaths| && !includePaths[i].Null?;
      assert !Serializable(args[i]);
    }

    /** Without a refresh, an include-path array that misses the cache holds only nulls (a
        selector could not have been keyed), and the call throws NotSupportedException after the
        private read. */
    lemma AllMissRejectsIncludePaths(s: Store, includePaths: seq<Expr>, now: int)
      requires base.CachedEntities(s, AllPublic, SelectorsAsArgs(Some(includePaths))) == Success(Miss)
      ensures forall i :: 0 <= i < |includePaths| ==> includePaths[i].Null?
      ensures All(s, Some(includePaths), false, now) == After(Failure(NotSupportedException(None)), LoadAll(s, false, now).store)
    {
      if exists i :: 0 <= i < |includePaths| && !includePaths[i].Null? {
        AllCannotKeySelectors(s, includePaths, now);
      }
    }

    /** With an include-path array GetClients succeeds only from the cache, and it never writes
        under the one public key it can write, that of a null array. */
    lemma AllWithIncludePathsWritesNoPublicKey(s: Store, includePaths: seq<Expr>, refreshCache: bool, now: int)
      ensures var r := All(s, Some(includePaths), refreshCache, now);
              r.value.Success? ==> base.CachedEntities(s, AllPublic, SelectorsAsArgs(Some(includePaths))) == Success(Hit(r.value.value))
      ensures var r := All(s, Some(includePaths), refreshCache, now);
              base.CachedEntities(r.store, AllPublic, None) == base.CachedEntities(s, AllPublic, None)
    {
      PublicKeysAreNotPrivateKeys(0, None, base.encode);
      NullParametersKey(AllPublic, base.encode);
    }

    /** A completed read leaves the cache so that the same read without a refresh, made before
        an entry written at `now` expires, is answered from the cache with the same value, leaving every store alone. */
    lemma RepeatedReadHits(sc: Store, sp: Policies.Store, sv: PolicyVersions.Store, id: int, includePaths: Option<seq<Expr>>,
                           refreshCache: bool, now: int, later: int)
      requires base.Available()
      requires later < now + base.cacheAbsoluteExpiration
      ensures var r := ById(sc, sp, sv, id, includePaths, refreshCache, now);
              r.result.Success? ==> ById(r.clients, r.policies, r.versions, id, includePaths, false, later) == r
    {
      var args := PublicArgs(id, includePaths);
      var r := ById(sc, sp, sv, id, includePaths, refreshCache, now);
      var cached := base.FirstLookup(sc, ByIdPublic, args, refreshCache);
      if r.result.Success? && !(cached.Success? && cached.value.Hit?) {
        var loaded := LoadById(sc, id, refreshCache, now);
        base.FinishThenHit(loaded.store, ByIdPublic, args, loaded.value, now);
        assert base.FirstLookup(r.clients, ByIdPublic, args, false) == Success(Hit(loaded.value));
      }
    }

    lemma RepeatedAllReadHits(s: Store, includePaths: Option<seq<Expr>>, refreshCache: bool, now: int, later: int)
      requires base.Available()
      requires later < now + base.cacheAbsoluteExpiration
      ensures var r := All(s, includePaths, refreshCache, now);
              r.value.Success? ==> All(r.store, includePaths, false, later) == r
    {
      var args := SelectorsAsArgs(includePaths);
      var cached := base.FirstLookupAll(s, AllPublic, args, refreshCache);
      if !(cached.Success? && cached.value.Hit?) && includePaths.None? {
        var loaded := LoadAll(s, refreshCache, now);
        var r := All(s, includePaths, refreshCache, now);
        if r.value.Success? {
          base.FinishThenHitAll(loaded.store, AllPublic, args, loaded.value, now);
        }
      }
    }

    /** A call that throws leaves the public key as it was; only the private read may have
        written. */
    lemma FailureLeavesPublicKey(sc: Store, sp: Policies.Store, sv: PolicyVersions.Store, id: int, includePaths: Option<seq<Expr>>,
                                 refreshCache: bool, now: int)
      ensures var r := ById(sc, sp, sv, id, includePaths, refreshCache, now);
              r.result.Failure? ==>
                base.CachedEntity(r.clients, ByIdPublic, PublicArgs(id, includePaths)) == base.CachedEntity(sc, ByIdPublic, PublicArgs(id, includePaths))
    {
      PublicKeysAreNotPrivateKeys(id, includePaths, base.encode);
    }

    /** Include paths are not looked at when the loaded client is null. */
    lemma NullClientSkipsIncludePaths(sc: Store, sp: Policies.Store, sv: PolicyVersions.Store, id: int,
                                      includePaths: Option<seq<Expr>>, refreshCache: bool, now: int)
      requires base.FirstLookup(sc, ByIdPublic, PublicArgs(id, includePaths), refreshCache) == Success(Miss)
      requires LoadById(sc, id, refreshCache, now).value.None?
      ensures var r := ById(sc, sp, sv, id, includePaths, refreshCache, now);
              r.policies == sp && r.versions == sv && (r.result.Success? ==> r.result.value.None?)
    {
    }

    /** One step of a completed include-path loop: the first path starts with "Policies", no
        policies were fetched before it, and the rest of the loop continues from the policy
        repository's read. */
    lemma ResolveStep(paths: seq<Expr>, includePaths: seq<Expr>, fetched: Option<seq<Policy>>, clientId: int,
                      refreshCache: bool, sp: Policies.Store, sv: PolicyVersions.Store, now: int)
      requires paths != []
      requires ResolvePolicies(paths, includePaths, fetched, clientId, refreshCache, sp, sv, now).result.Success?
      ensures StartsWith(paths[0], PoliciesSelector, false) == Success(true) && fetched.None?
      ensures AnyPathEquals(includePaths, PoliciesPolicyVersionsSelector).Success?
      ensures var nested := PoliciesIncludePath(AnyPathEquals(includePaths, PoliciesPolicyVersionsSelector).value);
              var read := policies.ByClientId(sp, sv, clientId, nested, refreshCache, now);
              read.result.Success? &&
              ResolvePolicies(paths, includePaths, fetched, clientId, refreshCache, sp, sv, now)
                == ResolvePolicies(paths[1..], includePaths, read.result.value, clientId, refreshCache, read.policies, read.versions, now)
    {
    }

    /** The include-path loop accepts only paths that start with "Policies". */
    lemma {:induction false} ResolveAcceptsOnlyPolicies(paths: seq<Expr>, includePaths: seq<Expr>, fetched: Option<seq<Policy>>,
                                                       clientId: int, refreshCache: bool, sp: Policies.Store,
                                                       sv: PolicyVersions.Store, now: int)
      requires ResolvePolicies(paths, includePaths, fetched, clientId, refreshCache, sp, sv, now).result.Success?
      ensures forall i :: 0 <= i < |paths| ==> StartsWith(paths[i], PoliciesSelector, false) == Success(true)
    {
      if paths != [] {
        ResolveStep(paths, includePaths, fetched, clientId, refreshCache, sp, sv, now);
        var nested := PoliciesIncludePath(AnyPathEquals(includePaths, PoliciesPolicyVersionsSelector).value);
        var read := policies.ByClientId(sp, sv, clientId, nested, refreshCache, now);
        ResolveAcceptsOnlyPolicies(paths[1..], includePaths, read.result.value, clientId, refreshCache, read.policies, read.versions, now);
        assert forall i :: 1 <= i < |paths| ==> paths[i] == paths[1..][i - 1];
      }
    }

    /** A path that does not start with "Policies" throws NotSupportedException naming it. */
    lemma OtherPathThrows(includePath: Expr, rest: seq<Expr>, includePaths: seq<Expr>, clientId: int, refreshCache: bool,
                          sp: Policies.Store, sv: PolicyVersions.Store, now: int, pathString: string)
      requires GetPathString(includePath) == Success(Some(pathString)) && !("Policies" <= pathString)
      ensures ResolvePolicies([includePath] + rest, includePaths, None, clientId, refreshCache, sp, sv, now)
           == Policies.Outcome(Failure(NotSupportedException(Some("The include path " + pathString + " is not supported"))), sp, sv)
    {
      SelectorPath(["Policies"]);
      assert Dotted(["Policies"]) == "Policies";
      assert ([includePath] + rest)[0] == includePath;
    }

    /** "Policies" fetches the client's policies without their versions. */
    lemma PoliciesPathFetches(sp: Policies.Store, sv: PolicyVersions.Store, clientId: int, refreshCache: bool, now: int)
      ensures ResolvePolicies([PoliciesSelector], [PoliciesSelector], None, clientId, refreshCache, sp, sv, now)
           == policies.ByClientId(sp, sv, clientId, None, refreshCache, now)
    {
      PoliciesSelectorsCompare();
      assert [PoliciesSelector][1..] == [];
      assert AnyPathEquals([PoliciesSelector][1..], PoliciesPolicyVersionsSelector) == Success(false);
      assert AnyPathEquals([PoliciesSelector], PoliciesPolicyVersionsSelector) == Success(false);
    }

    /** "Policies.PolicyVersions" asks the policy repository for the versions too. */
    lemma PolicyVersionsPathFetches(sp: Policies.Store, sv: PolicyVersions.Store, clientId: int, refreshCache: bool, now: int)
      ensures ResolvePolicies([PoliciesPolicyVersionsSelector], [PoliciesPolicyVersionsSelector], None, clientId, refreshCache, sp, sv, now)
           == policies.ByClientId(sp, sv, clientId, Some([Policies.PolicyVersionsSelector]), refreshCache, now)
    {
      PoliciesSelectorsCompare();
      assert [PoliciesPolicyVersionsSelector][1..] == [];
      assert AnyPathEquals([PoliciesPolicyVersionsSelector], PoliciesPolicyVersionsSelector) == Success(true);
    }

    /** Requesting both "Policies" and "Policies.PolicyVersions" throws on the second path,
        because the policies are already fetched by the first. */
    lemma BothPoliciesPathsThrow(sp: Policies.Store, sv: PolicyVersions.Store, clientId: int, refreshCache: bool, now: int)
      requires var read := policies.ByClientId(sp, sv, clientId, Some([Policies.PolicyVersionsSelector]), refreshCache, now);
               read.result.Success? && read.result.value.Some?
      ensures var paths := [PoliciesSelector, PoliciesPolicyVersionsSelector];
              var read := policies.ByClientId(sp, sv, clientId, Some([Policies.PolicyVersionsSelector]), refreshCache, now);
              (ResolvePolicies(paths, paths, None, clientId, refreshCache, sp, sv, now)
                 == Policies.Outcome(Failure(NotSupportedException(Some(UnsupportedPathMessage(Some("Policies.PolicyVersions"))))),
                                     read.policies, read.versions))
    {
      var paths := [PoliciesSelector, PoliciesPolicyVersionsSelector];
      PoliciesSelectorsCompare();
      assert paths[1..] == [PoliciesPolicyVersionsSelector] && paths[1..][1..] == [];
      assert AnyPathEquals(paths[1..], PoliciesPolicyVersionsSelector) == Success(true);
      assert AnyPathEquals(paths, PoliciesPolicyVersionsSelector) == Success(true);
      var read := policies.ByClientId(sp, sv, clientId, Some([Policies.PolicyVersionsSelector]), refreshCache, now);
      assert UnsupportedIncludePath<Option<seq<Policy>>>(PoliciesPolicyVersionsSelector)
          == Failure(NotSupportedException(Some(UnsupportedPathMessage(Some("Policies.PolicyVersions")))));
      assert ResolvePolicies(paths[1..], paths, read.result.value, clientId, refreshCache, read.policies, read.versions, now)
          == Policies.Outcome(UnsupportedIncludePath(PoliciesPolicyVersionsSelector), read.policies, read.versions);
    }

    /** As written, the policies resolved for a client are dropped: a read that is not answered
        from the cache returns, and caches, the client exactly as the private read loaded it. */
    lemma ClientIsReturnedWithoutPolicies(sc: Store, sp: Policies.Store, sv: PolicyVersions.Store, id: int,
                                          includePaths: Option<seq<Expr>>, refreshCache: bool, now: int)
      requires base.FirstLookup(sc, ByIdPublic, PublicArgs(id, includePaths), refreshCache) == Success(Miss)
      ensures var r := ById(sc, sp, sv, id, includePaths, refreshCache, now);
              r.result.Success? ==> r.result.value == LoadById(sc, id, refreshCache, now).value
    {
    }

    /** On cold caches the policy repository lists policies 1, 2 and 3 for client 1. */
    lemma ColdPoliciesOfClientOne(now: int)
      ensures policies.ByClientId(map[], map[], 1, None, false, now).result == Success(Some(Policies.SourcePolicies()))
    {
      assert Policies.PublicArgs(1, None) == Some([IntArg(1), NullArg]);
      var publicKey := PlainKey(Policies.ByClientIdPublic, [IntArg(1), NullArg], policies.base.encode);
      var privateKey := PlainKey(Policies.ByClientIdPrivate, [IntArg(1)], policies.base.encode);
      assert policies.base.FirstLookupAll(map[], Policies.ByClientIdPublic, Some([IntArg(1), NullArg]), false) == Success(Miss);
      var loaded := policies.LoadByClientId(map[], 1, false, now);
      assert loaded.value == Some(Policies.SourcePolicies());
      assert policies.base.Stored(loaded.store, Policies.ByClientIdPublic, Some([IntArg(1), NullArg]), EntitiesValue(loaded.value), now).Success?;
    }

    /** The key of a client read with "Policies" can be built: the selector normalises to its
        path, which serialises. */
    lemma PoliciesIncludeKeyBuilds(id: int)
      ensures base.Key(ByIdPublic, PublicArgs(id, Some([PoliciesSelector]))).Success?
    {
      PoliciesIncludeEncodes(id, base.encode);
    }

    /** The cold-cache read of client 1 with "Policies": no lookup hits, the key of the call
        can be built, and the include path resolves to policies 1, 2 and 3. */
    lemma ColdPoliciesIncludeSteps(now: int)
      ensures base.FirstLookup(map[], ByIdPublic, PublicArgs(1, Some([PoliciesSelector])), false) == Success(Miss)
      ensures LoadById(map[], 1, false, now).value == Some(Client(Some(1), Some("1 name"), None))
      ensures NonNull([PoliciesSelector]) == [PoliciesSelector]
      ensures ResolvePolicies([PoliciesSelector], [PoliciesSelector], None, 1, false, map[], map[], now).result
           == Success(Some(Policies.SourcePolicies()))
      ensures forall s: Store, v: Option<Stored<Client>> :: base.Stored(s, ByIdPublic, PublicArgs(1, Some([PoliciesSelector])), v, now).Success?
    {
      ClientNameExamples();
      PoliciesPathFetches(map[], map[], 1, false, now);
      ColdPoliciesOfClientOne(now);
      PoliciesIncludeKeyBuilds(1);
    }

    /** Reading client 1 on cold caches with the include path "Policies": as written the client
        comes back without policies. */
    lemma PoliciesIncludeScenario(now: int)
      ensures ById(map[], map[], map[], 1, Some([PoliciesSelector]), false, now).result
           == Success(Some(Client(Some(1), Some("1 name"), None)))
    {
      ColdPoliciesIncludeSteps(now);
    }

    /** The same read as intended attaches the data source's policies 1, 2 and 3. */
    lemma PoliciesIncludeScenarioWithPolicies(now: int)
      ensures var r := ByIdWithPolicies(map[], map[], map[], 1, Some([PoliciesSelector]), false, now);
              r.result.Success? && r.result.value.Some? && r.result.value.value.policies.Some? &&
              PolicyIds(r.result.value.value.policies.value) == [1, 2, 3]
    {
      ColdPoliciesIncludeSteps(now);
      assert PolicyIds(Policies.SourcePolicies()) == [1, 2, 3];
    }

    /** Reading client 1 on a cold cache returns it as the data source names it, and the same
        read made before that entry expires is answered from the cache with the same value. */
    lemma ColdReadIsCached(sp: Policies.Store, sv: PolicyVersions.Store, now: int, later: int)
      requires base.Available()
      requires later < now + base.cacheAbsoluteExpiration
      ensures var r := ById(map[], sp, sv, 1, None, false, now);
              r.result == Success(Some(Client(Some(1), Some("1 name"), None))) && r.policies == sp && r.versions == sv &&
              ById(r.clients, sp, sv, 1, None, false, later) == r
    {
      ClientNameExamples();
      assert PublicArgs(1, None) == Some([IntArg(1), NullArg]);
      var key := PlainKey(ByIdPublic, [IntArg(1), NullArg], base.encode);
      assert base.FirstLookup(map[], ByIdPublic, PublicArgs(1, None), false) == Success(Miss);
      RepeatedReadHits(map[], sp, sv, 1, None, false, now, later);
    }

    /** The intended read differs from the read as written only in the policies it attaches. */
    lemma WithPoliciesDiffersOnlyInPolicies(sc: Store, sp: Policies.Store, sv: PolicyVersions.Store, id: int,
                                            includePaths: Option<seq<Expr>>, refreshCache: bool, now: int)
      requires base.FirstLookup(sc, ByIdPublic, PublicArgs(id, includePaths), refreshCache) == Success(Miss)
      ensures var written := ById(sc, sp, sv, id, includePaths, refreshCache, now);
              var intended := ByIdWithPolicies(sc, sp, sv, id, includePaths, refreshCache, now);
              written.result.Success? == intended.result.Success? &&
              written.policies == intended.policies && written.versions == intended.versions &&
              (written.result.Success? ==>
                 written.result.value.Some? == intended.result.value.Some? &&
                 (written.result.value.Some? ==>
                    written.result.value.value.(policies := None) == intended.result.value.value.(policies := None)))
    {
    }

    /** The intended read attaches exactly the policies the include paths resolved to. */
    lemma WithPoliciesAttachesResolved(sc: Store, sp: Policies.Store, sv: PolicyVersions.Store, id: int,
                                       includePaths: Option<seq<Expr>>, refreshCache: bool, now: int)
      requires base.FirstLookup(sc, ByIdPublic, PublicArgs(id, includePaths), refreshCache) == Success(Miss)
      ensures var intended := ByIdWithPolicies(sc, sp, sv, id, includePaths, refreshCache, now);
              var loaded := LoadById(sc, id, refreshCache, now);
              intended.result.Success? && loaded.value.Some? && includePaths.Some? ==>
                intended.result.value ==
                  Some(loaded.value.value.(policies :=
                    ResolvePolicies(NonNull(includePaths.value), includePaths.value, None, id, refreshCache, sp, sv, now).result.value))
    {
    }
  }
}
