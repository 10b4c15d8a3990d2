# Cache-aside repositories, modelled in Dafny

This project models the data-access layer of `Snippets.Repository`. It has three read-only
repositories: clients, policies and policy versions. Each public read follows one cache-aside
state machine:

1. Unless a refresh is requested, it looks the call up in the cache and returns a hit as it is.
2. Otherwise it loads the base entity through a private cache-aside overload of the same method.
3. It walks the requested include paths. A path names a related entity to resolve through
   another repository; a path it does not support throws `NotSupportedException`.
4. It writes the result to the cache once and returns it.

Cache keys are built from the calling method's signature and its encoded arguments. Include-path
selector arrays are first rewritten into lists of their dotted path strings.

The model has one module per source file, plus two shared modules:

- `ExpressionExtensions` (ExpressionExtensions.cs) covers selectors as expression trees
  (`Expr`). It defines `GetPathString`, which reads the dotted path a selector stands for, and
  the two comparisons built on it, `PathEquals` and the segment-aware `StartsWith`. Its lemmas
  describe selectors written the way callers write them (`SelectorFor(["Policies",
  "PolicyVersions"])` is `c => c.Policies.Select(p => p.PolicyVersions)`).
- `RepositoryBase` (BaseRepository.cs) covers the key builder (`SignatureText`, `Normalized`,
  `EncodedParameters`, `CacheKey`) and the class `BaseRepository<E>`.
  - The class holds the injected store as a `map` field, together with `present`,
    `cacheEnabled`, `cacheAbsoluteExpiration` and the argument encoder.
  - Its methods are `TryGetCacheCore`, `TrySetCacheCore`, the in-place `EncodeParameters` loop,
    `CreateCacheKey`, and the four `TryGetCache`/`TrySetCache` wrappers.
  - Its specification functions (`Lookup`, `Put`, `ReadThroughEntity`, `Finish`, ...) describe
    what each call returns and the store it leaves behind.
- `Entities` holds the entity values (`Client`, `Policy`, `PolicyVersion`) and the decimal
  printing of `int` used by the mock client names.
- `PolicyVersions`, `Policies` and `Clients` (the three repository files) each have a class with
  two parts:
  - the public and private reads as methods, each proved equal to a specification function of
    the stores before the call;
  - lemmas about those functions.
  A repository that resolves include paths through another repository holds that repository as
  a field. Its methods modify both stores.
- `Common` holds `Option` (C#'s null), the .NET exceptions the code raises, and `Result`, which
  carries a thrown exception as a value.

The repositories' inputs are modelled as follows:

- The argument encoder (a binary serializer followed by base64) is a function parameter `encode`.
  Every key property is stated relative to it.
- The calling method, which the source finds by stack-frame reflection, is an explicit
  `MethodBase` constant per method. It carries the type names as `Type.ToString()` prints them.
- The clock is an integer `now` passed to each read.

## Model

| member | source | states |
|---|---|---|
| ExpressionExtensions.GetPathString | src/Repository/ExpressionExtensions.cs:78-106 | Path extraction fails only with ArgumentException. A null result comes only from a null expression or a lambda around one. A successful two-argument call always yields a path containing a dot. |
| ExpressionExtensions.SelectorPath | src/Repository/ExpressionExtensions.cs:74-101 | For every selector `x => x.S0.Select(y => y.S1...)` written over dot-free member names, path extraction yields exactly "S0.S1...". |
| ExpressionExtensions.MemberAccessIgnoresOwner | src/Repository/ExpressionExtensions.cs:100-101 | A member access yields only its own member name, whatever it is accessed on. `x => x.A.B` reads "B" and equals the selector for "B". |
| ExpressionExtensions.NonNull | src/Repository/PolicyRepository.cs:54 | `Where(p => p != null)` keeps exactly the non-null include paths and never adds one. |
| ExpressionExtensions.DottedInjective | src/Repository/ExpressionExtensions.cs:98 | Two selectors over dot-free names have equal dotted paths if and only if their member-name sequences are equal. |
| ExpressionExtensions.DottedSegmentPrefix | src/Repository/ExpressionExtensions.cs:51 | `path + "."` begins the value's dotted path if and only if the path's member names are a proper prefix of the value's. |
| ExpressionExtensions.PathEquals | src/Repository/ExpressionExtensions.cs:17-29 | False for a null path. True for the same instance, even one whose path cannot be read. Otherwise true exactly when the two path strings are equal. The only exception is path extraction's ArgumentException. |
| ExpressionExtensions.StartsWith | src/Repository/ExpressionExtensions.cs:31-52 | False for a null path and true for the same instance or equal path strings. A NullReferenceException is raised exactly when the value's path string is null and the path's is not. The only other exception is path extraction's ArgumentException. |
| ExpressionExtensions.SelectorPathEquals | src/Repository/ExpressionExtensions.cs:17-29 | On caller-written selectors, PathEquals succeeds and is true exactly when the member-name sequences are equal. |
| ExpressionExtensions.SelectorStartsWith | src/Repository/ExpressionExtensions.cs:31-52 | On caller-written selectors, StartsWith succeeds and is true exactly when the path's member names begin the value's, so it matches whole segments only. |
| ExpressionExtensions.PathEqualsImpliesStartsWith | src/Repository/ExpressionExtensions.cs:17-52 | For a non-null path, a positive PathEquals is a positive StartsWith. |
| ExpressionExtensions.SameInstanceShortCircuits | src/Repository/ExpressionExtensions.cs:20-41 | The same instance compares equal to itself, and starts with itself, even when its path could not be extracted. |
| ExpressionExtensions.SelectorExamples | src/Repository/ExpressionExtensions.cs:74-77 | `x => x.Foo` reads "Foo" and `x => x.Foo.Select(f => f.Bar)` reads "Foo.Bar". |
| ExpressionExtensions.ComparisonExamples | src/Repository/ExpressionExtensions.cs:17-52 | "Policies" equals "Policies" and not "Name". "Policies.PolicyVersions" starts with "Policies", but "PoliciesX" does not. |
| RepositoryBase.ParameterSignaturesAreJoined | src/Repository/BaseRepository.cs:158-165 | The Aggregate fold gives the "Type name" entries joined by ", ". The list is empty exactly when the method has no parameters. |
| RepositoryBase.PathStrings | src/Repository/BaseRepository.cs:194-195 | The path list has one entry per selector. The only failure is the ArgumentException of a selector that cannot be read. |
| RepositoryBase.UnnestedArgumentsNormalize | src/Repository/BaseRepository.cs:188-197 | Normalisation leaves every argument that is not a selector array unchanged. |
| RepositoryBase.PlainKey | src/Repository/BaseRepository.cs:167-171 | The key of a call with integer and null arguments is `signature + ":" + encode(arguments)`. |
| RepositoryBase.NullParametersKey | src/Repository/BaseRepository.cs:183-186 | A null argument array encodes as the literal "null", so the key is `signature + ":null"`. |
| RepositoryBase.SameArgumentsSameKey | src/Repository/BaseRepository.cs:188-197 | Two calls of one method whose selector arrays read as the same path strings get the same key, even when the selectors are distinct instances. |
| RepositoryBase.CacheKeyInjective | src/Repository/BaseRepository.cs:167-171 | A key determines the signature text and the encoded arguments it was built from, when the signature has no colon. |
| RepositoryBase.DistinctSignaturesDistinctKeys | src/Repository/BaseRepository.cs:167-171 | Colon-free methods whose signature texts differ never share a key, whatever their arguments. |
| RepositoryBase.SignatureTextInjective | src/Repository/BaseRepository.cs:167-170 | In one declaring type, equal signature texts mean equal method names and equal parameter lists. |
| RepositoryBase.SignatureTextNoColon | src/Repository/BaseRepository.cs:158-170 | A signature built from colon-free type and parameter names contains no colon. |
| RepositoryBase.TypeNamesNoColon | src/Repository/BaseRepository.cs:163 | The printed type names of the repositories' parameters (Int32, Boolean, the selector array) contain no colon. |
| RepositoryBase.OverloadSignaturesDiffer | src/Repository/BaseRepository.cs:158-170 | An overload with one extra parameter before the last has a different signature text. |
| RepositoryBase.OverloadKeysDiffer | src/Repository/BaseRepository.cs:155-174 | A repository's public overload and its private overload, which lacks `includePaths`, never share a key. |
| RepositoryBase.UnsupportedIncludePath | src/Repository/PolicyRepository.cs:66 | An unsupported include path always throws. When its path can be read, the exception is NotSupportedException with the message "The include path P is not supported". |
| RepositoryBase.EntryRoundTrip | src/Repository/BaseRepository.cs:117-118 | Null is stored as the sentinel and read back as null; any other value is read back as itself. |
| RepositoryBase.CastRoundTrip | src/Repository/BaseRepository.cs:118 | An entity stored as an entity, or a list stored as a list, survives the `as T` cast on the way back. |
| RepositoryBase.BaseRepository.constructor | src/Repository/BaseRepository.cs:18-25 | The store, its presence, the enabled flag and the expiration duration are those passed in. |
| RepositoryBase.BaseRepository.ReadYourWrite | src/Repository/BaseRepository.cs:115-139 | With caching available, reading a key just written yields the value written, null included, and the entry expires at now plus the configured duration. Otherwise the read misses. |
| RepositoryBase.BaseRepository.PutIsolated | src/Repository/BaseRepository.cs:137-139 | A write leaves the lookup of every other key unchanged. |
| RepositoryBase.BaseRepository.UnavailableIsInert | src/Repository/BaseRepository.cs:101-105 | Without a store, or with caching disabled, every lookup misses and every write leaves the store as it was. |
| RepositoryBase.BaseRepository.ReadThroughCaches | src/Repository/PolicyVersionRepository.cs:142-159 | After a private cache-aside read, the key holds exactly what the read returned. |
| RepositoryBase.BaseRepository.FinishThenHit | src/Repository/PolicyVersionRepository.cs:36-58 | After the final write of a public read succeeds, the same lookup hits with the value returned. |
| RepositoryBase.BaseRepository.FinishThenHitAll | src/Repository/PolicyVersionRepository.cs:70-93 | The same for reads of lists. |
| RepositoryBase.BaseRepository.TryGetCacheCore | src/Repository/BaseRepository.cs:96-122 | The result is the store's lookup. It misses when caching is unavailable or the key is absent, and reads the sentinel as a null hit. |
| RepositoryBase.BaseRepository.TrySetCacheCore | src/Repository/BaseRepository.cs:124-143 | Returns whether caching is available. If so, it sets exactly the given key, with the value or the sentinel and an expiry of now plus the duration. Every other key is unchanged. |
| RepositoryBase.BaseRepository.EncodeParameters | src/Repository/BaseRepository.cs:181-206 | The result is the encoding of the normalised arguments; it is "null" for a null array and SerializationException for an argument that cannot be serialised. On success the array is rewritten to its normal form. On failure, the arguments before the failing one are normalised and the rest are untouched. |
| RepositoryBase.BaseRepository.CreateCacheKey | src/Repository/BaseRepository.cs:155-174 | Returns `CacheKey` of the method and the arguments as they were before the call. |
| RepositoryBase.BaseRepository.TryGetCacheEntity | src/Repository/BaseRepository.cs:31-41 | The lookup under the call's key, cast to the entity type. |
| RepositoryBase.BaseRepository.TryGetCacheEntities | src/Repository/BaseRepository.cs:43-53 | The lookup under the call's key, cast to a list of entities. |
| RepositoryBase.BaseRepository.TrySetCacheEntity | src/Repository/BaseRepository.cs:55-65 | Writes the entity under the call's key. If the key cannot be built, the exception is returned and the store is unchanged. |
| RepositoryBase.BaseRepository.TrySetCacheEntities | src/Repository/BaseRepository.cs:67-77 | The same for a list of entities. |
| Entities.IntRoundTrip | src/Repository/ClientRepository.cs:139 | The decimal printing of an int in a client name reads back as the same number. |
| Entities.ClientNameInjective | src/Repository/ClientRepository.cs:139 | Distinct client ids get distinct names `id + " name"`. |
| Entities.ClientNameExamples | src/Repository/ClientRepository.cs:139 | Client 1 is named "1 name", client 42 "42 name" and client -7 "-7 name". |
| PolicyVersions.PublicKeysAreNotPrivateKeys | src/Repository/PolicyVersionRepository.cs:36-58 | None of the three public reads shares a key with the private read it calls. |
| PolicyVersions.PolicyVersionRepository.constructor | src/Repository/PolicyVersionRepository.cs:16-23 | The repository's cache is set up as the base constructor's is. |
| PolicyVersions.PolicyVersionRepository.GetPolicyVersionByPolicyVersionId | src/Repository/PolicyVersionRepository.cs:29-61 | Result and store afterwards are `ById` of the store before. |
| PolicyVersions.PolicyVersionRepository.GetPolicyVersionsByPolicyId | src/Repository/PolicyVersionRepository.cs:63-96 | Result and store afterwards are `ByPolicyId` of the store before. |
| PolicyVersions.PolicyVersionRepository.GetPolicyVersionsByClientId | src/Repository/PolicyVersionRepository.cs:98-130 | Result and store afterwards are `ByClientId` of the store before. |
| PolicyVersions.PolicyVersionRepository.LoadPolicyVersionByPolicyVersionId | src/Repository/PolicyVersionRepository.cs:136-160 | The private read is the cache-aside read of the data source's version. |
| PolicyVersions.PolicyVersionRepository.LoadPolicyVersionsByPolicyId | src/Repository/PolicyVersionRepository.cs:162-197 | The private read is the cache-aside read of versions 1, 2 and 3. |
| PolicyVersions.PolicyVersionRepository.LoadPolicyVersionsByClientId | src/Repository/PolicyVersionRepository.cs:199-234 | The private read is the cache-aside read of versions 1, 2 and 3. |
| PolicyVersions.PolicyVersionRepository.LoadByIdOnMiss | src/Repository/PolicyVersionRepository.cs:150-157 | On a miss or a refresh, the private read returns the version with the requested id and caches it under the private key. |
| PolicyVersions.PolicyVersionRepository.LoadListsOnMiss | src/Repository/PolicyVersionRepository.cs:176-227 | On a miss or a refresh, both private list reads return ids 1, 2 and 3 for any id. |
| PolicyVersions.PolicyVersionRepository.HitReturnsCached | src/Repository/PolicyVersionRepository.cs:36-42 | Without a refresh, a hit is returned as it is and the store is unchanged. The same holds for the list reads (70-76, 105-111). |
| PolicyVersions.PolicyVersionRepository.IncludePathsRejected | src/Repository/PolicyVersionRepository.cs:45-53 | Any include-path array, even an empty one, throws NotSupportedException after the private read. The public key keeps what it held. |
| PolicyVersions.PolicyVersionRepository.PolicyListIncludePathsRejected | src/Repository/PolicyVersionRepository.cs:79-88 | With include paths, the read by policy throws after the private read and leaves the public key as it was. |
| PolicyVersions.PolicyVersionRepository.ClientListIncludePathsRejected | src/Repository/PolicyVersionRepository.cs:114-122 | With include paths, the read by client throws after the private read and leaves the public key as it was. |
| PolicyVersions.PolicyVersionRepository.ListIncludePathsNotImplemented | src/Repository/PolicyVersionRepository.cs:84-88 | Once its list is loaded, the read by policy throws NotImplementedException for include paths. |
| PolicyVersions.PolicyVersionRepository.RefreshStillWrites | src/Repository/PolicyVersionRepository.cs:36-58 | A refresh skips the lookup but still writes: the public key then holds the freshly loaded version. |
| PolicyVersions.PolicyVersionRepository.RepeatedReadHits | src/Repository/PolicyVersionRepository.cs:36-58 | After a completed read, the same read without a refresh, made before an entry written then would expire, returns the same value from the cache and writes nothing. |
| PolicyVersions.PolicyVersionRepository.RepeatedPolicyListReadHits | src/Repository/PolicyVersionRepository.cs:70-93 | The same for the read by policy. |
| PolicyVersions.PolicyVersionRepository.RepeatedClientListReadHits | src/Repository/PolicyVersionRepository.cs:105-127 | The same for the read by client. |
| Policies.MatchesPolicyVersions | src/Repository/PolicyRepository.cs:57 | Comparing a path with `p => p.PolicyVersions` succeeds exactly when the path can be read, and is true exactly when it reads "PolicyVersions". |
| Policies.PublicKeysAreNotPrivateKeys | src/Repository/PolicyRepository.cs:38-74 | Neither public read shares a key with the private read it calls. |
| Policies.VersionsOf | src/Repository/PolicyRepository.cs:122-123 | The filtered list holds exactly the fetched versions whose policy id is the policy's. |
| Policies.WithVersions | src/Repository/PolicyRepository.cs:120-124 | Every policy, in order, with its versions set from the fetched list, and nothing else changed. |
| Policies.PolicyRepository.constructor | src/Repository/PolicyRepository.cs:16-25 | The cache is set up as the base constructor's is, and the version repository is the one passed in. |
| Policies.PolicyRepository.GetPolicyByPolicyId | src/Repository/PolicyRepository.cs:31-77 | Result and both stores afterwards are `ById` of the stores before. |
| Policies.PolicyRepository.GetPoliciesByClientId | src/Repository/PolicyRepository.cs:79-133 | Result and both stores afterwards are `ByClientId` of the stores before. |
| Policies.PolicyRepository.AttachIncludedVersions | src/Repository/PolicyRepository.cs:54-68 | The loop over the non-null paths computes `AttachVersions`. |
| Policies.PolicyRepository.FetchIncludedVersions | src/Repository/PolicyRepository.cs:102-118 | The loop over the non-null paths computes `FetchVersions`. |
| Policies.PolicyRepository.SetVersions | src/Repository/PolicyRepository.cs:120-124 | The `ForEach` over the policies yields `WithVersions`. |
| Policies.PolicyRepository.LoadPolicyByPolicyId | src/Repository/PolicyRepository.cs:139-163 | The private read is the cache-aside read of the data source's policy. |
| Policies.PolicyRepository.LoadPoliciesByClientId | src/Repository/PolicyRepository.cs:165-200 | The private read is the cache-aside read of policies 1, 2 and 3. |
| Policies.PolicyRepository.LoadsOnMiss | src/Repository/PolicyRepository.cs:153-193 | On a miss or a refresh, the private reads return the policy with the requested id and no versions, and policies 1, 2 and 3 for any client. |
| Policies.PolicyRepository.HitReturnsCached | src/Repository/PolicyRepository.cs:38-44 | Without a refresh, a hit is returned as it is and neither store changes. The same holds for the read by client (86-92). |
| Policies.PolicyRepository.AttachAcceptsOnlyPolicyVersions | src/Repository/PolicyRepository.cs:54-67 | When the include-path loop of the read by id completes, every path it saw reads "PolicyVersions". |
| Policies.PolicyRepository.FetchAcceptsOnlyPolicyVersions | src/Repository/PolicyRepository.cs:104-117 | When the include-path loop of the read by client completes, every path it saw reads "PolicyVersions". |
| Policies.PolicyRepository.PolicyVersionsPathAttaches | src/Repository/PolicyRepository.cs:57-63 | "PolicyVersions" on a policy without versions sets them to the version repository's read, or passes on that read's exception. |
| Policies.PolicyRepository.OtherPathThrows | src/Repository/PolicyRepository.cs:64-67 | Any other readable path throws NotSupportedException naming the path, in both loops, before anything is fetched. |
| Policies.PolicyRepository.DuplicatePathThrows | src/Repository/PolicyRepository.cs:57-66 | A second "PolicyVersions" throws, because the first one has already set the policy's versions. |
| Policies.PolicyRepository.DuplicatePathThrowsForClient | src/Repository/PolicyRepository.cs:107-117 | A second "PolicyVersions" throws, because the versions are already fetched. |
| Policies.PolicyRepository.NullPolicySkipsIncludePaths | src/Repository/PolicyRepository.cs:51-52 | When the loaded policy is null, include paths are not examined: the version store is unchanged and the result is null. |
| Policies.PolicyRepository.VersionsBelongToTheirPolicy | src/Repository/PolicyRepository.cs:100-124 | With include paths, every returned policy keeps its id and carries exactly the fetched versions that belong to it, or null when none were fetched. |
| Policies.PolicyRepository.FailureLeavesPublicKey | src/Repository/PolicyRepository.cs:66-74 | A read by id that throws leaves the public key as it was. |
| Policies.PolicyRepository.FailureLeavesClientPublicKey | src/Repository/PolicyRepository.cs:116-130 | A read by client that throws leaves the public key as it was. |
| Policies.PolicyRepository.RepeatedReadHits | src/Repository/PolicyRepository.cs:38-74 | After a completed read, the same read without a refresh, made before an entry written then would expire, returns the same value from the cache and changes neither store. |
| Policies.PolicyRepository.RepeatedClientReadHits | src/Repository/PolicyRepository.cs:86-130 | The same for the read by client. |
| Clients.SelectorsAsArgs | src/Repository/ClientRepository.cs:38-39 | The include-path array itself is the argument array, so no argument is ever a whole selector array that the key builder would turn into path strings. The arguments serialise exactly when every include path is null, so only an empty or all-null array can be keyed. |
| Clients.PublicKeysAreNotPrivateKeys | src/Repository/ClientRepository.cs:37-54 | Neither public read shares a key with the private read it calls. |
| Clients.PoliciesSelectorsCompare | src/Repository/ClientRepository.cs:86-91 | `c => c.Policies` reads "Policies" and `c => c.Policies.Select(p => p.PolicyVersions)` reads "Policies.PolicyVersions". Both start with "Policies", and only the second equals "Policies.PolicyVersions". |
| Clients.AnyPathEqualsMeansSome | src/Repository/ClientRepository.cs:91 | When no comparison throws, `Any` is true exactly when some include path equals "Policies.PolicyVersions". |
| Clients.SourceClientsAreNamedAfterTheirIds | src/Repository/ClientRepository.cs:161-178 | The data source's clients are 1, 2 and 3, each named after its id as the single read names it. |
| Clients.PoliciesIncludeNormalizes | src/Repository/BaseRepository.cs:188-197 | The arguments of a client read with "Policies" normalise to the id and the path list ["Policies"]. |
| Clients.PoliciesIncludeEncodes | src/Repository/BaseRepository.cs:199-205 | Those arguments are serialisable, so the key of such a read can be built. |
| Clients.ClientRepository.constructor | src/Repository/ClientRepository.cs:16-25 | The cache is set up as the base constructor's is, and the policy repository is the one passed in. |
| Clients.ClientRepository.SelectorArray | src/Repository/ClientRepository.cs:38-39 | The argument array of GetClients' cache calls holds the selectors themselves. |
| Clients.ClientRepository.GetClients | src/Repository/ClientRepository.cs:31-57 | Result and store afterwards are `All` of the store before. |
| Clients.ClientRepository.GetClientByClientId | src/Repository/ClientRepository.cs:59-116 | Result and the three stores afterwards are `ById` (as written) of the stores before. |
| Clients.ClientRepository.GetClientWithPolicies | src/Repository/ClientRepository.cs:59-116 | The corrected read: result and stores afterwards are `ByIdWithPolicies` of the stores before. |
| Clients.ClientRepository.ResolveIncludePaths | src/Repository/ClientRepository.cs:83-107 | The loop over the non-null paths computes `ResolvePolicies`. |
| Clients.ClientRepository.LoadClientByClientId | src/Repository/ClientRepository.cs:122-147 | The private read is the cache-aside read of the data source's client. |
| Clients.ClientRepository.LoadClients | src/Repository/ClientRepository.cs:149-184 | The private read is the cache-aside read of clients 1, 2 and 3. |
| Clients.ClientRepository.LoadsOnMiss | src/Repository/ClientRepository.cs:136-178 | On a miss or a refresh, the private reads return client `id` named `id + " name"`, and clients 1, 2 and 3 named "1 name", "2 name" and "3 name". |
| Clients.ClientRepository.HitReturnsCached | src/Repository/ClientRepository.cs:66-71 | Without a refresh, a hit is returned as it is and no store changes. The same holds for GetClients (37-42). |
| Clients.ClientRepository.SelectorArgumentsNormalize | src/Repository/BaseRepository.cs:191 | Selectors passed one per argument are not selector arrays, so normalisation leaves them as they are. |
| Clients.ClientRepository.AllRejectsIncludePaths | src/Repository/ClientRepository.cs:45-51 | GetClients with a refresh and any include-path array throws NotSupportedException after the private read. |
| Clients.ClientRepository.AllCannotKeySelectors | src/Repository/ClientRepository.cs:37-39 | Without a refresh, an include-path array with a non-null selector cannot be serialised into the lookup key. The call throws and the store is unchanged. |
| Clients.ClientRepository.AllMissRejectsIncludePaths | src/Repository/ClientRepository.cs:37-51 | Without a refresh, an include-path array that misses the cache holds only nulls, and the call throws NotSupportedException after the private read. |
| Clients.ClientRepository.AllWithIncludePathsWritesNoPublicKey | src/Repository/ClientRepository.cs:37-54 | With include paths, GetClients succeeds only with a cache hit. It never changes the entry GetClients reads for a null include-path array. |
| Clients.ClientRepository.RepeatedReadHits | src/Repository/ClientRepository.cs:66-113 | After a completed read, the same read without a refresh, made before an entry written then would expire, returns the same value from the cache and changes no store. |
| Clients.ClientRepository.RepeatedAllReadHits | src/Repository/ClientRepository.cs:37-54 | The same for GetClients. |
| Clients.ClientRepository.FailureLeavesPublicKey | src/Repository/ClientRepository.cs:105-113 | A read that throws leaves the public key as it was. |
| Clients.ClientRepository.NullClientSkipsIncludePaths | src/Repository/ClientRepository.cs:78-79 | When the loaded client is null, include paths are not examined: the other repositories' stores are unchanged and the result is null. |
| Clients.ClientRepository.ResolveAcceptsOnlyPolicies | src/Repository/ClientRepository.cs:83-106 | When the include-path loop completes, every path it saw starts with "Policies". |
| Clients.ClientRepository.OtherPathThrows | src/Repository/ClientRepository.cs:103-106 | A readable path that does not begin with "Policies" throws NotSupportedException naming it, before anything is fetched. |
| Clients.ClientRepository.PoliciesPathFetches | src/Repository/ClientRepository.cs:86-101 | "Policies" alone is the policy repository's read by client, without include paths. |
| Clients.ClientRepository.PolicyVersionsPathFetches | src/Repository/ClientRepository.cs:91-101 | "Policies.PolicyVersions" is the policy repository's read by client with ["PolicyVersions"]. |
| Clients.ClientRepository.BothPoliciesPathsThrow | src/Repository/ClientRepository.cs:86-106 | "Policies" followed by "Policies.PolicyVersions" fetches once, with versions, and then throws on the second path because the policies are already fetched. |
| Clients.ClientRepository.ClientIsReturnedWithoutPolicies | src/Repository/ClientRepository.cs:81-115 | As written, a read not answered from the cache returns the client exactly as the private read loaded it. |
| Clients.ClientRepository.ColdPoliciesIncludeSteps | src/Repository/ClientRepository.cs:59-113 | On cold caches, a read of client 1 with "Policies" misses, loads "1 name", resolves the path to policies 1, 2 and 3, and can write its key. |
| Clients.ClientRepository.PoliciesIncludeScenario | src/Repository/ClientRepository.cs:59-116 | As written, that read returns client 1 with no policies. |
| Clients.ClientRepository.PoliciesIncludeScenarioWithPolicies | src/Repository/ClientRepository.cs:59-116 | The corrected read returns client 1 with policies 1, 2 and 3. |
| Clients.ClientRepository.ColdReadIsCached | src/Repository/ClientRepository.cs:66-115 | On a cold cache, client 1 comes back named "1 name", and the same read made before that entry expires is answered from the cache with the same value. |
| Clients.ClientRepository.WithPoliciesDiffersOnlyInPolicies | src/Repository/ClientRepository.cs:81-113 | The corrected read fails, and touches the other stores, exactly as the read as written does. Its client differs only in its policies. |
| Clients.ClientRepository.WithPoliciesAttachesResolved | src/Repository/ClientRepository.cs:99-113 | The corrected read attaches exactly the policies the include paths resolved to. |

## Left out

- Serialisation: `BinaryFormatter` and the base64 encoding of the arguments (BaseRepository.cs:199-205) are the function `encode`. Only "which argument kinds serialise" is modelled. Integers, nulls and lists of path strings serialise; a selector object does not.
- Caller identification: `new StackFrame(1, false).GetMethod()` (BaseRepository.cs:36-72) is runtime reflection. Each repository method passes its `MethodBase` constant instead.
- Cache internals: `ObjectCache` internals, time-driven eviction and the `DateTimeOffset.UtcNow` clock are left out. The store is a map, expired entries are never evicted, and `now` is a parameter of every read.
- PolicyVersions.PolicyVersionRepository.RepeatedReadHits, RepeatedPolicyListReadHits and RepeatedClientListReadHits: the model's lookup never reads an entry's recorded expiry. The lemmas therefore require the later read to come before `now` plus the configured duration. When the first read was itself a hit on an older entry, the source can miss earlier than that, and the model does not capture this.
- Policies.PolicyRepository.RepeatedReadHits and RepeatedClientReadHits: the same expiry caveat.
- Clients.ClientRepository.RepeatedReadHits, RepeatedAllReadHits and ColdReadIsCached: the same expiry caveat. For ColdReadIsCached the entry is written at `now`, so the requirement is exact.
- `CacheItemPolicy`: the policy is reduced to its absolute expiration. Its override point (the method is `virtual`) is not modelled.
- Shared cache: sharing one `ObjectCache` between repositories is not modelled. Each repository's store is a separate map, and keys are compared only within one repository.
- Concurrency: concurrent callers on a shared cache are not modelled. Nothing in these files synchronises.
- Reference aliasing: entities are values, but the source mutates entity objects in place and the cache holds references. PolicyRepository.cs:60 sets the versions of the `Policy` that the private read cached at 159-160, and the `ForEach` at 120-124 does the same to every policy of the cached list. The model does not capture what that does to later reads:
  - After `GetPolicyByPolicyId(1, [p => p.PolicyVersions], false)` on cold caches, `GetPolicyByPolicyId(1, null, false)` misses its public key and hits the private one at 46-47. The source returns the changed object, with versions. The model returns the policy as loaded, with none.
  - After the same first read, `GetPolicyByPolicyId(1, [p => p.PolicyVersions, null], false)` has its own public key, so it also reaches the private hit. The source then throws NotSupportedException at 66, because `PolicyVersions` is already set. The model succeeds.
  - Public entries written earlier that hold the same objects change with them. After a read by client with include paths, `GetPoliciesByClientId(c, null, false)` returns versions in the source and none in the model.
  - The model does not capture the identity of entity objects, so it cannot express any of these effects.
- Interfaces: IClientRepository, IPolicyRepository and IPolicyVersionRepository are not modelled. Their default arguments are call-site sugar. Each constructor takes the concrete repository class it calls.
- Entities: PolicyVersion.cs and Entity.cs are not part of this model. `PolicyVersion` is declared with its version id and policy id only, the two properties the repositories use.
- String operations: `string.StartsWith` is taken as the ordinal prefix test, with no culture-sensitive comparison.
- Integer formatting: `clientId + " name"` uses invariant-culture decimal printing of the full `int` range, without a culture's negative sign.
- Extracted loops: the include-path loops of GetPolicyByPolicyId, GetPoliciesByClientId and GetClientByClientId are separate methods (AttachIncludedVersions, FetchIncludedVersions, ResolveIncludePaths) that the reads call.

## Findings

| source | as written | input that shows it | evidently intended | confidence | as-written member | corrected member |
|---|---|---|---|---|---|---|
| src/Repository/ClientRepository.cs:81-115 | The policies resolved for the include paths go into the local `policies`, which nothing reads afterwards. The client is cached and returned without them. | `GetClientByClientId(1, [c => c.Policies], false)` on cold caches returns client 1 with `Policies` null. | The client is returned and cached with its `Policies` set to the resolved policies (1, 2, 3 for this input), as the other repositories do for their include paths. | not executed | Clients.ClientRepository.PoliciesIncludeScenario | Clients.ClientRepository.PoliciesIncludeScenarioWithPolicies |

The read as written is modelled by `GetClientByClientId`, specified by `ById`:

- `ClientIsReturnedWithoutPolicies` shows that it always returns the client as loaded.
- `PoliciesIncludeScenario` exhibits the input above.

The corrected read is modelled by `GetClientWithPolicies`, specified by `ByIdWithPolicies`:

- `PoliciesIncludeScenarioWithPolicies` proves the intended result for that input.
- `WithPoliciesAttachesResolved` proves the intended property for every input: the client carries exactly the resolved policies.
- `WithPoliciesDiffersOnlyInPolicies` proves that the fix changes nothing else.
