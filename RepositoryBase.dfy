/** The reusable core every repository is built on: the cache key derived from the calling
    method and its arguments, and the cache accessor that reads and writes an optional,
    switchable store with absolute expiration and a stored-null sentinel. */
module RepositoryBase {
  import opened Common
  import opened ExpressionExtensions

  // ---------------------------------------------------------------------------------------
  // The calling method, as reflection describes it.

  /** A formal parameter: its type as Type.ToString() prints it, and its name. */
  datatype ParameterInfo = ParameterInfo(parameterType: string, name: string)

  /** The calling method: declaring type (full name), method name and formal parameters. */
  datatype MethodBase = MethodBase(declaringType: string, name: string, parameters: seq<ParameterInfo>)

  function ParameterSignature(p: ParameterInfo): string {
    p.parameterType + " " + p.name
  }

  /** `Select(p => ...).Aggregate((current, next) => current + ", " + next)`: a left fold. */
  function Aggregate(ps: seq<ParameterInfo>): string
    requires |ps| >= 1
  {
    if |ps| == 1 then ParameterSignature(ps[0])
    else Aggregate(ps[..|ps| - 1]) + ", " + ParameterSignature(ps[|ps| - 1])
  }

  /** The parameter list inside the parentheses; empty when the method takes no parameters. */
  function ParameterSignatures(ps: seq<ParameterInfo>): string {
    if |ps| > 0 then Aggregate(ps) else ""
  }

  /** Reference reading of the parameter list: each "Type name", separated by ", ". */
  function Joined(ps: seq<ParameterInfo>): string {
    if |ps| == 0 then ""
    else if |ps| == 1 then ParameterSignature(ps[0])
    else ParameterSignature(ps[0]) + ", " + Joined(ps[1..])
  }

  /** Joining a list of at least two signatures appends the last one after the others. */
  lemma {:induction false} JoinedSnoc(ps: seq<ParameterInfo>)
    requires |ps| >= 2
    ensures Joined(ps) == Joined(ps[..|ps| - 1]) + ", " + ParameterSignature(ps[|ps| - 1])
  {
    var init := ps[..|ps| - 1];
    if |ps| > 2 {
      JoinedSnoc(ps[1..]);
      assert ps[1..][..|ps[1..]| - 1] == init[1..];
      assert ps[1..][|ps[1..]| - 1] == ps[|ps| - 1];
      assert init[0] == ps[0];
    } else {
      assert init == [ps[0]];
    }
  }

  /** The left fold over the parameters yields the same text as joining their signatures. */
  lemma {:induction false} ParameterSignaturesAreJoined(ps: seq<ParameterInfo>)
    ensures ParameterSignatures(ps) == Joined(ps)
    ensures ParameterSignatures(ps) == "" <==> ps == []
  {
    if |ps| > 1 {
      ParameterSignaturesAreJoined(ps[..|ps| - 1]);
      JoinedSnoc(ps);
    }
  }

  /** "DeclaringType.Name(Type1 name1, Type2 name2)" */
  function SignatureText(m: MethodBase): string {
    m.declaringType + "." + m.name + "(" + ParameterSignatures(m.parameters) + ")"
  }

  // ---------------------------------------------------------------------------------------
  // The arguments passed to a cached operation and their encoding.

  /** An argument as the key builder sees it. */
  datatype Arg =
    | IntArg(i: int)
    | NullArg
    | SelectorArg(selector: Expr)              // a single include-path selector object
    | SelectorsArg(selectors: seq<Expr>)       // a non-null array of include-path selectors
    | PathsArg(paths: seq<Option<string>>)     // the list of path strings that replaces such an array

  /** An `includePaths` argument: null or an array of selectors. */
  function IncludePathsArg(includePaths: Option<seq<Expr>>): Arg {
    if includePaths.None? then NullArg else SelectorsArg(includePaths.value)
  }

  /** `selectors.Select(p => p.ToPathString()).ToList()`; the first selector that cannot be
      parsed aborts it. */
  function PathStrings(selectors: seq<Expr>): (r: Result<seq<Option<string>>>)
    ensures r.Success? ==> |r.value| == |selectors|
    ensures r.Failure? ==> r.error == ArgumentException
  {
    if selectors == [] then Success([])
    else
      var head :- GetPathString(selectors[0]);
      var tail :- PathStrings(selectors[1..]);
      Success([head] + tail)
  }

  /** The normalisation of one argument: a selector array becomes the list of its paths. */
  function NormalizeArg(a: Arg): Result<Arg> {
    if a.SelectorsArg? then
      var paths :- PathStrings(a.selectors);
      Success(PathsArg(paths))
    else Success(a)
  }

  /** The normalisation of every argument, left to right; the first failure aborts it. */
  function Normalized(args: seq<Arg>): (r: Result<seq<Arg>>)
    ensures r.Success? ==> |r.value| == |args|
  {
    if args == [] then Success([])
    else
      var init :- Normalized(args[..|args| - 1]);
      var last :- NormalizeArg(args[|args| - 1]);
      Success(init + [last])
  }

  /** What the serializer accepts: boxed integers, nulls and lists of strings. */
  predicate Serializable(a: Arg) {
    a.IntArg? || a.NullArg? || a.PathsArg?
  }

  predicate AllSerializable(args: seq<Arg>) {
    forall i :: 0 <= i < |args| ==> Serializable(args[i])
  }

  /** The encoded-arguments segment of a key: "null" for a null argument array, otherwise the
      encoding of the normalised arguments, which fails on an argument that cannot be serialised. */
  function EncodedParameters(parameters: Option<seq<Arg>>, encode: seq<Arg> -> string): Result<string> {
    if parameters.None? then Success("null")
    else
      var normalized :- Normalized(parameters.value);
      if AllSerializable(normalized) then Success(encode(normalized))
      else Failure(SerializationException)
  }

  /** "DeclaringType.Name(signature):encoded-arguments" */
  function CacheKey(m: MethodBase, parameters: Option<seq<Arg>>, encode: seq<Arg> -> string): Result<string> {
    var encoded :- EncodedParameters(parameters, encode);
    Success(SignatureText(m) + ":" + encoded)
  }

  /** Arguments that are integers or nulls pass through normalisation unchanged. */
  predicate Plain(args: seq<Arg>) {
    forall i :: 0 <= i < |args| ==> args[i].IntArg? || args[i].NullArg?
  }

  /** Normalisation rewrites selector arrays only; every other argument passes through. */
  lemma {:induction false} UnnestedArgumentsNormalize(args: seq<Arg>)
    requires forall i :: 0 <= i < |args| ==> !args[i].SelectorsArg?
    ensures Normalized(args) == Success(args)
  {
    if args != [] {
      UnnestedArgumentsNormalize(args[..|args| - 1]);
      assert args[..|args| - 1] + [args[|args| - 1]] == args;
    }
  }

  /** The key of a call whose arguments are all integers or nulls. */
  function PlainKey(m: MethodBase, args: seq<Arg>, encode: seq<Arg> -> string): (key: string)
    requires Plain(args)
    ensures CacheKey(m, Some(args), encode) == Success(key)
  {
    UnnestedArgumentsNormalize(args);
    SignatureText(m) + ":" + encode(args)
  }

  /** A null argument array encodes as the literal "null". */
  lemma NullParametersKey(m: MethodBase, encode: seq<Arg> -> string)
    ensures CacheKey(m, None, encode) == Success(SignatureText(m) + ":null")
  {
    assert SignatureText(m) + ":" + "null" == SignatureText(m) + ":null";
  }

  /** Two arguments that normalise alike: equal, or selector arrays with equal path strings. */
  predicate SameArgument(a: Arg, b: Arg) {
    a == b || (a.SelectorsArg? && b.SelectorsArg? && PathStrings(a.selectors) == PathStrings(b.selectors))
  }

  predicate SameArguments(a: seq<Arg>, b: seq<Arg>) {
    |a| == |b| && forall i :: 0 <= i < |a| ==> SameArgument(a[i], b[i])
  }

  lemma {:induction false} SameArgumentsNormalizeAlike(a: seq<Arg>, b: seq<Arg>)
    requires SameArguments(a, b)
    ensures Normalized(a) == Normalized(b)
  {
    if a != [] {
      var n := |a| - 1;
      assert SameArguments(a[..n], b[..n]) by {
        forall i | 0 <= i < n ensures SameArgument(a[..n][i], b[..n][i]) {
          assert a[..n][i] == a[i] && b[..n][i] == b[i];
        }
      }
      SameArgumentsNormalizeAlike(a[..n], b[..n]);
      assert NormalizeArg(a[n]) == NormalizeArg(b[n]) by {
        assert SameArgument(a[n], b[n]);
      }
    }
  }

  /** Keys depend on include-path selectors only through their path strings: two calls of the
      same method whose selector arrays read as the same paths get the same key, even when the
      selectors are distinct instances or differently written. */
  lemma SameArgumentsSameKey(m: MethodBase, a: seq<Arg>, b: seq<Arg>, encode: seq<Arg> -> string)
    requires SameArguments(a, b)
    ensures CacheKey(m, Some(a), encode) == CacheKey(m, Some(b), encode)
  {
    SameArgumentsNormalizeAlike(a, b);
  }

  // ---------------------------------------------------------------------------------------
  // Keys of different methods never collide.

  predicate NoColon(s: string) {
    forall i :: 0 <= i < |s| ==> s[i] != ':'
  }

  /** A head without the separator is never a longer prefix than the one ending at it. */
  lemma SeparatorBounds(x: string, s: string, y: string, c: char)
    requires c !in y
    ensures |x| < |y| ==> !(y <= x + [c] + s)
  {
    if |x| < |y| <= |x| + 1 + |s| {
      assert y[|x|] in y;
      assert (x + [c] + s)[|x|] == c;
    }
  }

  /** Two strings split at the first occurrence of a separator that neither head contains. */
  lemma SplitAtSeparator(x: string, s: string, y: string, t: string, c: char)
    requires c !in x && c !in y
    requires x + [c] + s == y + [c] + t
    ensures x == y && s == t
  {
    var l := x + [c] + s;
    SeparatorBounds(x, s, y, c);
    SeparatorBounds(y, t, x, c);
    assert y <= l && x <= y + [c] + t;
    assert x == l[..|x|] == (y + [c] + t)[..|y|] == y;
    assert s == l[|x| + 1..] == (y + [c] + t)[|y| + 1..] == t;
  }

  /** A key determines the signature text and the encoded arguments it was built from, as long
      as the signature text contains no colon. */
  lemma CacheKeyInjective(m1: MethodBase, p1: Option<seq<Arg>>, m2: MethodBase, p2: Option<seq<Arg>>,
                          encode: seq<Arg> -> string)
    requires NoColon(SignatureText(m1)) && NoColon(SignatureText(m2))
    requires CacheKey(m1, p1, encode).Success? && CacheKey(m1, p1, encode) == CacheKey(m2, p2, encode)
    ensures SignatureText(m1) == SignatureText(m2)
    ensures EncodedParameters(p1, encode) == EncodedParameters(p2, encode)
  {
    var e1, e2 := EncodedParameters(p1, encode).value, EncodedParameters(p2, encode).value;
    assert ':' !in SignatureText(m1) && ':' !in SignatureText(m2);
    assert SignatureText(m1) + ":" + e1 == SignatureText(m1) + [':'] + e1;
    assert SignatureText(m2) + ":" + e2 == SignatureText(m2) + [':'] + e2;
    SplitAtSeparator(SignatureText(m1), e1, SignatureText(m2), e2, ':');
  }

  /** Methods whose signature texts differ never share a key, whatever their arguments. */
  lemma DistinctSignaturesDistinctKeys(m1: MethodBase, p1: Option<seq<Arg>>, m2: MethodBase, p2: Option<seq<Arg>>,
                                       encode: seq<Arg> -> string)
    requires NoColon(SignatureText(m1)) && NoColon(SignatureText(m2))
    requires SignatureText(m1) != SignatureText(m2)
    requires CacheKey(m1, p1, encode).Success?
    ensures CacheKey(m1, p1, encode) != CacheKey(m2, p2, encode)
  {
    if CacheKey(m1, p1, encode) == CacheKey(m2, p2, encode) {
      CacheKeyInjective(m1, p1, m2, p2, encode);
    }
  }

  /** In one declaring type, the signature text tells apart methods of different names and
      overloads with different parameter lists, as long as no method name contains '('. */
  lemma SignatureTextInjective(m1: MethodBase, m2: MethodBase)
    requires m1.declaringType == m2.declaringType
    requires '(' !in m1.name && '(' !in m2.name
    requires SignatureText(m1) == SignatureText(m2)
    ensures m1.name == m2.name
    ensures ParameterSignatures(m1.parameters) == ParameterSignatures(m2.parameters)
  {
    var prefix := m1.declaringType + ".";
    var r1, r2 := ParameterSignatures(m1.parameters) + ")", ParameterSignatures(m2.parameters) + ")";
    assert SignatureText(m1) == prefix + (m1.name + ['('] + r1);
    assert SignatureText(m2) == prefix + (m2.name + ['('] + r2);
    assert m1.name + ['('] + r1 == SignatureText(m1)[|prefix|..] == m2.name + ['('] + r2;
    SplitAtSeparator(m1.name, r1, m2.name, r2, '(');
    assert ParameterSignatures(m1.parameters) == r1[..|r1| - 1] == r2[..|r2| - 1] == ParameterSignatures(m2.parameters);
  }

  /** A parameter list built from colon-free names has no colon. */
  lemma {:induction false} ParameterSignaturesNoColon(ps: seq<ParameterInfo>)
    requires forall i :: 0 <= i < |ps| ==> NoColon(ps[i].parameterType) && NoColon(ps[i].name)
    ensures NoColon(ParameterSignatures(ps))
  {
    ParameterSignaturesAreJoined(ps);
    if |ps| > 1 {
      ParameterSignaturesNoColon(ps[1..]);
      ParameterSignaturesAreJoined(ps[1..]);
    }
  }

  predicate ParametersNoColon(ps: seq<ParameterInfo>) {
    forall i :: 0 <= i < |ps| ==> NoColon(ps[i].parameterType) && NoColon(ps[i].name)
  }

  /** A signature built from colon-free names has no colon. */
  lemma SignatureTextNoColon(m: MethodBase)
    requires NoColon(m.declaringType) && NoColon(m.name) && ParametersNoColon(m.parameters)
    ensures NoColon(SignatureText(m))
  {
    ParameterSignaturesNoColon(m.parameters);
  }

  // ---------------------------------------------------------------------------------------
  // Type names as reflection prints them, for the repositories' method descriptors.

  const Int32 := "System.Int32"
  const Boolean := "System.Boolean"

  /** The full name of a type in the repositories' namespace. */
  function RepositoryType(name: string): string {
    "Snippets.Repository." + name
  }

  /** The printed type of `Expression<Func<TEntity, object>>[]`. */
  function SelectorArrayType(entity: string): string {
    "System.Linq.Expressions.Expression`1[" + "System.Func`2[" + RepositoryType(entity) + ",System.Object]][]"
  }

  lemma TypeNamesNoColon(name: string)
    requires NoColon(name)
    ensures NoColon(Int32) && NoColon(Boolean)
    ensures NoColon(RepositoryType(name)) && NoColon(SelectorArrayType(name))
  {
    TypeNamePiecesNoColon();
  }

  lemma TypeNamePiecesNoColon()
    ensures NoColon("System.Int32") && NoColon("System.Boolean")
    ensures NoColon("Snippets.Repository.")
    ensures NoColon("System.Linq.Expressions.Expression`1[")
    ensures NoColon("System.Func`2[")
    ensures NoColon(",System.Object]][]")
  {
  }

  /** Each further parameter adds its signature and a separator to the fold. */
  lemma AggregateLength(init: seq<ParameterInfo>, last: ParameterInfo)
    requires |init| >= 1
    ensures |Aggregate(init + [last])| == |Aggregate(init)| + 2 + |ParameterSignature(last)|
  {
    var ps := init + [last];
    assert ps[..|ps| - 1] == init && ps[|ps| - 1] == last;
  }

  /** An overload with one more parameter before the last has a longer parameter list. */
  lemma ExtraParameterLengthens(front: seq<ParameterInfo>, extra: ParameterInfo, last: ParameterInfo)
    ensures |ParameterSignatures(front + [extra, last])| > |ParameterSignatures(front + [last])|
  {
    assert front + [extra, last] == (front + [extra]) + [last];
    AggregateLength(front + [extra], last);
    if front != [] {
      AggregateLength(front, extra);
      AggregateLength(front, last);
    } else {
      assert front + [last] == [last] && front + [extra] == [extra];
    }
  }

  /** Two overloads of one method, the second without the first's next-to-last parameter, have
      different signature texts. */
  lemma OverloadSignaturesDiffer(declaringType: string, name: string, front: seq<ParameterInfo>,
                                 extra: ParameterInfo, last: ParameterInfo)
    ensures SignatureText(MethodBase(declaringType, name, front + [extra, last]))
         != SignatureText(MethodBase(declaringType, name, front + [last]))
  {
    ExtraParameterLengthens(front, extra, last);
  }

  /** A repository's private overload (parameters `front + [last]`) and its public overload
      (parameters `front + [extra, last]`) never share a cache key, whatever their arguments. */
  lemma OverloadKeysDiffer(declaringType: string, name: string, front: seq<ParameterInfo>,
                           extra: ParameterInfo, last: ParameterInfo,
                           shorterArgs: Option<seq<Arg>>, longerArgs: Option<seq<Arg>>, encode: seq<Arg> -> string)
    requires NoColon(declaringType) && NoColon(name) && ParametersNoColon(front + [extra, last])
    requires CacheKey(MethodBase(declaringType, name, front + [last]), shorterArgs, encode).Success?
    ensures CacheKey(MethodBase(declaringType, name, front + [last]), shorterArgs, encode)
         != CacheKey(MethodBase(declaringType, name, front + [extra, last]), longerArgs, encode)
  {
    var shorter := MethodBase(declaringType, name, front + [last]);
    var longer := MethodBase(declaringType, name, front + [extra, last]);
    assert ParametersNoColon(front + [last]) by {
      forall i | 0 <= i < |front| + 1
        ensures NoColon((front + [last])[i].parameterType) && NoColon((front + [last])[i].name)
      {
        if i == |front| {
          assert (front + [last])[i] == (front + [extra, last])[i + 1];
        } else {
          assert (front + [last])[i] == (front + [extra, last])[i];
        }
      }
    }
    SignatureTextNoColon(shorter);
    SignatureTextNoColon(longer);
    OverloadSignaturesDiffer(declaringType, name, front, extra, last);
    DistinctSignaturesDistinctKeys(shorter, shorterArgs, longer, longerArgs, encode);
  }

  /** The message of the exception thrown for an include path a repository does not support. */
  function UnsupportedPathMessage(pathString: Option<string>): string {
    "The include path " + NullToEmpty(pathString) + " is not supported"
  }

  /** `throw new NotSupportedException(string.Format(..., includePath.ToPathString()))`: the
      message names the path; reading the path may itself throw first. */
  function UnsupportedIncludePath<T>(includePath: Expr): (r: Result<T>)
    ensures r.Failure?
    ensures GetPathString(includePath).Success? ==>
              r == Failure(NotSupportedException(Some(UnsupportedPathMessage(GetPathString(includePath).value))))
  {
    var pathString :- GetPathString(includePath);
    Failure(NotSupportedException(Some(UnsupportedPathMessage(pathString))))
  }

  // ---------------------------------------------------------------------------------------
  // Cache entries.

  /** A cached object: one entity (TEntity) or a sequence of them (IEnumerable<TEntity>). */
  datatype Stored<E> = Single(entity: E) | Sequence(entities: seq<E>)

  /** What the store holds under a key: the DBNull.Value sentinel standing for null, or an object. */
  datatype Entry<E> = NullSentinel | Object(stored: Stored<E>)

  /** The expiration policy an entry is written with. */
  datatype CachePolicy = CachePolicy(absoluteExpiration: int)

  datatype Slot<E> = Slot(entry: Entry<E>, policy: CachePolicy)

  /** The outcome of a lookup: Miss is (false, null); Hit(v) is (true, v). */
  datatype CacheRead<T> = Miss | Hit(value: Option<T>)

  /** The object to store for a value: null becomes the sentinel. */
  function EntryFor<E>(value: Option<Stored<E>>): Entry<E> {
    if value.None? then NullSentinel else Object(value.value)
  }

  /** The value read back from an entry: the sentinel becomes null. */
  function ValueOf<E>(entry: Entry<E>): Option<Stored<E>> {
    if entry.NullSentinel? then None else Some(entry.stored)
  }

  lemma EntryRoundTrip<E>(value: Option<Stored<E>>)
    ensures ValueOf(EntryFor(value)) == value
  {
  }

  /** `c as TEntity`: an object of the other shape reads as null, and the lookup still reports
      success. */
  function AsEntity<E>(r: CacheRead<Stored<E>>): CacheRead<E> {
    match r
    case Miss => Miss
    case Hit(None) => Hit(None)
    case Hit(Some(Single(e))) => Hit(Some(e))
    case Hit(Some(Sequence(_))) => Hit(None)
  }

  /** `c as IEnumerable<TEntity>` */
  function AsEntities<E>(r: CacheRead<Stored<E>>): CacheRead<seq<E>> {
    match r
    case Miss => Miss
    case Hit(None) => Hit(None)
    case Hit(Some(Single(_))) => Hit(None)
    case Hit(Some(Sequence(es))) => Hit(Some(es))
  }

  function EntityValue<E>(value: Option<E>): Option<Stored<E>> {
    if value.None? then None else Some(Single(value.value))
  }

  function EntitiesValue<E>(value: Option<seq<E>>): Option<Stored<E>> {
    if value.None? then None else Some(Sequence(value.value))
  }

  lemma CastRoundTrip<E>(single: Option<E>, many: Option<seq<E>>)
    ensures AsEntity(Hit(EntityValue(single))) == Hit(single)
    ensures AsEntities(Hit(EntitiesValue(many))) == Hit(many)
  {
  }

  /** A value and the store it leaves behind. */
  datatype After<T, E> = After(value: T, store: map<string, Slot<E>>)

  /** The array a method's `params object[] parameters` receives, read as a value. */
  function ArgsOf(parameters: array?<Arg>): Option<seq<Arg>>
    reads parameters
  {
    if parameters == null then None else Some(parameters[..])
  }

  // ---------------------------------------------------------------------------------------
  // The repository base class.

  class BaseRepository<E> {
    /** The contents of the injected ObjectCache. */
    var store: map<string, Slot<E>>
    /** Whether an ObjectCache was injected at all (`_cache != null`). */
    const present: bool
    const cacheEnabled: bool
    /** The configured absolute expiration duration, in ticks. */
    const cacheAbsoluteExpiration: int
    /** The serializer that turns normalised arguments into printable text. */
    const encode: seq<Arg> -> string

    constructor (cache: Option<map<string, Slot<E>>>, cacheEnabled: bool, cacheAbsoluteExpiration: int,
                 encode: seq<Arg> -> string)
      ensures present == cache.Some? && this.cacheEnabled == cacheEnabled
      ensures this.cacheAbsoluteExpiration == cacheAbsoluteExpiration && this.encode == encode
      ensures store == if cache.Some? then cache.value else map[]
    {
      present := cache.Some?;
      this.cacheEnabled := cacheEnabled;
      this.cacheAbsoluteExpiration := cacheAbsoluteExpiration;
      this.encode := encode;
      store := if cache.Some? then cache.value else map[];
    }

    /** Caching takes effect only with a store and with caching enabled. */
    predicate Available() {
      present && cacheEnabled
    }

    /** The default policy: expire at the write time plus the configured duration. */
    function CreateCachePolicy(now: int): CachePolicy {
      CachePolicy(now + cacheAbsoluteExpiration)
    }

    /** What a lookup of `key` in store `s` finds. */
    function Lookup(s: map<string, Slot<E>>, key: string): CacheRead<Stored<E>> {
      if Available() && key in s then Hit(ValueOf(s[key].entry)) else Miss
    }

    /** The store after writing `value` under `key`. */
    function Put(s: map<string, Slot<E>>, key: string, value: Option<Stored<E>>, now: int): map<string, Slot<E>> {
      if Available() then s[key := Slot(EntryFor(value), CreateCachePolicy(now))] else s
    }

    function Key(m: MethodBase, parameters: Option<seq<Arg>>): Result<string> {
      CacheKey(m, parameters, encode)
    }

    /** Reading a key just written returns the value written, a null included; without a store
        or with caching disabled nothing is found. */
    lemma ReadYourWrite(s: map<string, Slot<E>>, key: string, value: Option<Stored<E>>, now: int)
      ensures Lookup(Put(s, key, value, now), key) == if Available() then Hit(value) else Miss
      ensures Available() ==> Put(s, key, value, now)[key].policy.absoluteExpiration == now + cacheAbsoluteExpiration
    {
    }

    /** A write leaves every other key as it was. */
    lemma PutIsolated(s: map<string, Slot<E>>, key: string, other: string, value: Option<Stored<E>>, now: int)
      requires other != key
      ensures Lookup(Put(s, key, value, now), other) == Lookup(s, other)
    {
    }

    /** Without a store or with caching disabled, every lookup misses and every write is a no-op. */
    lemma UnavailableIsInert(s: map<string, Slot<E>>, key: string, value: Option<Stored<E>>, now: int)
      requires !Available()
      ensures Lookup(s, key) == Miss && Put(s, key, value, now) == s
    {
    }

    /** The private cache-aside read of one entity: unless refreshing, a hit is returned as it
        is; otherwise `fetched` is returned and written under `key`. */
    function ReadThroughEntity(s: map<string, Slot<E>>, key: string, refreshCache: bool, fetched: E, now: int)
      : After<Option<E>, E>
    {
      var cached := AsEntity(Lookup(s, key));
      if !refreshCache && cached.Hit? then After(cached.value, s)
      else After(Some(fetched), Put(s, key, EntityValue(Some(fetched)), now))
    }

    /** The private cache-aside read of a sequence of entities. */
    function ReadThroughEntities(s: map<string, Slot<E>>, key: string, refreshCache: bool, fetched: seq<E>, now: int)
      : After<Option<seq<E>>, E>
    {
      var cached := AsEntities(Lookup(s, key));
      if !refreshCache && cached.Hit? then After(cached.value, s)
      else After(Some(fetched), Put(s, key, EntitiesValue(Some(fetched)), now))
    }

    /** After a read-through that missed, the key holds what was returned. */
    lemma ReadThroughCaches(s: map<string, Slot<E>>, key: string, refreshCache: bool, fetched: E, now: int)
      requires Available()
      ensures var r := ReadThroughEntity(s, key, refreshCache, fetched, now);
              AsEntity(Lookup(r.store, key)) == Hit(r.value)
    {
    }

    /** Reading an entity: the key's lookup, cast to TEntity. */
    function CachedEntity(s: map<string, Slot<E>>, m: MethodBase, parameters: Option<seq<Arg>>): Result<CacheRead<E>> {
      var key :- Key(m, parameters);
      Success(AsEntity(Lookup(s, key)))
    }

    function CachedEntities(s: map<string, Slot<E>>, m: MethodBase, parameters: Option<seq<Arg>>): Result<CacheRead<seq<E>>> {
      var key :- Key(m, parameters);
      Success(AsEntities(Lookup(s, key)))
    }

    /** Writing under the key of a call: the store afterwards, or the failure to build the key. */
    function Stored(s: map<string, Slot<E>>, m: MethodBase, parameters: Option<seq<Arg>>, value: Option<Stored<E>>, now: int)
      : Result<map<string, Slot<E>>>
    {
      var key :- Key(m, parameters);
      Success(Put(s, key, value, now))
    }

    /** The lookup at the top of a public read of one entity; skipped when refreshing. */
    function FirstLookup(s: map<string, Slot<E>>, m: MethodBase, parameters: Option<seq<Arg>>, refreshCache: bool)
      : Result<CacheRead<E>>
    {
      if refreshCache then Success(Miss) else CachedEntity(s, m, parameters)
    }

    /** The lookup at the top of a public read of a sequence of entities. */
    function FirstLookupAll(s: map<string, Slot<E>>, m: MethodBase, parameters: Option<seq<Arg>>, refreshCache: bool)
      : Result<CacheRead<seq<E>>>
    {
      if refreshCache then Success(Miss) else CachedEntities(s, m, parameters)
    }

    /** The write at the end of a public read: `value` goes under the call's key and `result`
        is returned, unless building the key throws. */
    function Finish<T>(s: map<string, Slot<E>>, m: MethodBase, parameters: Option<seq<Arg>>,
                       value: Option<Stored<E>>, result: T, now: int): After<Result<T>, E>
    {
      var written := Stored(s, m, parameters, value, now);
      if written.Failure? then After(Failure(written.error), s) else After(Success(result), written.value)
    }

    /** A completed write makes the same lookup hit with the value written. */
    lemma FinishThenHit(s: map<string, Slot<E>>, m: MethodBase, parameters: Option<seq<Arg>>, single: Option<E>, now: int)
      requires Available()
      requires Finish(s, m, parameters, EntityValue(single), single, now).value.Success?
      ensures CachedEntity(Finish(s, m, parameters, EntityValue(single), single, now).store, m, parameters) == Success(Hit(single))
    {
    }

    lemma FinishThenHitAll(s: map<string, Slot<E>>, m: MethodBase, parameters: Option<seq<Arg>>, many: Option<seq<E>>, now: int)
      requires Available()
      requires Finish(s, m, parameters, EntitiesValue(many), many, now).value.Success?
      ensures CachedEntities(Finish(s, m, parameters, EntitiesValue(many), many, now).store, m, parameters) == Success(Hit(many))
    {
    }

    // -------------------------------------------------------------------------------------
    // The operations.

    method TryGetCacheCore(cacheKey: string) returns (r: CacheRead<Stored<E>>)
      ensures r == Lookup(store, cacheKey)
      ensures !Available() || cacheKey !in store ==> r == Miss
      ensures r.Hit? && store[cacheKey].entry.NullSentinel? ==> r == Hit(None)
    {
      if !present || !cacheEnabled {
        return Miss;
      }
      if cacheKey !in store {
        return Miss;
      }
      var c := store[cacheKey].entry;
      r := Hit(if c == NullSentinel then None else Some(c.stored));
    }

    method TrySetCacheCore(cacheKey: string, cacheValue: Option<Stored<E>>, now: int) returns (applied: bool)
      modifies this`store
      ensures applied == Available()
      ensures store == Put(old(store), cacheKey, cacheValue, now)
      ensures applied ==> store[cacheKey] == Slot(EntryFor(cacheValue), CachePolicy(now + cacheAbsoluteExpiration))
      ensures forall k :: k != cacheKey ==> Lookup(store, k) == Lookup(old(store), k)
    {
      if !present || !cacheEnabled {
        return false;
      }
      store := store[cacheKey := Slot(if cacheValue.None? then NullSentinel else Object(cacheValue.value),
                                      CreateCachePolicy(now))];
      return true;
    }

    /** Rewrites every selector array among `parameters` in place into the list of its path
        strings, then serialises the arguments. */
    method EncodeParameters(parameters: array?<Arg>) returns (r: Result<string>)
      modifies parameters
      ensures r == EncodedParameters(old(ArgsOf(parameters)), encode)
      ensures parameters != null && Normalized(old(parameters[..])).Success? ==>
                parameters[..] == Normalized(old(parameters[..])).value
      ensures parameters != null && Normalized(old(parameters[..])).Failure? ==>
                exists k :: 0 <= k < parameters.Length && NormalizeArg(old(parameters[k])).Failure? &&
                            Normalized(old(parameters[..])[..k]) == Success(parameters[..k]) &&
                            parameters[k..] == old(parameters[..])[k..]
    {
      if parameters == null {
        return Success("null");
      }
      ghost var original := parameters[..];
      var i := 0;
      while i < parameters.Length
        invariant 0 <= i <= parameters.Length
        invariant Normalized(original[..i]) == Success(parameters[..i])
        invariant parameters[i..] == original[i..]
      {
        ghost var done, rest := parameters[..i], parameters[i + 1..];
        assert parameters[i..][0] == original[i] && rest == parameters[i..][1..] == original[i + 1..];
        if parameters[i].SelectorsArg? {
          var paths := PathStrings(parameters[i].selectors);
          if paths.Failure? {
            NormalizedFailsAt(original, i);
            return Failure(paths.error);
          }
          parameters[i] := PathsArg(paths.value);
        }
        assert parameters[..i] == done && parameters[i + 1..] == rest;
        NormalizedExtends(original, i, done, parameters[i]);
        assert parameters[..i + 1] == done + [parameters[i]];
        i := i + 1;
      }
      assert original[..i] == original && parameters[..i] == parameters[..];
      if !AllSerializable(parameters[..]) {
        return Failure(SerializationException);
      }
      return Success(encode(parameters[..]));
    }

    /** The key that identifies "method `m` called with `parameters`". */
    method CreateCacheKey(m: MethodBase, parameters: array?<Arg>) returns (r: Result<string>)
      modifies parameters
      ensures r == CacheKey(m, old(ArgsOf(parameters)), encode)
    {
      var encoded :- EncodeParameters(parameters);
      return Success(SignatureText(m) + ":" + encoded);
    }

    /** TryGetCache(out TEntity, params object[]) for the caller `m`. */
    method TryGetCacheEntity(m: MethodBase, parameters: array?<Arg>) returns (r: Result<CacheRead<E>>)
      modifies parameters
      ensures r == CachedEntity(store, m, old(ArgsOf(parameters)))
    {
      var cacheKey :- CreateCacheKey(m, parameters);
      var c := TryGetCacheCore(cacheKey);
      return Success(AsEntity(c));
    }

    /** TryGetCache(out IEnumerable<TEntity>, params object[]) for the caller `m`. */
    method TryGetCacheEntities(m: MethodBase, parameters: array?<Arg>) returns (r: Result<CacheRead<seq<E>>>)
      modifies parameters
      ensures r == CachedEntities(store, m, old(ArgsOf(parameters)))
    {
      var cacheKey :- CreateCacheKey(m, parameters);
      var c := TryGetCacheCore(cacheKey);
      return Success(AsEntities(c));
    }

    /** TrySetCache(TEntity, params object[]) for the caller `m`. */
    method TrySetCacheEntity(cacheValue: Option<E>, m: MethodBase, parameters: array?<Arg>, now: int)
      returns (r: Result<bool>)
      requires parameters == null || parameters as object != this
      modifies this`store, parameters
      ensures var after := Stored(old(store), m, old(ArgsOf(parameters)), EntityValue(cacheValue), now);
              if after.Failure? then r == Failure(after.error) && store == old(store)
              else r == Success(Available()) && store == after.value
    {
      var cacheKey :- CreateCacheKey(m, parameters);
      var applied := TrySetCacheCore(cacheKey, EntityValue(cacheValue), now);
      return Success(applied);
    }

    /** TrySetCache(IEnumerable<TEntity>, params object[]) for the caller `m`. */
    method TrySetCacheEntities(cacheValue: Option<seq<E>>, m: MethodBase, parameters: array?<Arg>, now: int)
      returns (r: Result<bool>)
      requires parameters == null || parameters as object != this
      modifies this`store, parameters
      ensures var after := Stored(old(store), m, old(ArgsOf(parameters)), EntitiesValue(cacheValue), now);
              if after.Failure? then r == Failure(after.error) && store == old(store)
              else r == Success(Available()) && store == after.value
    {
      var cacheKey :- CreateCacheKey(m, parameters);
      var applied := TrySetCacheCore(cacheKey, EntitiesValue(cacheValue), now);
      return Success(applied);
    }
  }

  /** Normalising one more argument appends its normal form. */
  lemma NormalizedExtends(args: seq<Arg>, i: nat, done: seq<Arg>, next: Arg)
    requires i < |args|
    requires Normalized(args[..i]) == Success(done) && NormalizeArg(args[i]) == Success(next)
    ensures Normalized(args[..i + 1]) == Success(done + [next])
  {
    assert args[..i + 1][..i] == args[..i] && args[..i + 1][i] == args[i];
  }

  /** When the argument at `i` fails to normalise and those before it do not, the whole
      normalisation fails with that argument's error. */
  lemma {:induction false} NormalizedFailsAt(args: seq<Arg>, i: nat)
    requires i < |args|
    requires Normalized(args[..i]).Success? && NormalizeArg(args[i]).Failure?
    ensures Normalized(args) == Failure(NormalizeArg(args[i]).error)
  {
    if i < |args| - 1 {
      assert args[..|args| - 1][..i] == args[..i];
      assert args[..|args| - 1][i] == args[i];
      NormalizedFailsAt(args[..|args| - 1], i);
    } else {
      assert args[..|args| - 1] == args[..i];
    }
  }
}
