/**
 * The call-resolution step of the tRPC proxy client: the property chain a
 * caller writes (`trpc.createTodo.mutate(input)`) is turned into one call on
 * the untyped client (`client.mutation("createTodo", input)`).
 */
module TRPCClient {
  import opened Wrappers
  import opened Segments

  /** The three kinds of procedure a tRPC router can hold. */
  datatype ProcedureType = Query | Mutation | Subscription

  /** The untyped-client method a procedure type selects: its string value. */
  function ProcedureTypeName(t: ProcedureType): string {
    match t
    case Query => "query"
    case Mutation => "mutation"
    case Subscription => "subscription"
  }

  /** The typed-proxy method that calls a procedure of type `t`. */
  function ClientCallType(t: ProcedureType): string {
    match t
    case Query => "query"
    case Mutation => "mutate"
    case Subscription => "subscribe"
  }

  /** `clientCallTypeMap`, with only its three own entries. */
  const ClientCallTypeMap: map<string, ProcedureType> :=
    map["query" := Query, "mutate" := Mutation, "subscribe" := Subscription]

  /**
   * `clientCallTypeToProcedureType`: the table lookup; a name that is not one
   * of the three keys yields no procedure type (`undefined`).
   */
  function ClientCallTypeToProcedureType(clientCallType: string): (r: Option<ProcedureType>)
    ensures r == Some(Query) <==> clientCallType == "query"
    ensures r == Some(Mutation) <==> clientCallType == "mutate"
    ensures r == Some(Subscription) <==> clientCallType == "subscribe"
    ensures r.None? <==> clientCallType !in {"query", "mutate", "subscribe"}
  {
    if clientCallType in ClientCallTypeMap then Some(ClientCallTypeMap[clientCallType]) else None
  }

  /** Each procedure type is reached from exactly one client method name. */
  lemma CallTypeRoundTrip(t: ProcedureType, name: string)
    ensures ClientCallTypeToProcedureType(ClientCallType(t)) == Some(t)
    ensures ClientCallTypeToProcedureType(name) == Some(t) ==> name == ClientCallType(t)
  {
  }

  /** The table is injective: distinct call kinds give distinct procedure types. */
  lemma CallTypeMapInjective(a: string, b: string)
    requires a in ClientCallTypeMap && b in ClientCallTypeMap && a != b
    ensures ClientCallTypeMap[a] != ClientCallTypeMap[b]
  {
  }

  /**
   * `Array.prototype.pop` on a copy: the last element (`undefined` for an
   * empty array) and what remains before it.
   */
  function Pop<T>(s: seq<T>): (r: (Option<T>, seq<T>))
    ensures r.0.Some? <==> |s| > 0
    ensures r.0.Some? ==> r.1 + [r.0.value] == s
    ensures r.0.None? ==> r.1 == s
  {
    if |s| == 0 then (None, s) else (Some(s[|s| - 1]), s[..|s| - 1])
  }

  /** What the recursive proxy's callback computes before calling the client. */
  datatype Resolution = Resolution(procedureType: Option<ProcedureType>, fullPath: string)

  /**
   * Lines 130-133: `pathCopy = [key, ...path]`, its popped last segment picks
   * the procedure type, the rest joined by '.' is the procedure path. The
   * `value` of the popped element is only taken because `pathCopy` is
   * provably non-empty, which is what the source's non-null assertion claims.
   */
  function Resolve(key: string, path: seq<string>): (r: Resolution)
    ensures Pop([key] + path).0.Some?
    ensures path == [] ==> r.fullPath == "" && r.procedureType == ClientCallTypeToProcedureType(key)
    ensures path != [] ==>
      && r.procedureType == ClientCallTypeToProcedureType(path[|path| - 1])
      && r.fullPath == JoinDots([key] + path[..|path| - 1])
    ensures path != [] ==> key <= r.fullPath
    ensures |path| > 1 ==> |key| < |r.fullPath| && r.fullPath[|key|] == '.'
  {
    var pathCopy := [key] + path;
    var popped := Pop(pathCopy);
    assert popped.1 + [popped.0.value] == [key] + path;
    assert path != [] ==> popped.1 == [key] + path[..|path| - 1] by {
      if path != [] {
        assert ([key] + path[..|path| - 1]) + [path[|path| - 1]] == [key] + path;
      }
    }
    Resolution(ClientCallTypeToProcedureType(popped.0.value), JoinDots(popped.1))
  }

  /**
   * The procedure path names the accessed segments except the last, in order:
   * splitting it on '.' recovers them exactly when none of those segments
   * holds a '.' (the popped last segment may hold anything).
   */
  lemma ResolveRecoversPrefix(key: string, path: seq<string>)
    requires path != [] && AllDotFree([key] + path[..|path| - 1])
    ensures SplitDots(Resolve(key, path).fullPath) == [key] + path[..|path| - 1]
  {
    SplitJoin([key] + path[..|path| - 1]);
  }

  /** A call on the untyped client: `client[method](path, ...args)`. */
  datatype UntypedCall<A> = UntypedCall(procedureType: ProcedureType, path: string, args: seq<A>) {
    /** The name of the untyped-client method that is called. */
    function Method(): string {
      ProcedureTypeName(procedureType)
    }
  }

  /**
   * How an untyped call fails before reaching the client: an unknown call kind
   * makes `client[undefined]` the callee, which is not a function.
   */
  datatype CallError = NotAFunction(property: string)

  /** Line 135: the call the recursive proxy makes for `key`, `path` and `args`. */
  function ProcedureCall<A>(key: string, path: seq<string>, args: seq<A>): (r: Result<UntypedCall<A>, CallError>)
    ensures var last := ([key] + path)[|path|];
      && (r.Success? <==> last in ClientCallTypeMap)
      && (r.Success? ==>
            && ClientCallType(r.value.procedureType) == last
            && r.value.path == Resolve(key, path).fullPath
            && r.value.args == args)
      && (r.Failure? ==> r.error == NotAFunction("undefined"))
  {
    var resolution := Resolve(key, path);
    match resolution.procedureType
    case Some(t) => Success(UntypedCall(t, resolution.fullPath, args))
    case None => Failure(NotAFunction("undefined"))
  }

  /** The untyped client, seen through the names of its own properties. */
  datatype UntypedClient<V> = UntypedClient(ownProperties: map<string, V>)

  /** What `createTRPCClientProxy(client)` returns: a proxy over `client`. */
  datatype ClientProxy<V> = ClientProxy(client: UntypedClient<V>)

  /** The reserved top-level key through which the proxy yields its client. */
  const UntypedClientKey: string := "__untypedClient"

  /** What reading a top-level key of the proxy gives back. */
  datatype PropertyValue<V> =
    | OwnProperty(value: V)
    | Client(client: UntypedClient<V>)
    | ProcedureCaller(key: string)

  /**
   * Lines 122-129: an own property of the client wins, then the reserved key
   * yields the client itself, and every other key yields a procedure caller.
   */
  function Get<V>(proxy: ClientProxy<V>, key: string): (r: PropertyValue<V>)
    ensures r.OwnProperty? <==> key in proxy.client.ownProperties
    ensures r.OwnProperty? ==> r.value == proxy.client.ownProperties[key]
    ensures r.Client? <==> key !in proxy.client.ownProperties && key == UntypedClientKey
    ensures r.Client? ==> r.client == proxy.client
    ensures r.ProcedureCaller? <==> key !in proxy.client.ownProperties && key != UntypedClientKey
    ensures r.ProcedureCaller? ==> r.key == key
  {
    if key in proxy.client.ownProperties then OwnProperty(proxy.client.ownProperties[key])
    else if key == UntypedClientKey then Client(proxy.client)
    else ProcedureCaller(key)
  }

  /**
   * `proxy[key][path[0]]...[path[n-1]](...args)` when `proxy[key]` is a
   * procedure caller; `None` when it is an own property or the client, whose
   * further use is not the proxy's.
   */
  function Invoke<V, A>(proxy: ClientProxy<V>, key: string, path: seq<string>, args: seq<A>)
    : (r: Option<Result<UntypedCall<A>, CallError>>)
    ensures r.Some? <==> key !in proxy.client.ownProperties && key != UntypedClientKey
    ensures var last := ([key] + path)[|path|];
      && ((r.Some? && r.value.Success?) <==>
            key !in proxy.client.ownProperties && key != UntypedClientKey && last in ClientCallTypeMap)
      && (r.Some? && r.value.Success? ==>
            && ClientCallType(r.value.value.procedureType) == last
            && r.value.value.path == Resolve(key, path).fullPath
            && r.value.value.args == args)
      && (r.Some? && r.value.Failure? ==> r.value.error == NotAFunction("undefined"))
  {
    match Get(proxy, key)
    case ProcedureCaller(k) => Some(ProcedureCall(k, path, args))
    case _ => None
  }

  /** `getUntypedClient`: read the reserved key through the proxy. */
  function GetUntypedClient<V>(proxy: ClientProxy<V>): (r: PropertyValue<V>)
    ensures r == Client(proxy.client) <==> UntypedClientKey !in proxy.client.ownProperties
    ensures UntypedClientKey in proxy.client.ownProperties ==>
      r == OwnProperty(proxy.client.ownProperties[UntypedClientKey])
  {
    Get(proxy, UntypedClientKey)
  }

  /**
   * Round trip: `getUntypedClient` of the proxy built over a client gives a
   * client only when the client has no own property under the reserved key,
   * and then it is that very client. The reserved key is the only top-level
   * key through which the proxy hands out its client.
   */
  lemma UntypedClientRoundTrip<V>(client: UntypedClient<V>, other: UntypedClient<V>, key: string)
    ensures GetUntypedClient(ClientProxy(client)) == Client(other)
        <==> UntypedClientKey !in client.ownProperties && other == client
    ensures Get(ClientProxy(client), key).Client? ==> key == UntypedClientKey
  {
  }

  /**
   * A successful call made through the proxy forwards `args` unchanged, and
   * its top-level key is neither an own property of the client nor the
   * reserved key.
   */
  lemma InvokeForwardsArgs<V, A>(
    proxy: ClientProxy<V>, key: string, path: seq<string>, args: seq<A>, call: UntypedCall<A>)
    requires Invoke(proxy, key, path, args) == Some(Success(call))
    ensures call.args == args
    ensures key !in proxy.client.ownProperties && key != UntypedClientKey
  {
  }

  /**
   * When `path` is non-empty, the first segment of a successful call's
   * procedure path is the top-level key, which the client does not shadow:
   * a procedure whose first segment names an own property of the client, or
   * the reserved key, cannot be reached through the proxy.
   */
  lemma InvokeReachesOnlyUnshadowedProcedures<V, A>(
    proxy: ClientProxy<V>, key: string, path: seq<string>, args: seq<A>, call: UntypedCall<A>)
    requires Invoke(proxy, key, path, args) == Some(Success(call))
    requires path != [] && AllDotFree([key] + path[..|path| - 1])
    ensures SplitDots(call.path)[0] == key
    ensures SplitDots(call.path)[0] !in proxy.client.ownProperties
    ensures SplitDots(call.path)[0] != UntypedClientKey
  {
    ResolveRecoversPrefix(key, path);
  }

  /**
   * The repository's own call, `trpc.createTodo.mutate(input)`, reaches the
   * untyped client as `mutation("createTodo", input)` on any client that has
   * no own property named `createTodo`.
   */
  lemma CreateTodoMutation<V, A>(client: UntypedClient<V>, input: A)
    requires "createTodo" !in client.ownProperties
    ensures Invoke(ClientProxy(client), "createTodo", ["mutate"], [input])
         == Some(Success(UntypedCall(Mutation, "createTodo", [input])))
    ensures Invoke(ClientProxy(client), "createTodo", ["mutate"], [input]).value.value.Method() == "mutation"
  {
  }
}
