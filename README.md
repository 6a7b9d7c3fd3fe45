# tRPC client proxy: call resolution

This project models the call-resolution step of the tRPC proxy client that the
repository vendors (`createTRPCClientProxy` and its helpers). A caller writes a
property chain on the typed proxy, such as `trpc.createTodo.mutate(input)`. The
proxy turns it into one call on the untyped client, here
`client.mutation("createTodo", input)`. The model has three parts:

- the call-kind table: `query`, `mutate` and `subscribe` map to the procedure
  types `query`, `mutation` and `subscription`;
- path resolution: the last segment of `[key, ...path]` picks the procedure
  type, and the other segments, joined with `'.'`, form the procedure path;
- top-level key dispatch: an own property of the untyped client wins, then
  the reserved key `__untypedClient` gives the client itself, and any other
  key gives a procedure caller. `getUntypedClient` reads that reserved key.

Files:

- `wrappers.dfy`: `Option` (JavaScript `undefined`) and `Result` (a thrown error).
- `segments.dfy`: `JoinDots`, which models `Array.prototype.join('.')`, and
  `SplitDots`, which models `String.prototype.split('.')`. `SplitDots` is not
  called by the source. It serves as the inverse of `JoinDots`, so that "the
  remaining segments, in order" can be stated as exact recovery.
- `trpc_client.dfy`: the table, `Pop`, `Resolve`, `ProcedureCall`, `Get`,
  `Invoke`, `GetUntypedClient` and the lemmas about them.

The untyped client appears only through the map of its own properties. Property
values are a type parameter. Arguments of a call are a sequence over another
type parameter.

## Model

| member | source | states |
|---|---|---|
| `TRPCClient.ClientCallTypeToProcedureType` | node_modules/@trpc/client/src/createTRPCClient.ts:90-104 | `query`, `mutate` and `subscribe` give `query`, `mutation` and `subscription`, each if and only if the name is that key; every other name gives no procedure type |
| `TRPCClient.CallTypeRoundTrip` | node_modules/@trpc/client/src/createTRPCClient.ts:90-104 | looking up a procedure type's client method name gives that type back, and only that name gives that type |
| `TRPCClient.CallTypeMapInjective` | node_modules/@trpc/client/src/createTRPCClient.ts:93-97 | distinct keys of the table map to distinct procedure types |
| `TRPCClient.Pop` | node_modules/@trpc/client/src/createTRPCClient.ts:131 | `pop()` yields an element if and only if the array is non-empty; the remainder followed by that element is the original array, and an empty array is left unchanged |
| `TRPCClient.Resolve` | node_modules/@trpc/client/src/createTRPCClient.ts:129-133 | popping `[key, ...path]` always yields an element, so the non-null assertion holds. With empty `path`, the procedure path is `""` and the call kind is `key`. Otherwise the call kind is the last segment, the path is the join of `key` and the other segments, and it starts with `key`, followed by `'.'` when more than one segment remains |
| `TRPCClient.ResolveRecoversPrefix` | node_modules/@trpc/client/src/createTRPCClient.ts:130-133 | when none of `key` and the segments before the last holds a `'.'`, splitting the procedure path gives back `[key]` plus every segment of `path` except the last, in order |
| `TRPCClient.ProcedureCall` | node_modules/@trpc/client/src/createTRPCClient.ts:129-135 | the call succeeds if and only if the last segment is a key of the table; the untyped method's call kind is that segment, the path is the resolved path, and `args` are forwarded unchanged; otherwise the callee `client[undefined]` is not a function |
| `TRPCClient.Get` | node_modules/@trpc/client/src/createTRPCClient.ts:122-129 | dispatch precedence: an own property gives its value; otherwise `__untypedClient` gives the client; any other key gives a procedure caller for that key; each case holds if and only if its condition does |
| `TRPCClient.Invoke` | node_modules/@trpc/client/src/createTRPCClient.ts:122-136 | a property chain reaches the untyped client if and only if its top-level key is neither an own property of the client nor `__untypedClient`; the call succeeds if and only if, in addition, its last segment is a table key, and then the call kind is that segment, the path is the resolved path and `args` are forwarded unchanged; otherwise the callee `client[undefined]` is not a function |
| `TRPCClient.GetUntypedClient` | node_modules/@trpc/client/src/createTRPCClient.ts:152-156 | gives back the proxy's client if and only if the client has no own property `__untypedClient`; if it has one, gives that property's value |
| `TRPCClient.UntypedClientRoundTrip` | node_modules/@trpc/client/src/createTRPCClient.ts:122-127 | `getUntypedClient` of the proxy built over a client gives a client if and only if the client has no own `__untypedClient` property, and that client is the one the proxy was built over; no top-level key other than `__untypedClient` hands out the client |
| `TRPCClient.InvokeReachesOnlyUnshadowedProcedures` | node_modules/@trpc/client/src/createTRPCClient.ts:119-136 | with non-empty `path` whose segments before the last are dot-free, as is `key`, the first segment of a successful call's procedure path is the top-level key, and it is neither an own property of the client nor `__untypedClient` |
| `TRPCClient.InvokeForwardsArgs` | node_modules/@trpc/client/src/createTRPCClient.ts:122-135 | for every path, a successful call through the proxy forwards `args` unchanged, and its top-level key is neither an own property of the client nor `__untypedClient` |
| `TRPCClient.CreateTodoMutation` | client/index.ts:13-16 | `trpc.createTodo.mutate(input)` becomes the untyped call `mutation("createTodo", input)` on any client without an own `createTodo` property |
| `Segments.JoinDots` | node_modules/@trpc/client/src/createTRPCClient.ts:133 | `join('.')` of no segments is `""`, of one segment is that segment; the result starts with the first segment, followed by `'.'` when there are more |
| `Segments.SplitJoin` | node_modules/@trpc/client/src/createTRPCClient.ts:133 | for a non-empty sequence of dot-free segments, splitting the join on `'.'` gives the segments back |
| `Segments.JoinSplit` | node_modules/@trpc/client/src/createTRPCClient.ts:133 | every string is the `'.'`-join of its split, so the split used as the inverse of the join loses nothing |

## Left out

- The type-level machinery (`inferRouterClient`, `Resolver`, `DecorateProcedure`, `DecoratedProcedureRecord`, `CreateTRPCClient`, lines 33-88 and 109-114). These are compile-time TypeScript types with no runtime behaviour.
- The JavaScript `Proxy` mechanics of `createFlatProxy` and `createRecursiveProxy`. They are imported but not part of this model. The proxy is modelled as "given `key`, `path` and `args`".
- Symbol-valued property keys, and what happens when an own property or the client returned by `Get` is used further. Those objects belong to the untyped client, not to the proxy.
- Prototype-inherited keys such as `toString` or `constructor`. A plain object lookup on line 103 would also find them. The table is modelled with its three own entries only.
- `TRPCClient.ProcedureCall`: an unknown call kind is modelled as the error "`client[undefined]` is not a function". If the untyped client happened to have a property named `undefined`, the source would call it instead. `TRPCUntypedClient` is not part of this model, so that case is not represented.
- The results of the untyped client's `query`, `mutation` and `subscription` methods. The model stops at which method is called, with which path and arguments. `TRPCUntypedClient` is not part of this model.
- `createTRPCClient` (lines 140-146) only combines the `TRPCUntypedClient` constructor, which is not part of this model, with `createTRPCClientProxy`.
- All of `server/index.ts`: the zod schema, the handler that logs and returns the constant `{id: "1"}`, and the HTTP adapter on port 3000. Validation lives in zod, and the rest is I/O.
- All of `client/index.ts` apart from the shape of its one call: the `httpBatchLink` transport, the awaited network call and console output are I/O.
- HTTP batching, serialization, error envelopes and transport failures. These are library internals or network I/O.
