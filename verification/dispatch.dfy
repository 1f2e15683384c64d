/**
 * The three entry points of the router: `Init` (deploy), `Invoke` and `Query`.
 *
 * The shim stub becomes an explicit `World`: the ledger handlers read and
 * write, the log of published events, and the log of handler calls made. What a
 * handler does is the parameter `exec`; how its returned bytes decode as JSON is
 * the parameter `decodeEvent` (Invoke) or `decodeResponse` (Query).
 */
module Dispatch {
  import opened Wrappers
  import opened Seqs
  import opened Routes
  import opened Events
  import opened Filter

  type Bytes = seq<bv8>

  /** The key-value world state behind the stub. */
  type Ledger = map<string, Bytes>

  /** What a `ChaincodeFunc` returns: an error, or (possibly empty) bytes. */
  datatype HandlerResult = Failed(cause: string) | Returned(bytes: Bytes)

  /** A handler's result together with the ledger it leaves behind. */
  datatype Reply = Reply(result: HandlerResult, ledger: Ledger)

  /** The behaviour of every registered handler. */
  type Exec = (HandlerId, Ledger, seq<string>) -> Reply

  /** `json.Unmarshal` of returned bytes into a `map[string]interface{}`. */
  datatype EventDecoding = Decoded(m: Payload) | Malformed(reason: string)

  /** One handler call: which handler, with which arguments, the ledger it saw,
      what it returned and the ledger it left. */
  datatype Call = Call(handler: HandlerId, args: seq<string>, before: Ledger, result: HandlerResult, after: Ledger)

  /** `c` records a genuine run of its handler. */
  predicate Recorded(exec: Exec, c: Call) {
    exec(c.handler, c.before, c.args) == Reply(c.result, c.after)
  }

  datatype World = World(ledger: Ledger, events: seq<Event>, calls: seq<Call>)

  /** The errors the router itself returns. */
  datatype DispatchError =
    | MissingArgument
    | NoDeployHandlers(name: string)
    | DeployHandlerFailed(name: string, cause: string)
    | RouteNotFound(name: string)
    | InvokeHandlerFailed(name: string, cause: string)
    | InvokeResultMalformed(name: string, reason: string)
    | QueryRouteNotFound(name: string)
    | QueryHandlerFailed(name: string, cause: string)
    | AssetIndexOutOfRange

  /** A message made of a fixed opening and the value it reports. */
  function Wrapped(head: string, tail: string): (m: string)
    ensures head <= m && EndsWith(m, tail)
  {
    ConcatEnds(head, tail);
    head + tail
  }

  // The fixed wording of the router's error messages.
  const InitPrefix := "Init "
  const NoArgsText := "received no args, expecting a json object in args[0]"
  const NoDeployPrefix := "Init found no registered functions '"
  const InitOpening := "Init ("
  const InvokeOpening := "Invoke ("
  const QueryOpening := "Query ("
  const FailedWith := ") failed with error "
  const MarshalFailed := ") failed to marshal returned event to report with error "
  const MapsHint := ", remember that chaincode events should be maps"
  const InvokeNotFound := "$NIHAL$Invoke did not find registered invoke function "
  const QueryNotFound := "Query did not find registered query function "
  const RuntimePrefix := "runtime error: "
  const IndexText := "index out of range [0] with length 0"

  /** The text of each error, as it appears in an event's `message`. A handler
      failure opens with its entry point and function name and ends with the
      handler's own error; a lookup failure ends with the name not found. */
  function ErrorMessage(e: DispatchError): (m: string)
    ensures e.DeployHandlerFailed? ==> InitOpening + e.name + FailedWith <= m
    ensures e.InvokeHandlerFailed? ==> InvokeOpening + e.name + FailedWith <= m
    ensures e.QueryHandlerFailed? ==> QueryOpening + e.name + FailedWith <= m
    ensures e.DeployHandlerFailed? || e.InvokeHandlerFailed? || e.QueryHandlerFailed? ==> EndsWith(m, e.cause)
    ensures e.RouteNotFound? ==> InvokeNotFound <= m
    ensures e.QueryRouteNotFound? ==> QueryNotFound <= m
    ensures e.RouteNotFound? || e.QueryRouteNotFound? ==> EndsWith(m, e.name)
  {
    match e
    case MissingArgument => Wrapped(InitPrefix, NoArgsText)
    case NoDeployHandlers(name) => Wrapped(NoDeployPrefix + name, "'")
    case DeployHandlerFailed(name, cause) => Wrapped(InitOpening + name + FailedWith, cause)
    case RouteNotFound(name) => Wrapped(InvokeNotFound, name)
    case InvokeHandlerFailed(name, cause) => Wrapped(InvokeOpening + name + FailedWith, cause)
    case InvokeResultMalformed(name, reason) => Wrapped(InvokeOpening + name + MarshalFailed + reason, MapsHint)
    case QueryRouteNotFound(name) => Wrapped(QueryNotFound, name)
    case QueryHandlerFailed(name, cause) => Wrapped(QueryOpening + name + FailedWith, cause)
    case AssetIndexOutOfRange => Wrapped(RuntimePrefix, IndexText)
  }

  /** A handler failure is reported with the handler's error intact: two
      failures of the same function publish the same message exactly when the
      handlers returned the same error. */
  lemma ErrorMessageKeepsCause(e: DispatchError, c: string)
    requires e.DeployHandlerFailed? || e.InvokeHandlerFailed? || e.QueryHandlerFailed?
    ensures ErrorMessage(e) == ErrorMessage(e.(cause := c)) <==> e.cause == c
  {
    var p := match e
             case DeployHandlerFailed(n, _) => InitOpening + n + FailedWith
             case InvokeHandlerFailed(n, _) => InvokeOpening + n + FailedWith
             case QueryHandlerFailed(n, _) => QueryOpening + n + FailedWith;
    assert ErrorMessage(e) == p + e.cause;
    assert ErrorMessage(e.(cause := c)) == p + c;
    assert (p + e.cause)[|p|..] == e.cause;
    assert (p + c)[|p|..] == c;
  }

  /** The outcome of `Init` or `Invoke`. Both always return nil bytes, so only
      the error is kept. */
  datatype Response = Response(world: World, err: Option<DispatchError>)

  /** The outcome of `Query`: the filtered response or an error. */
  datatype QueryResponse = QueryResponse(world: World, result: Result<ResponseStruct, DispatchError>)

  /** `setStubEvent` on the world: reports `err` (or success) with `info`. */
  function Report(w: World, err: Option<DispatchError>, info: Option<Payload>): World {
    var text := if err.None? then None else Some(ErrorMessage(err.value));
    w.(events := SetStubEvent(w.events, text, info))
  }

  /** Runs one handler, recording the call and its effect on the ledger. */
  function RunHandler(exec: Exec, h: HandlerId, w: World, args: seq<string>): (HandlerResult, World) {
    var reply := exec(h, w.ledger, args);
    (reply.result, w.(ledger := reply.ledger, calls := w.calls + [Call(h, args, w.ledger, reply.result, reply.ledger)]))
  }

  /** Exactly one event was appended to the log and nothing earlier changed. */
  predicate OneEventAppended(w: World, w': World) {
    |w'.events| == |w.events| + 1 && w'.events[..|w.events|] == w.events
  }

  /** The payload of the event appended last. */
  function LastPayload(w: World): Payload
    requires |w.events| > 0
  {
    w.events[|w.events| - 1].payload
  }

  // ---------------------------------------------------------------------------
  // Init

  /** `cs` runs handlers of `fs` in order, each with `iargs`, starting on ledger
      `l`: every record is a genuine run, and each handler sees the ledger the
      one before it left. */
  predicate RunsInOrder(exec: Exec, fs: seq<HandlerId>, iargs: seq<string>, l: Ledger, cs: seq<Call>) {
    && |cs| <= |fs|
    && (forall i :: 0 <= i < |cs| ==> cs[i].handler == fs[i] && cs[i].args == iargs && Recorded(exec, cs[i]))
    && (|cs| > 0 ==> cs[0].before == l)
    && (forall i :: 0 < i < |cs| ==> cs[i].before == cs[i - 1].after)
  }

  /** `cs` is what the deploy loop over `fs` records when it ends with `failure`:
      every handler but the last returned; a failure is the last handler's
      error; without one every handler ran and returned. */
  predicate DeployLoop(exec: Exec, fs: seq<HandlerId>, iargs: seq<string>, l: Ledger, cs: seq<Call>,
                       failure: Option<string>) {
    && RunsInOrder(exec, fs, iargs, l, cs)
    && (forall i :: 0 <= i < |cs| - 1 ==> cs[i].result.Returned?)
    && match failure
       case None => |cs| == |fs| && (|cs| > 0 ==> cs[|cs| - 1].result.Returned?)
       case Some(cause) => |cs| > 0 && cs[|cs| - 1].result == Failed(cause)
  }

  /** The ledger left by the run `cs` that started on `l`. */
  function LastLedger(l: Ledger, cs: seq<Call>): Ledger {
    if |cs| == 0 then l else cs[|cs| - 1].after
  }

  /** The handler error a deploy failure carries, if any. */
  function DeployFailure(err: Option<DispatchError>): Option<string> {
    if err.Some? && err.value.DeployHandlerFailed? then Some(err.value.cause) else None
  }

  /** The deploy-handler loop: runs `fs` in order with the same arguments and
      stops at the first failure. */
  datatype DeployRun = DeployRun(world: World, failure: Option<string>)

  function RunDeploy(exec: Exec, fs: seq<HandlerId>, w: World, iargs: seq<string>): (r: DeployRun)
    ensures r.world.events == w.events
    ensures w.calls <= r.world.calls
    ensures DeployLoop(exec, fs, iargs, w.ledger, r.world.calls[|w.calls|..], r.failure)
    ensures r.world.ledger == LastLedger(w.ledger, r.world.calls[|w.calls|..])
    decreases |fs|
  {
    if |fs| == 0 then DeployRun(w, None)
    else
      var (result, w1) := RunHandler(exec, fs[0], w, iargs);
      if result.Failed? then DeployRun(w1, Some(result.cause))
      else
        var rest := RunDeploy(exec, fs[1..], w1, iargs);
        var c := w1.calls[|w.calls|];
        assert w1.calls == w.calls + [c];
        assert rest.world.calls[|w.calls|..] == [c] + rest.world.calls[|w1.calls|..];
        DeployLoopCons(exec, fs, iargs, w.ledger, c, rest.world.calls[|w1.calls|..], rest.failure);
        DeployRun(rest.world, rest.failure)
  }

  /** A returned first handler followed by a loop over the rest is a loop over all. */
  lemma DeployLoopCons(exec: Exec, fs: seq<HandlerId>, iargs: seq<string>, l: Ledger, c: Call, rest: seq<Call>,
                       failure: Option<string>)
    requires |fs| > 0 && c.handler == fs[0] && c.args == iargs && c.before == l && Recorded(exec, c)
    requires c.result.Returned?
    requires DeployLoop(exec, fs[1..], iargs, c.after, rest, failure)
    ensures DeployLoop(exec, fs, iargs, l, [c] + rest, failure)
    ensures LastLedger(l, [c] + rest) == LastLedger(c.after, rest)
  {
    var cs := [c] + rest;
    assert forall i :: 0 < i < |cs| ==> cs[i] == rest[i - 1];
  }

  /** The part of `Init` after the deploy handlers are known: run them all and
      report the first failure, or success. */
  function DeployAndReport(exec: Exec, fs: seq<HandlerId>, w: World, name: string, iargs: seq<string>): (r: Response)
    requires |fs| > 0
    ensures OneEventAppended(w, r.world)
    ensures r.world.events[|w.events|].name == InvokeResultEvent
    ensures r.err.None? <==> IsOk(LastPayload(r.world))
    ensures r.err.None? ==> LastPayload(r.world) == OkPayload()
    ensures r.err.Some? ==> r.err.value.DeployHandlerFailed? && r.err.value.name == name
    ensures r.err.Some? ==> LastPayload(r.world) == ErrorPayload(ErrorMessage(r.err.value))
    ensures w.calls <= r.world.calls
    ensures DeployLoop(exec, fs, iargs, w.ledger, r.world.calls[|w.calls|..], DeployFailure(r.err))
    ensures r.world.ledger == LastLedger(w.ledger, r.world.calls[|w.calls|..])
  {
    var run := RunDeploy(exec, fs, w, iargs);
    if run.failure.Some? then
      var err := DeployHandlerFailed(name, run.failure.value);
      Response(Report(run.world, Some(err), None), Some(err))
    else
      Response(Report(run.world, None, None), None)
  }

  /** `Init`: runs every deploy handler with `[args[0], version]` and reports
      the outcome as one result event. */
  function Init(reg: Registry, order: seq<string>, exec: Exec, w: World,
                name: string, args: seq<string>, version: string): (r: Response)
    requires IsIterationOrder(reg, order)
    ensures OneEventAppended(w, r.world)
    ensures r.world.events[|w.events|].name == InvokeResultEvent
    ensures r.err.None? <==> IsOk(LastPayload(r.world))
    ensures r.err.None? ==> LastPayload(r.world) == OkPayload()
    ensures r.err.Some? ==> LastPayload(r.world) == ErrorPayload(ErrorMessage(r.err.value))
    ensures |args| == 0 ==> r.err == Some(MissingArgument) && r.world.ledger == w.ledger && r.world.calls == w.calls
    ensures |args| > 0 && DeploySet(reg) == {} ==>
              r.err == Some(NoDeployHandlers(name)) && r.world.ledger == w.ledger && r.world.calls == w.calls
    ensures |args| > 0 && DeploySet(reg) != {} ==>
              && (r.err.Some? ==> r.err.value.DeployHandlerFailed? && r.err.value.name == name)
              && w.calls <= r.world.calls
              && DeployLoop(exec, DeployFunctions(reg, order), [args[0], version], w.ledger,
                            r.world.calls[|w.calls|..], DeployFailure(r.err))
              && r.world.ledger == LastLedger(w.ledger, r.world.calls[|w.calls|..])
  {
    if |args| == 0 then
      Response(Report(w, Some(MissingArgument), None), Some(MissingArgument))
    else
      var fs := DeployFunctions(reg, order);
      if |fs| == 0 then
        Response(Report(w, Some(NoDeployHandlers(name)), None), Some(NoDeployHandlers(name)))
      else
        DeployAndReport(exec, fs, w, name, [args[0], version])
  }

  /** The ledger handler `i` of `fs` sees when the handlers before it ran one
      after another from `l`, each on the ledger its predecessor left. */
  function LedgerBefore(exec: Exec, fs: seq<HandlerId>, iargs: seq<string>, l: Ledger, i: nat): Ledger
    requires i <= |fs|
    decreases i
  {
    if i == 0 then l else exec(fs[i - 1], LedgerBefore(exec, fs, iargs, l, i - 1), iargs).ledger
  }

  /** The call handler `i` of `fs` makes on that ledger. */
  function DeployCall(exec: Exec, fs: seq<HandlerId>, iargs: seq<string>, l: Ledger, i: nat): Call
    requires i < |fs|
  {
    var before := LedgerBefore(exec, fs, iargs, l, i);
    var reply := exec(fs[i], before, iargs);
    Call(fs[i], iargs, before, reply.result, reply.ledger)
  }

  /** The first `n` calls of running `fs` from `l` without stopping. */
  function DeployCalls(exec: Exec, fs: seq<HandlerId>, iargs: seq<string>, l: Ledger, n: nat): (cs: seq<Call>)
    requires n <= |fs|
    ensures |cs| == n
    ensures forall i :: 0 <= i < n ==> cs[i] == DeployCall(exec, fs, iargs, l, i)
  {
    seq(n, i requires 0 <= i < n => DeployCall(exec, fs, iargs, l, i))
  }

  /** A run recorded in order is the reference run: its i-th call is the one
      handler `i` makes on the ledger the earlier handlers left. */
  lemma {:induction false} RunsInOrderFollowsLedgers(exec: Exec, fs: seq<HandlerId>, iargs: seq<string>, l: Ledger,
                                                     cs: seq<Call>, i: nat)
    requires RunsInOrder(exec, fs, iargs, l, cs)
    requires i < |cs|
    ensures cs[i] == DeployCall(exec, fs, iargs, l, i)
    decreases i
  {
    if i > 0 {
      RunsInOrderFollowsLedgers(exec, fs, iargs, l, cs, i - 1);
    }
  }

  /** A loop record over `fs` is the reference run, and it stops exactly at
      the first handler that fails on the ledger it sees, with that error. */
  lemma DeployLoopStopsAtFirstFailure(exec: Exec, fs: seq<HandlerId>, iargs: seq<string>, l: Ledger,
                                      cs: seq<Call>, failure: Option<string>, j: nat, cause: string)
    requires DeployLoop(exec, fs, iargs, l, cs, failure)
    requires j < |fs|
    requires forall i :: 0 <= i < j ==> DeployCall(exec, fs, iargs, l, i).result.Returned?
    requires DeployCall(exec, fs, iargs, l, j).result == Failed(cause)
    ensures failure == Some(cause)
    ensures cs == DeployCalls(exec, fs, iargs, l, j + 1)
  {
    RunsInOrderFollowsLedgers(exec, fs, iargs, l, cs, |cs| - 1);
    if j < |cs| {
      RunsInOrderFollowsLedgers(exec, fs, iargs, l, cs, j);
    }
    forall i | 0 <= i < |cs|
      ensures cs[i] == DeployCall(exec, fs, iargs, l, i)
    {
      RunsInOrderFollowsLedgers(exec, fs, iargs, l, cs, i);
    }
  }

  /** A loop record over handlers that all return is the complete reference run. */
  lemma DeployLoopAllSucceed(exec: Exec, fs: seq<HandlerId>, iargs: seq<string>, l: Ledger,
                             cs: seq<Call>, failure: Option<string>)
    requires DeployLoop(exec, fs, iargs, l, cs, failure)
    requires forall i :: 0 <= i < |fs| ==> DeployCall(exec, fs, iargs, l, i).result.Returned?
    ensures failure.None?
    ensures cs == DeployCalls(exec, fs, iargs, l, |fs|)
  {
    if |cs| > 0 {
      RunsInOrderFollowsLedgers(exec, fs, iargs, l, cs, |cs| - 1);
    }
    forall i | 0 <= i < |cs|
      ensures cs[i] == DeployCall(exec, fs, iargs, l, i)
    {
      RunsInOrderFollowsLedgers(exec, fs, iargs, l, cs, i);
    }
  }

  /** The loop stops at the first handler that fails on the ledger it sees:
      the handlers before it and the failing one run, none after it, and its
      error is the one reported. */
  lemma RunDeployStopsAtFirstFailure(exec: Exec, fs: seq<HandlerId>, w: World, iargs: seq<string>,
                                     j: nat, cause: string)
    requires j < |fs|
    requires forall i :: 0 <= i < j ==> DeployCall(exec, fs, iargs, w.ledger, i).result.Returned?
    requires DeployCall(exec, fs, iargs, w.ledger, j).result == Failed(cause)
    ensures var r := RunDeploy(exec, fs, w, iargs);
            && r.failure == Some(cause)
            && r.world.calls == w.calls + DeployCalls(exec, fs, iargs, w.ledger, j + 1)
            && r.world.ledger == LedgerBefore(exec, fs, iargs, w.ledger, j + 1)
  {
    var r := RunDeploy(exec, fs, w, iargs);
    var made := r.world.calls[|w.calls|..];
    DeployLoopStopsAtFirstFailure(exec, fs, iargs, w.ledger, made, r.failure, j, cause);
    assert r.world.calls == w.calls + made;
  }

  /** When every handler returns on the ledger it sees, every handler runs and
      the loop reports no failure. */
  lemma RunDeployAllSucceed(exec: Exec, fs: seq<HandlerId>, w: World, iargs: seq<string>)
    requires forall i :: 0 <= i < |fs| ==> DeployCall(exec, fs, iargs, w.ledger, i).result.Returned?
    ensures var r := RunDeploy(exec, fs, w, iargs);
            && r.failure.None?
            && r.world.calls == w.calls + DeployCalls(exec, fs, iargs, w.ledger, |fs|)
            && r.world.ledger == LedgerBefore(exec, fs, iargs, w.ledger, |fs|)
  {
    var r := RunDeploy(exec, fs, w, iargs);
    var made := r.world.calls[|w.calls|..];
    DeployLoopAllSucceed(exec, fs, iargs, w.ledger, made, r.failure);
    assert r.world.calls == w.calls + made;
  }

  /** With every deploy handler returning on the ledger it sees, `Init` returns
      no error, publishes `{"status": "OK"}`, and has run each handler once, in
      order; in whatever order the map was visited, the same handlers exist. */
  lemma InitSucceedsWhenHandlersSucceed(reg: Registry, o1: seq<string>, o2: seq<string>, exec: Exec, w: World,
                                        name: string, args: seq<string>, version: string)
    requires IsIterationOrder(reg, o1) && IsIterationOrder(reg, o2)
    requires |args| > 0 && DeploySet(reg) != {}
    requires forall i :: 0 <= i < |DeployFunctions(reg, o1)| ==>
               DeployCall(exec, DeployFunctions(reg, o1), [args[0], version], w.ledger, i).result.Returned?
    ensures var r := Init(reg, o1, exec, w, name, args, version);
            var fs := DeployFunctions(reg, o1);
            && r.err.None?
            && LastPayload(r.world) == OkPayload()
            && r.world.calls == w.calls + DeployCalls(exec, fs, [args[0], version], w.ledger, |fs|)
            && r.world.ledger == LedgerBefore(exec, fs, [args[0], version], w.ledger, |fs|)
    ensures multiset(DeployFunctions(reg, o1)) == multiset(DeployFunctions(reg, o2))
  {
    var iargs := [args[0], version];
    var fs := DeployFunctions(reg, o1);
    RunDeployAllSucceed(exec, fs, w, iargs);
    var run := RunDeploy(exec, fs, w, iargs);
    var r := Init(reg, o1, exec, w, name, args, version);
    assert r == DeployAndReport(exec, fs, w, name, iargs);
    assert r == Response(Report(run.world, None, None), None);
    DeployFunctionsOrderIndependent(reg, o1, o2);
  }

  /** Once handler j is the first to fail on the ledger it sees, the deploy
      failure carrying its error is reported, after exactly j+1 calls. */
  lemma DeployAndReportStopsAtFirstFailure(exec: Exec, fs: seq<HandlerId>, w: World, name: string,
                                           iargs: seq<string>, j: nat, cause: string)
    requires j < |fs|
    requires forall i :: 0 <= i < j ==> DeployCall(exec, fs, iargs, w.ledger, i).result.Returned?
    requires DeployCall(exec, fs, iargs, w.ledger, j).result == Failed(cause)
    ensures var r := DeployAndReport(exec, fs, w, name, iargs);
            && r.err == Some(DeployHandlerFailed(name, cause))
            && LastPayload(r.world) == ErrorPayload("Init (" + name + ") failed with error " + cause)
            && r.world.calls == w.calls + DeployCalls(exec, fs, iargs, w.ledger, j + 1)
  {
    RunDeployStopsAtFirstFailure(exec, fs, w, iargs, j, cause);
    var run := RunDeploy(exec, fs, w, iargs);
    var err := DeployHandlerFailed(name, cause);
    var r := DeployAndReport(exec, fs, w, name, iargs);
    assert r.err == Some(err) && r.world.calls == run.world.calls by {
      assert r == Response(Report(run.world, Some(err), None), Some(err));
    }
    assert LastPayload(r.world) == ErrorPayload(ErrorMessage(err));
    DeployFailureMessage(name, cause);
  }

  /** The text a deploy failure publishes. */
  lemma DeployFailureMessage(name: string, cause: string)
    ensures ErrorPayload(ErrorMessage(DeployHandlerFailed(name, cause)))
         == ErrorPayload("Init (" + name + ") failed with error " + cause)
  {
  }

  /** A deploy handler that fails on the ledger it sees makes `Init` report
      `DeployHandlerFailed` with its error, after running only the handlers up
      to it. */
  lemma InitStopsAtFirstFailure(reg: Registry, order: seq<string>, exec: Exec, w: World,
                                name: string, args: seq<string>, version: string, j: nat, cause: string)
    requires IsIterationOrder(reg, order)
    requires |args| > 0
    requires j < |DeployFunctions(reg, order)|
    requires forall i :: 0 <= i < j ==>
               DeployCall(exec, DeployFunctions(reg, order), [args[0], version], w.ledger, i).result.Returned?
    requires DeployCall(exec, DeployFunctions(reg, order), [args[0], version], w.ledger, j).result == Failed(cause)
    ensures var r := Init(reg, order, exec, w, name, args, version);
            var fs := DeployFunctions(reg, order);
            && r.err == Some(DeployHandlerFailed(name, cause))
            && LastPayload(r.world) == ErrorPayload("Init (" + name + ") failed with error " + cause)
            && r.world.calls == w.calls + DeployCalls(exec, fs, [args[0], version], w.ledger, j + 1)
  {
    var fs := DeployFunctions(reg, order);
    DeployAndReportStopsAtFirstFailure(exec, fs, w, name, [args[0], version], j, cause);
    assert Init(reg, order, exec, w, name, args, version) == DeployAndReport(exec, fs, w, name, [args[0], version]);
  }

  /** Right after the package's `init()` only `readAllRoutes`, a query, is
      registered, so a deploy message fails with `NoDeployHandlers`. */
  lemma InitOnInitialRegistryFails(systemClass: string, readAll: HandlerId, order: seq<string>, exec: Exec, w: World,
                                   name: string, args: seq<string>, version: string)
    requires IsIterationOrder(InitialRegistry(systemClass, readAll), order)
    requires |args| > 0
    ensures Init(InitialRegistry(systemClass, readAll), order, exec, w, name, args, version).err
         == Some(NoDeployHandlers(name))
  {
  }

  // ---------------------------------------------------------------------------
  // Invoke

  /** `Invoke`: runs the named route's handler, whatever method it was
      registered with, and reports the outcome as exactly one result event. */
  function Invoke(reg: Registry, exec: Exec, decodeEvent: Bytes -> EventDecoding, w: World,
                  name: string, args: seq<string>): (r: Response)
    ensures OneEventAppended(w, r.world)
    ensures r.world.events[|w.events|].name == InvokeResultEvent
    ensures r.err.None? <==> IsOk(LastPayload(r.world))
    ensures r.err.Some? ==> LastPayload(r.world) == ErrorPayload(ErrorMessage(r.err.value))
    ensures name !in reg ==>
              r.err == Some(RouteNotFound(name)) && r.world.ledger == w.ledger && r.world.calls == w.calls
    ensures name in reg ==>
              var reply := exec(reg[name].handler, w.ledger, args);
              && r.world.calls == w.calls + [Call(reg[name].handler, args, w.ledger, reply.result, reply.ledger)]
              && r.world.ledger == reply.ledger
              && (reply.result.Failed? ==> r.err == Some(InvokeHandlerFailed(name, reply.result.cause)))
              && (reply.result.Returned? && |reply.result.bytes| == 0 ==>
                    r.err.None? && LastPayload(r.world) == OkPayload())
              && (reply.result.Returned? && |reply.result.bytes| > 0 ==>
                    match decodeEvent(reply.result.bytes)
                    case Malformed(reason) => r.err == Some(InvokeResultMalformed(name, reason))
                    case Decoded(m) =>
                      && r.err.None?
                      && LastPayload(r.world).Keys == m.Keys + {StatusKey}
                      && forall k :: k in m && k != StatusKey ==> LastPayload(r.world)[k] == m[k])
  {
    if name !in reg then
      Response(Report(w, Some(RouteNotFound(name)), None), Some(RouteNotFound(name)))
    else
      var (result, w1) := RunHandler(exec, reg[name].handler, w, args);
      match result
      case Failed(cause) =>
        var err := InvokeHandlerFailed(name, cause);
        Response(Report(w1, Some(err), None), Some(err))
      case Returned(bytes) =>
        if |bytes| == 0 then
          Response(Report(w1, None, None), None)
        else
          match decodeEvent(bytes)
          case Malformed(reason) =>
            var err := InvokeResultMalformed(name, reason);
            Response(Report(w1, Some(err), None), Some(err))
          case Decoded(m) =>
            Response(Report(w1, None, Some(m)), None)
  }

  /** One request in a sequence of invoke messages. */
  datatype Request = Request(name: string, args: seq<string>)

  datatype Session = Session(world: World, errors: seq<Option<DispatchError>>)

  /** Handles invoke messages one after another. */
  function InvokeAll(reg: Registry, exec: Exec, decodeEvent: Bytes -> EventDecoding, w: World,
                     reqs: seq<Request>): Session
    decreases |reqs|
  {
    if |reqs| == 0 then Session(w, [])
    else
      var first := Invoke(reg, exec, decodeEvent, w, reqs[0].name, reqs[0].args);
      var rest := InvokeAll(reg, exec, decodeEvent, first.world, reqs[1..]);
      Session(rest.world, [first.err] + rest.errors)
  }

  /** Over any sequence of invoke messages the event log grows by exactly one
      event per message, and the i-th new event reports an error exactly when
      the i-th message returned one. */
  lemma {:induction false} InvokeAllOneEventPerCall(reg: Registry, exec: Exec, decodeEvent: Bytes -> EventDecoding,
                                                    w: World, reqs: seq<Request>)
    ensures var s := InvokeAll(reg, exec, decodeEvent, w, reqs);
            && |s.world.events| == |w.events| + |reqs|
            && s.world.events[..|w.events|] == w.events
            && |s.errors| == |reqs|
            && forall i :: 0 <= i < |reqs| ==>
                 (s.errors[i].None? <==> IsOk(s.world.events[|w.events| + i].payload))
    decreases |reqs|
  {
    if |reqs| > 0 {
      var first := Invoke(reg, exec, decodeEvent, w, reqs[0].name, reqs[0].args);
      InvokeAllOneEventPerCall(reg, exec, decodeEvent, first.world, reqs[1..]);
      var s := InvokeAll(reg, exec, decodeEvent, w, reqs);
      var rest := InvokeAll(reg, exec, decodeEvent, first.world, reqs[1..]);
      assert s.world == rest.world;
      assert rest.world.events[..|first.world.events|] == first.world.events;
      assert s.world.events[|w.events|] == first.world.events[|w.events|];
      assert s.world.events[..|w.events|] == first.world.events[..|w.events|];
      forall i | 0 <= i < |reqs|
        ensures s.errors[i].None? <==> IsOk(s.world.events[|w.events| + i].payload)
      {
        if i > 0 {
          assert s.errors[i] == rest.errors[i - 1];
          assert s.world.events[|w.events| + i] == rest.world.events[|first.world.events| + (i - 1)];
        }
      }
    }
  }

  /** A handler map `{"x": 1}` is published as `{"status": "OK", "x": 1}`. */
  lemma InvokePublishesHandlerMap(reg: Registry, exec: Exec, decodeEvent: Bytes -> EventDecoding, w: World,
                                  name: string, args: seq<string>)
    requires name in reg
    requires exec(reg[name].handler, w.ledger, args).result.Returned?
    requires |exec(reg[name].handler, w.ledger, args).result.bytes| > 0
    requires decodeEvent(exec(reg[name].handler, w.ledger, args).result.bytes) == Decoded(map["x" := JNumber(1)])
    ensures var r := Invoke(reg, exec, decodeEvent, w, name, args);
            r.err.None? && LastPayload(r.world) == map[StatusKey := JString("OK"), "x" := JNumber(1)]
  {
  }

  /** A handler failing with "boom" is published as exactly `status` and the
      wrapped message, and the handler's bytes play no part. */
  lemma InvokePublishesHandlerFailure(reg: Registry, exec: Exec, decodeEvent: Bytes -> EventDecoding, w: World,
                                      name: string, args: seq<string>)
    requires name in reg
    requires exec(reg[name].handler, w.ledger, args).result == Failed("boom")
    ensures var r := Invoke(reg, exec, decodeEvent, w, name, args);
            && r.err == Some(InvokeHandlerFailed(name, "boom"))
            && LastPayload(r.world) == map[StatusKey := JString("ERROR"),
                                           MessageKey := JString("Invoke (" + name + ") failed with error " + "boom")]
  {
  }

  // ---------------------------------------------------------------------------
  // Query

  /** `Query`: runs the named route's handler and returns its decoded response
      filtered for `caller`. No path publishes an event. */
  function Query(reg: Registry, exec: Exec, decodeResponse: Bytes -> ResponseStruct, w: World,
                 name: string, args: seq<string>, caller: string): (r: QueryResponse)
    ensures r.world.events == w.events
    ensures name !in reg ==> r.result == Failure(QueryRouteNotFound(name)) && r.world == w
    ensures name in reg ==>
              var reply := exec(reg[name].handler, w.ledger, args);
              && r.world.calls == w.calls + [Call(reg[name].handler, args, w.ledger, reply.result, reply.ledger)]
              && r.world.ledger == reply.ledger
              && (reply.result.Failed? ==> r.result == Failure(QueryHandlerFailed(name, reply.result.cause)))
              && (reply.result.Returned? ==>
                    var resp := decodeResponse(reply.result.bytes);
                    && (|resp.assets| == 0 ==> r.result == Failure(AssetIndexOutOfRange))
                    && (|resp.assets| > 0 ==>
                          && r.result.Success?
                          && |r.result.value.assets| == |resp.assets|
                          && r.result.value.assets[0] == FilterAsset(resp.assets[0], ParseCaller(caller))
                          && r.result.value.assets[1..] == resp.assets[1..]
                          && r.result.value.(assets := resp.assets) == resp))
    ensures r.result.Success? ==>
              && |r.result.value.assets| > 0
              && r.result.value.assets[0].cert == ""
              && FilterQueryResponse(r.result.value, caller) == r.result.value
  {
    if name !in reg then
      QueryResponse(w, Failure(QueryRouteNotFound(name)))
    else
      var (result, w1) := RunHandler(exec, reg[name].handler, w, args);
      match result
      case Failed(cause) =>
        QueryResponse(w1, Failure(QueryHandlerFailed(name, cause)))
      case Returned(bytes) =>
        var resp := decodeResponse(bytes);
        if |resp.assets| == 0 then
          QueryResponse(w1, Failure(AssetIndexOutOfRange))
        else
          FilterQueryResponseIdempotent(resp, caller);
          QueryResponse(w1, Success(FilterQueryResponse(resp, caller)))
  }
}
