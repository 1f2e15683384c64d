/**
 * The route registry of the chaincode router: `AddRoute`, `getDeployFunctions`,
 * `readAllRoutes` and the registration done by the package's `init()`.
 *
 * Go's `range` over a map visits keys in an unspecified order. Every member that
 * iterates the registry therefore takes that order as an explicit parameter
 * `order`, constrained only by `IsIterationOrder`, and its contract holds for
 * every such order.
 */
module Routes {
  import opened Wrappers
  import opened Seqs

  /** The `method` string a route is registered with. Registration does not
      validate it, so any other string is kept as `OtherMethod`. */
  datatype Method = DeployMethod | InvokeMethod | QueryMethod | OtherMethod(name: string)

  function MethodName(m: Method): string {
    match m
    case DeployMethod => "deploy"
    case InvokeMethod => "invoke"
    case QueryMethod => "query"
    case OtherMethod(s) => s
  }

  /** Reads a registration method string; only the three exact spellings are recognised. */
  function ParseMethod(s: string): (m: Method)
    ensures MethodName(m) == s
    ensures m == DeployMethod <==> s == "deploy"
    ensures m.OtherMethod? <==> s !in {"deploy", "invoke", "query"}
  {
    if s == "deploy" then DeployMethod
    else if s == "invoke" then InvokeMethod
    else if s == "query" then QueryMethod
    else OtherMethod(s)
  }

  /** Opaque identity of a registered Go handler function. */
  type HandlerId = string

  /** A `ChaincodeRoute`: `kind` is its `Method`, `owner` the name of its `Class`. */
  datatype Route = Route(functionName: string, kind: Method, owner: string, handler: HandlerId)

  /** The package-level `router` map. */
  type Registry = map<string, Route>

  /** Every route is filed under its own function name. */
  ghost predicate WellFormed(reg: Registry) {
    forall k :: k in reg ==> reg[k].functionName == k
  }

  /** The names of the routes registered as `deploy`. */
  function DeploySet(reg: Registry): set<string> {
    set k | k in reg && reg[k].kind == DeployMethod
  }

  /** `order` is one possible order in which `range` visits the keys of `reg`:
      each key exactly once and nothing else. */
  predicate IsIterationOrder(reg: Registry, order: seq<string>) {
    Distinct(order) && Elements(order) == reg.Keys
  }

  /** Any iteration order lists as many keys as the registry holds. */
  lemma IterationOrderLength(reg: Registry, order: seq<string>)
    requires IsIterationOrder(reg, order)
    ensures |order| == |reg|
  {
    DistinctCardinality(order);
    assert |reg| == |reg.Keys|;
  }

  /** Picks the keys of the registry one at a time in an unspecified order, as
      Go's `range` does; every run produces a valid iteration order. */
  method RangeOrder(reg: Registry) returns (order: seq<string>)
    ensures IsIterationOrder(reg, order)
  {
    order := [];
    var remaining := reg.Keys;
    while remaining != {}
      invariant Distinct(order)
      invariant Elements(order) !! remaining
      invariant Elements(order) + remaining == reg.Keys
      decreases remaining
    {
      var k :| k in remaining;
      order := order + [k];
      remaining := remaining - {k};
    }
  }

  // ---------------------------------------------------------------------------
  // AddRoute

  /** The error `AddRoute` returns for a name that is already registered. */
  datatype AddRouteError = DuplicateRoute(functionName: string, methodName: string, className: string, existing: Route)

  /** The closing words of the duplicate-route message: the class and method
      of the route already filed under the name. */
  function DuplicateTail(existing: Route): string {
    " but is already registered against class " + existing.owner + " as method " + MethodName(existing.kind)
  }

  /** The duplicate-route message with each value in the slot its wording names. */
  function DuplicateMessage(functionName: string, methodName: string, className: string, existing: Route): (m: string)
    ensures "AddRoute: function name " + functionName + " attempt to register against class " + className
            + " as method " + methodName <= m
    ensures EndsWith(m, DuplicateTail(existing))
  {
    var head := "AddRoute: function name " + functionName + " attempt to register against class " + className
                + " as method " + methodName;
    ConcatEnds(head, DuplicateTail(existing));
    head + DuplicateTail(existing)
  }

  /** The duplicate-route message as the source formats it: its first three values
      are passed as class, method and existing function name, one slot late. */
  function DuplicateMessageAsWritten(functionName: string, methodName: string, className: string, existing: Route): (m: string)
    ensures "AddRoute: function name " + className + " attempt to register against class " + methodName
            + " as method " + existing.functionName <= m
    ensures EndsWith(m, DuplicateTail(existing))
  {
    var head := "AddRoute: function name " + className + " attempt to register against class " + methodName
                + " as method " + existing.functionName;
    ConcatEnds(head, DuplicateTail(existing));
    head + DuplicateTail(existing)
  }

  /** The corrected message names, in order, the function, the class and the
      method of the refused registration. */
  lemma DuplicateMessageNamesAttempt(functionName: string, methodName: string, className: string, existing: Route)
    ensures "AddRoute: function name " + functionName + " attempt to register against class " + className
            + " as method " + methodName <= DuplicateMessage(functionName, methodName, className, existing)
  {
  }

  /** As written, the message puts the class where the function name belongs
      and the method where the class belongs. */
  lemma DuplicateMessageAsWrittenMisplacesValues(functionName: string, methodName: string, className: string, existing: Route)
    ensures "AddRoute: function name " + className + " attempt to register against class " + methodName
            <= DuplicateMessageAsWritten(functionName, methodName, className, existing)
  {
  }

  /** Registering `f` as an `invoke` of class `C` over an existing route `f`:
      the message as written reports function name "C", not "f". */
  lemma DuplicateMessageAsWrittenDiffers()
    ensures var existing := Route("f", QueryMethod, "S", "h");
            DuplicateMessageAsWritten("f", "invoke", "C", existing) != DuplicateMessage("f", "invoke", "C", existing)
  {
    var existing := Route("f", QueryMethod, "S", "h");
    assert DuplicateMessageAsWritten("f", "invoke", "C", existing)[24] == 'C';
    assert DuplicateMessage("f", "invoke", "C", existing)[24] == 'f';
  }

  /** The text of the error `AddRoute` returns: the refused registration's
      function, class and method, then the class and method already filed. */
  function AddRouteErrorMessage(e: AddRouteError): (m: string)
    ensures "AddRoute: function name " + e.functionName + " attempt to register against class " + e.className
            + " as method " + e.methodName <= m
    ensures EndsWith(m, DuplicateTail(e.existing))
  {
    DuplicateMessage(e.functionName, e.methodName, e.className, e.existing)
  }

  /** Registers one route; refuses a name that is already taken. */
  function AddRoute(reg: Registry, functionName: string, methodName: string, className: string, handler: HandlerId): (r: Result<Registry, AddRouteError>)
    ensures functionName in reg <==> r.Failure?
    ensures functionName in reg ==> r.error == DuplicateRoute(functionName, methodName, className, reg[functionName])
    ensures r.Success? ==> r.value.Keys == reg.Keys + {functionName}
    ensures r.Success? ==> r.value[functionName] == Route(functionName, ParseMethod(methodName), className, handler)
    ensures r.Success? ==> forall k :: k in reg ==> r.value[k] == reg[k]
    ensures r.Success? ==> |r.value| == |reg| + 1
    ensures r.Success? && WellFormed(reg) ==> WellFormed(r.value)
  {
    if functionName in reg then
      Failure(DuplicateRoute(functionName, methodName, className, reg[functionName]))
    else
      Success(reg[functionName := Route(functionName, ParseMethod(methodName), className, handler)])
  }

  /** Registering a taken name again fails and reports the route already there,
      so the first registration stays in force. */
  lemma DuplicateKeepsFirst(reg: Registry, name: string, m1: string, c1: string, h1: HandlerId,
                            m2: string, c2: string, h2: HandlerId)
    requires AddRoute(reg, name, m1, c1, h1).Success?
    ensures var reg1 := AddRoute(reg, name, m1, c1, h1).value;
            && AddRoute(reg1, name, m2, c2, h2) == Failure(DuplicateRoute(name, m2, c2, Route(name, ParseMethod(m1), c1, h1)))
            && reg1[name].handler == h1
  {
  }

  /** Registrations of distinct names commute: the registry built does not depend
      on the order in which asset classes register. */
  lemma {:induction false} AddRouteCommutes(reg: Registry, n1: string, m1: string, c1: string, h1: HandlerId,
                                            n2: string, m2: string, c2: string, h2: HandlerId)
    requires n1 != n2 && n1 !in reg && n2 !in reg
    ensures AddRoute(reg, n1, m1, c1, h1).Success? && AddRoute(reg, n2, m2, c2, h2).Success?
    ensures AddRoute(AddRoute(reg, n1, m1, c1, h1).value, n2, m2, c2, h2)
         == AddRoute(AddRoute(reg, n2, m2, c2, h2).value, n1, m1, c1, h1)
  {
    var r1 := Route(n1, ParseMethod(m1), c1, h1);
    var r2 := Route(n2, ParseMethod(m2), c2, h2);
    assert AddRoute(reg, n1, m1, c1, h1) == Success(reg[n1 := r1]);
    assert AddRoute(reg, n2, m2, c2, h2) == Success(reg[n2 := r2]);
    assert AddRoute(reg[n1 := r1], n2, m2, c2, h2) == Success(reg[n1 := r1][n2 := r2]);
    assert AddRoute(reg[n2 := r2], n1, m1, c1, h1) == Success(reg[n2 := r2][n1 := r1]);
    assert reg[n1 := r1][n2 := r2] == reg[n2 := r2][n1 := r1];
  }

  // ---------------------------------------------------------------------------
  // getDeployFunctions

  /** The names visited by `range` (in `order`) whose route method is `deploy`. */
  function DeployNames(reg: Registry, order: seq<string>): (ns: seq<string>)
    requires forall k :: k in order ==> k in reg
    ensures forall k :: k in ns ==> k in order && reg[k].kind == DeployMethod
    ensures forall k :: k in order && reg[k].kind == DeployMethod ==> k in ns
    ensures |ns| <= |order|
    ensures Distinct(order) ==> Distinct(ns)
  {
    if |order| == 0 then []
    else
      var rest := DeployNames(reg, order[1..]);
      if reg[order[0]].kind == DeployMethod then [order[0]] + rest else rest
  }

  /** The handlers of the named routes, in the order given. */
  function HandlersOf(reg: Registry, ns: seq<string>): (fs: seq<HandlerId>)
    requires forall k :: k in ns ==> k in reg
  {
    if |ns| == 0 then [] else [reg[ns[0]].handler] + HandlersOf(reg, ns[1..])
  }

  lemma {:induction false} HandlersOfIndex(reg: Registry, ns: seq<string>)
    requires forall k :: k in ns ==> k in reg
    ensures |HandlersOf(reg, ns)| == |ns|
    ensures forall i :: 0 <= i < |ns| ==> HandlersOf(reg, ns)[i] == reg[ns[i]].handler
  {
    if |ns| > 0 {
      HandlersOfIndex(reg, ns[1..]);
    }
  }

  lemma {:induction false} HandlersOfConcat(reg: Registry, a: seq<string>, b: seq<string>)
    requires forall k :: k in a + b ==> k in reg
    ensures HandlersOf(reg, a + b) == HandlersOf(reg, a) + HandlersOf(reg, b)
  {
    if |a| == 0 {
      assert a + b == b;
    } else {
      assert (a + b)[0] == a[0];
      assert (a + b)[1..] == a[1..] + b;
      HandlersOfConcat(reg, a[1..], b);
    }
  }

  /** Taking the same element out of two permutations leaves permutations. */
  lemma RemoveMatching(a: seq<string>, b: seq<string>, j: nat)
    requires multiset(a) == multiset(b) && |a| > 0
    requires j < |b| && b[j] == a[0]
    ensures multiset(a[1..]) == multiset(b[..j] + b[j + 1..])
  {
    assert a == [a[0]] + a[1..];
    assert b == b[..j] + [b[j]] + b[j + 1..];
    assert multiset(a[1..]) == multiset(a) - multiset{a[0]};
    assert multiset(b[..j] + b[j + 1..]) == multiset(b) - multiset{b[j]};
  }

  lemma HandlersOfSplit(reg: Registry, b: seq<string>, j: nat)
    requires forall k :: k in b ==> k in reg
    requires j < |b|
    ensures HandlersOf(reg, b) == HandlersOf(reg, b[..j]) + [reg[b[j]].handler] + HandlersOf(reg, b[j + 1..])
    ensures HandlersOf(reg, b[..j] + b[j + 1..]) == HandlersOf(reg, b[..j]) + HandlersOf(reg, b[j + 1..])
  {
    assert b == (b[..j] + [b[j]]) + b[j + 1..];
    HandlersOfConcat(reg, b[..j] + [b[j]], b[j + 1..]);
    HandlersOfConcat(reg, b[..j], [b[j]]);
    assert HandlersOf(reg, [b[j]]) == [reg[b[j]].handler] + HandlersOf(reg, []);
    HandlersOfConcat(reg, b[..j], b[j + 1..]);
  }

  /** Reordering the names reorders their handlers the same way. */
  lemma {:induction false} HandlersOfPermutation(reg: Registry, a: seq<string>, b: seq<string>)
    requires forall k :: k in a ==> k in reg
    requires multiset(a) == multiset(b)
    ensures forall k :: k in b ==> k in reg
    ensures multiset(HandlersOf(reg, a)) == multiset(HandlersOf(reg, b))
    decreases |a|
  {
    assert forall k :: k in b ==> k in reg by {
      forall k | k in b ensures k in reg {
        assert k in multiset(b);
      }
    }
    if |a| == 0 {
      assert |multiset(b)| == 0;
    } else {
      var x := a[0];
      assert x in multiset(b);
      var j :| 0 <= j < |b| && b[j] == x;
      var rest := b[..j] + b[j + 1..];
      RemoveMatching(a, b, j);
      HandlersOfPermutation(reg, a[1..], rest);
      HandlersOfSplit(reg, b, j);
      assert HandlersOf(reg, a) == [reg[x].handler] + HandlersOf(reg, a[1..]);
    }
  }

  /** `getDeployFunctions`: one handler per `deploy` route, in iteration order. */
  function DeployFunctions(reg: Registry, order: seq<string>): (fs: seq<HandlerId>)
    requires IsIterationOrder(reg, order)
    ensures |fs| == |DeployNames(reg, order)| == |DeploySet(reg)|
    ensures forall i :: 0 <= i < |fs| ==> fs[i] == reg[DeployNames(reg, order)[i]].handler
    ensures Elements(DeployNames(reg, order)) == DeploySet(reg)
    ensures Distinct(DeployNames(reg, order))
  {
    var ns := DeployNames(reg, order);
    HandlersOfIndex(reg, ns);
    assert Elements(ns) == DeploySet(reg);
    DistinctCardinality(ns);
    HandlersOf(reg, ns)
  }

  /** Whatever order the map is visited in, the same deploy handlers come out,
      each as often as routes carry it. */
  lemma DeployFunctionsOrderIndependent(reg: Registry, o1: seq<string>, o2: seq<string>)
    requires IsIterationOrder(reg, o1) && IsIterationOrder(reg, o2)
    ensures multiset(DeployFunctions(reg, o1)) == multiset(DeployFunctions(reg, o2))
  {
    var n1 := DeployNames(reg, o1);
    var n2 := DeployNames(reg, o2);
    assert Elements(n1) == DeploySet(reg) == Elements(n2);
    DistinctListingsArePermutations(n1, n2);
    HandlersOfPermutation(reg, n1, n2);
  }

  // ---------------------------------------------------------------------------
  // readAllRoutes

  /** One row of the `readAllRoutes` listing. */
  datatype RouteOut = RouteOut(functionName: string, methodName: string, className: string)

  function RouteRow(r: Route): RouteOut {
    RouteOut(r.functionName, MethodName(r.kind), r.owner)
  }

  function RoutesOf(reg: Registry, order: seq<string>): seq<RouteOut>
    requires forall k :: k in order ==> k in reg
  {
    if |order| == 0 then [] else [RouteRow(reg[order[0]])] + RoutesOf(reg, order[1..])
  }

  lemma {:induction false} RoutesOfIndex(reg: Registry, order: seq<string>)
    requires forall k :: k in order ==> k in reg
    ensures |RoutesOf(reg, order)| == |order|
    ensures forall i :: 0 <= i < |order| ==> RoutesOf(reg, order)[i] == RouteRow(reg[order[i]])
  {
    if |order| > 0 {
      RoutesOfIndex(reg, order[1..]);
    }
  }

  /** `readAllRoutes`: one row per registered route, copying its name, method and class. */
  function ReadAllRoutes(reg: Registry, order: seq<string>): (rows: seq<RouteOut>)
    requires IsIterationOrder(reg, order)
    ensures |rows| == |order| == |reg|
    ensures forall i :: 0 <= i < |rows| ==> order[i] in reg && rows[i] == RouteRow(reg[order[i]])
    ensures WellFormed(reg) ==> forall k :: k in reg <==> exists i :: 0 <= i < |rows| && rows[i].functionName == k
  {
    IterationOrderLength(reg, order);
    RoutesOfIndex(reg, order);
    var rows := RoutesOf(reg, order);
    assert WellFormed(reg) ==> forall k :: k in reg ==> exists i :: 0 <= i < |rows| && rows[i].functionName == k by {
      if WellFormed(reg) {
        forall k | k in reg ensures exists i :: 0 <= i < |rows| && rows[i].functionName == k {
          assert k in Elements(order);
          var i :| 0 <= i < |order| && order[i] == k;
          assert rows[i].functionName == k;
        }
      }
    }
    rows
  }

  // ---------------------------------------------------------------------------
  // init()

  const ReadAllRoutesName := "readAllRoutes"

  /** The registry after the package's `init()`: `readAllRoutes` registered as a
      query of the system class. */
  function InitialRegistry(systemClass: string, readAllRoutes: HandlerId): (reg: Registry)
    ensures reg.Keys == {ReadAllRoutesName}
    ensures reg[ReadAllRoutesName] == Route(ReadAllRoutesName, QueryMethod, systemClass, readAllRoutes)
    ensures WellFormed(reg)
    ensures DeploySet(reg) == {}
  {
    var r := AddRoute(map[], ReadAllRoutesName, "query", systemClass, readAllRoutes);
    r.value
  }
}
