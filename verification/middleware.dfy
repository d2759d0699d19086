/** The capability-invocation (ZCAP-LD) authorization middleware of the KMS
    REST API: which action a matched route demands, and how one request is
    forwarded, rejected with 400, or handed to the capability verifier.

    The router is replaced by its two outputs, the matched route's name and the
    route variables. The endpoint-name constants, the name of the keystore-id
    route variable and the resource-URI builder `keystoreLocation` are defined
    outside this model, so they enter as the fields of a `Consts` value. */
module Middleware {
  import opened Wrappers

  /** The eleven capability-guarded endpoints, declared in the order of the
      cases of the `expectedAction` switch. */
  datatype Endpoint =
    | KeysEndpoint
    | CapabilityEndpoint
    | ExportEndpoint
    | SignEndpoint
    | VerifyEndpoint
    | EncryptEndpoint
    | DecryptEndpoint
    | ComputeMACEndpoint
    | VerifyMACEndpoint
    | WrapEndpoint
    | UnwrapEndpoint

  /** The action labels of capability invocations. `NoAction` stands for the
      empty string that `expectedAction` returns beside an error. */
  datatype Action =
    | NoAction
    | CreateKey
    | StoreCapability
    | ExportKey
    | Sign
    | Verify
    | Encrypt
    | Decrypt
    | ComputeMAC
    | VerifyMAC
    | Wrap
    | Unwrap

  /** The package constants the middleware reads. */
  datatype Consts = Consts(
    endpointName: Endpoint -> string,            // keysEndpoint, capabilityEndpoint, ...
    keystoresEndpoint: string,                    // the keystore-creation route
    keystoreIDQueryParam: string,                 // the route variable holding the keystore id
    keystoreLocation: (string, string) -> string) // (host, keystore id) -> resource URI

  /** The eleven guarded names are pairwise different, which Go's compiler
      enforces for the constant cases of one switch. */
  predicate DistinctNames(c: Consts) {
    forall a, b :: c.endpointName(a) == c.endpointName(b) ==> a == b
  }

  /** The guarded names are distinct, and the keystore-creation route is none
      of them. The latter is an assumption about a constant defined outside
      this model, and a needed one, since a guarded name equal to it would be
      forwarded unchecked (`CreationRouteShadowsEndpoint`). */
  predicate WellFormed(c: Consts) {
    && DistinctNames(c)
    && (forall e :: c.endpointName(e) != c.keystoresEndpoint)
  }

  /** The cases of the switch, in source order. */
  const SwitchOrder: seq<Endpoint> := [
    KeysEndpoint, CapabilityEndpoint, ExportEndpoint, SignEndpoint, VerifyEndpoint,
    EncryptEndpoint, DecryptEndpoint, ComputeMACEndpoint, VerifyMACEndpoint,
    WrapEndpoint, UnwrapEndpoint]

  lemma SwitchOrderCoversAll(e: Endpoint)
    ensures e in SwitchOrder
  {
  }

  /** The action each guarded endpoint demands. */
  function ActionOf(e: Endpoint): (a: Action)
    ensures a != NoAction
  {
    match e
    case KeysEndpoint => CreateKey
    case CapabilityEndpoint => StoreCapability
    case ExportEndpoint => ExportKey
    case SignEndpoint => Sign
    case VerifyEndpoint => Verify
    case EncryptEndpoint => Encrypt
    case DecryptEndpoint => Decrypt
    case ComputeMACEndpoint => ComputeMAC
    case VerifyMACEndpoint => VerifyMAC
    case WrapEndpoint => Wrap
    case UnwrapEndpoint => Unwrap
  }

  /** Every guarded endpoint has an action of its own. */
  lemma ActionOfInjective(a: Endpoint, b: Endpoint)
    ensures ActionOf(a) == ActionOf(b) ==> a == b
  {
  }

  /** The switch on a route name: a case whose constant equals the name. The
      body takes the first in order; since Go rejects duplicate constant cases
      in one switch, at most one can match, so which one is never in doubt. */
  function Dispatch(c: Consts, name: string, cases: seq<Endpoint>): (r: Option<Endpoint>)
    ensures r.Some? ==> r.value in cases && c.endpointName(r.value) == name
    ensures r.None? ==> forall e :: e in cases ==> c.endpointName(e) != name
    decreases |cases|
  {
    if |cases| == 0 then None
    else if c.endpointName(cases[0]) == name then Some(cases[0])
    else Dispatch(c, name, cases[1..])
  }

  /** `name` is the route name of some guarded endpoint. */
  predicate IsEndpointName(c: Consts, name: string) {
    exists e :: c.endpointName(e) == name
  }

  /** `name` is the route name of a guarded endpoint that demands `a`. */
  predicate DemandsAction(c: Consts, name: string, a: Action) {
    exists e :: c.endpointName(e) == name && ActionOf(e) == a
  }

  /** The error message of an unrecognized route, followed by its name. */
  const UnsupportedEndpoint := "unsupported endpoint: "

  /** The error-level log line written before a 400 answer, followed by the error. */
  const ActionFailureLog := "zcap middleware failed to determine the expected action: "

  /** Go's `(action string, err error)` result of `expectedAction`. */
  datatype ActionResult = ActionResult(action: Action, err: Option<string>)

  /** `expectedAction`: the action the route demands, or an error naming the
      route together with an empty action. */
  function ExpectedAction(c: Consts, name: string): (r: ActionResult)
    ensures r.err.None? <==> IsEndpointName(c, name)
    ensures r.err.None? ==> DemandsAction(c, name, r.action)
    ensures r.err.Some? ==> r.action == NoAction && r.err.value == UnsupportedEndpoint + name
  {
    match Dispatch(c, name, SwitchOrder)
    case Some(e) => ActionResult(ActionOf(e), None)
    case None =>
      assert forall e :: c.endpointName(e) != name by {
        forall e ensures c.endpointName(e) != name {
          SwitchOrderCoversAll(e);
        }
      }
      ActionResult(NoAction, Some(UnsupportedEndpoint + name))
  }

  /** Each guarded endpoint's route name resolves to that endpoint's action. */
  lemma ExpectedActionOfEndpoint(c: Consts, e: Endpoint)
    requires DistinctNames(c)
    ensures ExpectedAction(c, c.endpointName(e)) == ActionResult(ActionOf(e), None)
  {
  }

  /** Any other route name is refused with an error naming it. */
  lemma ExpectedActionUnsupported(c: Consts, name: string)
    requires !IsEndpointName(c, name)
    ensures ExpectedAction(c, name) == ActionResult(NoAction, Some(UnsupportedEndpoint + name))
  {
  }

  /** The fields of `zcapld.InvocationExpectations` the middleware fills in. */
  datatype Expectations = Expectations(target: string, rootCapability: string, action: Action)

  /** What the middleware does with one request: forward it to the next handler
      unchecked, answer it with an HTTP error, or hand the expectations to the
      capability verifier, whose continuation is the next handler. A refusal's
      `message` is the text passed to `http.Error`, which writes it to the
      body followed by a newline. */
  datatype Decision =
    | Forward
    | BadRequest(status: int, message: string, logged: string)
    | Delegate(expectations: Expectations)

  /** Go's map index: a missing route variable reads as the empty string. */
  function Var(vars: map<string, string>, key: string): (v: string)
    ensures key in vars ==> v == vars[key]
    ensures key !in vars ==> v == ""
  {
    if key in vars then vars[key] else ""
  }

  /** The resource URI of the request: target and root capability alike. */
  function Resource(c: Consts, host: string, vars: map<string, string>): (r: string)
    ensures c.keystoreIDQueryParam in vars ==> r == c.keystoreLocation(host, vars[c.keystoreIDQueryParam])
    ensures c.keystoreIDQueryParam !in vars ==> r == c.keystoreLocation(host, "")
  {
    c.keystoreLocation(host, Var(vars, c.keystoreIDQueryParam))
  }

  /** `mwHandler.ServeHTTP` up to the hand-over to the verifier. */
  function Decide(c: Consts, routeName: string, host: string, vars: map<string, string>): (d: Decision)
    ensures d.Forward? <==> routeName == c.keystoresEndpoint
    ensures d.BadRequest? <==> routeName != c.keystoresEndpoint && !IsEndpointName(c, routeName)
    ensures d.BadRequest? ==>
              d.status == 400 && d.message == "bad request" &&
              d.logged == ActionFailureLog + (UnsupportedEndpoint + routeName)
    ensures d.Delegate? ==>
              && d.expectations.target == c.keystoreLocation(host, Var(vars, c.keystoreIDQueryParam))
              && d.expectations.rootCapability == d.expectations.target
              && d.expectations.action != NoAction
  {
    if routeName == c.keystoresEndpoint then Forward
    else
      var resource := Resource(c, host, vars);
      var r := ExpectedAction(c, routeName);
      if r.err.Some? then
        BadRequest(400, "bad request", ActionFailureLog + r.err.value)
      else
        Delegate(Expectations(resource, resource, r.action))
  }

  /** A request other than keystore creation is refused with 400 exactly when
      its route is no guarded endpoint; otherwise the verifier is asked for the
      action that route demands. */
  lemma DecideByRoute(c: Consts, routeName: string, host: string, vars: map<string, string>)
    ensures Decide(c, routeName, host, vars).BadRequest? <==>
              routeName != c.keystoresEndpoint && !IsEndpointName(c, routeName)
    ensures Decide(c, routeName, host, vars).Delegate? ==>
              DemandsAction(c, routeName, Decide(c, routeName, host, vars).expectations.action)
  {
  }

  /** A request on a guarded endpoint goes to the verifier with that endpoint's
      action and the resource as both target and root capability. */
  lemma DecideEndpoint(c: Consts, e: Endpoint, host: string, vars: map<string, string>)
    requires WellFormed(c)
    ensures var loc := c.keystoreLocation(host, Var(vars, c.keystoreIDQueryParam));
            Decide(c, c.endpointName(e), host, vars) == Delegate(Expectations(loc, loc, ActionOf(e)))
  {
  }

  /** The decision reads the route variables only through the keystore id; in
      particular a missing id is the same as an empty one. */
  lemma DecideReadsOnlyKeystoreID(c: Consts, routeName: string, host: string,
                                  vars1: map<string, string>, vars2: map<string, string>)
    requires Var(vars1, c.keystoreIDQueryParam) == Var(vars2, c.keystoreIDQueryParam)
    ensures Decide(c, routeName, host, vars1) == Decide(c, routeName, host, vars2)
  {
  }

  /** A missing keystore id is not rejected: it builds the resource of the
      empty id. */
  lemma DecideMissingKeystoreID(c: Consts, routeName: string, host: string, vars: map<string, string>)
    requires c.keystoreIDQueryParam !in vars
    ensures Decide(c, routeName, host, vars) == Decide(c, routeName, host, vars[c.keystoreIDQueryParam := ""])
    ensures Decide(c, routeName, host, vars).Delegate? ==>
              Decide(c, routeName, host, vars).expectations.target == c.keystoreLocation(host, "")
  {
  }

  /** The observable steps of one request. */
  datatype Step =
    | CheckRoute          // compare the route name with the creation route
    | LocateResource      // keystoreLocation(host, id)
    | ResolveAction       // expectedAction(route)
    | WriteBadRequest     // http.Error(w, "bad request", 400)
    | InvokeVerifier      // the verifier's handler, given the expectations
    | CallNext            // next.ServeHTTP(w, r)
    | WriteUnauthorized   // the verifier's own error response

  /** One request served: its steps in order, and the expectations the
      verifier received, if it was called. */
  datatype Served = Served(steps: seq<Step>, verifierInput: Option<Expectations>)

  /** Every occurrence of `later` comes after some occurrence of `earlier`. */
  predicate Precedes(steps: seq<Step>, earlier: Step, later: Step) {
    forall j :: 0 <= j < |steps| && steps[j] == later ==>
      exists i :: 0 <= i < j && steps[i] == earlier
  }

  /** The steps that follow a decision: a forwarded request goes straight to
      the next handler; any other request was located and had its action
      resolved, and is then either refused with 400 or given to the verifier,
      which on acceptance runs the next handler and otherwise answers itself. */
  function Respond(d: Decision, verifier: Expectations -> bool): (r: Served)
    ensures |r.steps| >= 2 && r.steps[0] == CheckRoute
    ensures d.Forward? ==> r == Served([CheckRoute, CallNext], None)
    ensures !d.Forward? ==> |r.steps| >= 4 && r.steps[1] == LocateResource && r.steps[2] == ResolveAction
    ensures (InvokeVerifier in r.steps) <==> r.verifierInput.Some?
    ensures r.verifierInput.Some? <==> d.Delegate?
    ensures r.verifierInput.Some? ==> d == Delegate(r.verifierInput.value)
  {
    match d
    case Forward => Served([CheckRoute, CallNext], None)
    case BadRequest(_, _, _) => Served([CheckRoute, LocateResource, ResolveAction, WriteBadRequest], None)
    case Delegate(x) =>
      var last := if verifier(x) then CallNext else WriteUnauthorized;
      Served([CheckRoute, LocateResource, ResolveAction, InvokeVerifier, last], Some(x))
  }

  /** The verifier is called only after the action was resolved, the action
      only after the resource was located, and that only after the route was
      checked. */
  lemma RespondOrdering(d: Decision, verifier: Expectations -> bool)
    ensures var steps := Respond(d, verifier).steps;
            && Precedes(steps, ResolveAction, InvokeVerifier)
            && Precedes(steps, LocateResource, ResolveAction)
            && Precedes(steps, CheckRoute, LocateResource)
  {
  }

  /** A request refused with 400 never reaches the verifier or the next
      handler. */
  lemma RespondBadRequest(d: Decision, verifier: Expectations -> bool)
    ensures var steps := Respond(d, verifier).steps;
            WriteBadRequest in steps <==> d.BadRequest?
    ensures var steps := Respond(d, verifier).steps;
            WriteBadRequest in steps ==> InvokeVerifier !in steps && CallNext !in steps
  {
  }

  /** The next handler runs exactly when the request is forwarded, or the
      verifier accepts the expectations it is given. */
  lemma RespondReachesNext(d: Decision, verifier: Expectations -> bool)
    ensures CallNext in Respond(d, verifier).steps <==>
              d.Forward? || (d.Delegate? && verifier(d.expectations))
  {
  }

  /** `mwHandler.ServeHTTP` with the verifier as a verdict on expectations:
      the creation route goes straight to the next handler; a route that is no
      guarded endpoint is refused with 400; any other request reaches the
      next handler exactly when the verifier accepts the action its route
      demands on the request's resource. */
  function Serve(c: Consts, routeName: string, host: string, vars: map<string, string>,
                 verifier: Expectations -> bool): (r: Served)
    ensures (routeName == c.keystoresEndpoint) <==> r == Served([CheckRoute, CallNext], None)
    ensures (WriteBadRequest in r.steps) <==> routeName != c.keystoresEndpoint && !IsEndpointName(c, routeName)
    ensures r.verifierInput.Some? <==> routeName != c.keystoresEndpoint && IsEndpointName(c, routeName)
    ensures r.verifierInput.Some? ==>
              && r.verifierInput.value.target == Resource(c, host, vars)
              && r.verifierInput.value.rootCapability == Resource(c, host, vars)
              && DemandsAction(c, routeName, r.verifierInput.value.action)
    ensures (CallNext in r.steps) <==>
              routeName == c.keystoresEndpoint || (r.verifierInput.Some? && verifier(r.verifierInput.value))
  {
    var d := Decide(c, routeName, host, vars);
    DecideByRoute(c, routeName, host, vars);
    RespondBadRequest(d, verifier);
    RespondReachesNext(d, verifier);
    Respond(d, verifier)
  }

  /** A keystore-creation request goes to the next handler with no other step:
      no resource, no action, no verifier. */
  lemma ServeCreationBypass(c: Consts, host: string, vars: map<string, string>,
                            verifier: Expectations -> bool)
    ensures Serve(c, c.keystoresEndpoint, host, vars, verifier) == Served([CheckRoute, CallNext], None)
  {
  }

  /** Were the creation route one of the guarded names, requests on that
      endpoint would reach the next handler without the verifier: the reason
      `WellFormed` demands the two be different. */
  lemma CreationRouteShadowsEndpoint(c: Consts, e: Endpoint, host: string, vars: map<string, string>,
                                     verifier: Expectations -> bool)
    requires c.endpointName(e) == c.keystoresEndpoint
    ensures Serve(c, c.endpointName(e), host, vars, verifier) == Served([CheckRoute, CallNext], None)
  {
  }

  /** Any other request on a guarded endpoint reaches the next handler exactly
      when the verifier accepts that endpoint's action on the request's
      resource. */
  lemma ServeEndpoint(c: Consts, e: Endpoint, host: string, vars: map<string, string>,
                      verifier: Expectations -> bool)
    requires WellFormed(c)
    ensures var loc := Resource(c, host, vars);
            var x := Expectations(loc, loc, ActionOf(e));
            && Serve(c, c.endpointName(e), host, vars, verifier).verifierInput == Some(x)
            && (CallNext in Serve(c, c.endpointName(e), host, vars, verifier).steps <==> verifier(x))
  {
  }
}
