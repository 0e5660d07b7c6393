/** The client's re-authenticating base query: every endpoint's request
    goes through it. It sends the request; on a 401 it asks the server for
    a fresh session and, if that yields data, replays the request once;
    if the refresh fails it logs the user out and hands back the refresh's
    own failure.

    The network is a scripted oracle: `oracle(i, d)` is what the `i`-th
    base-query call of this invocation, sending `d`, resolves to. Each
    invocation is modelled on its own; concurrent invocations, which the
    code does not coordinate, are not. */
module Reauth {
  import opened Js
  import opened Http

  /** A JSON value as the client receives it. An array is an object too:
      besides its items it can carry named properties, as it does once the
      wrapper assigns it a message. */
  datatype Json =
    | Null
    | Bool(b: bool)
    | Num(n: int)
    | Str(s: string)
    | Obj(fields: map<string, Json>)
    | Arr(items: seq<Json>, props: map<string, Json>)

  /** Whether assigning a property to the value succeeds. Module code is
      strict, so on `null`, a boolean, a number or a string it throws. */
  predicate TakesProperty(v: Json)
  {
    v.Obj? || v.Arr?
  }

  /** The named properties of an object or an array. */
  function Props(v: Json): map<string, Json>
    requires TakesProperty(v)
  {
    if v.Obj? then v.fields else v.props
  }

  /** JavaScript truthiness of a received value. */
  predicate JsonTruthy(v: Json)
  {
    match v
    case Null => false
    case Bool(b) => b
    case Num(n) => n != 0
    case Str(s) => s != ""
    case Obj(_) => true
    case Arr(_, _) => true
  }

  /** `error.status`: an HTTP status, or one of the fetch layer's own kinds
      (a network failure, a body that does not parse, ...). */
  datatype ErrStatus = Http(code: int) | NonHttp(kind: string)

  /** `error.data` is the parsed body when there is one. */
  datatype QueryError = QueryError(status: ErrStatus, data: Option<Json>)

  /** What one base-query call resolves to: `{ data }` or `{ error }`. */
  datatype QueryResult = Ok(data: Json) | Err(error: QueryError)

  /** The scripted network. */
  type Oracle = (nat, Descriptor) -> QueryResult

  /** What the wrapper does that the caller can observe besides its result. */
  datatype Effect = Call(request: Descriptor) | DispatchLogout

  /** How an invocation ends: with a result, or with a TypeError thrown by
      the wrapper itself. */
  datatype Outcome = Returned(result: QueryResult) | Threw

  const RefreshUrl := "/api/users/refresh"
  const ExpiredMessage := "Your login has expired."

  /** The refresh request: a bare URL string, hence a GET. */
  function RefreshRequest(): (d: Descriptor)
    ensures d.verb == GET && d.url == RefreshUrl && d.body == NoBody
  {
    Get(RefreshUrl)
  }

  predicate IsUnauthorized(r: QueryResult)
  {
    r.Err? && r.error.status == Http(401)
  }

  /** `refreshResult.data` is truthy. */
  predicate RefreshSucceeded(r: QueryResult)
  {
    r.Ok? && JsonTruthy(r.data)
  }

  /** `refreshResult.error.data.message = ...`: only a body that is an
      object or an array takes the property; anything else, or no body at
      all, throws. */
  function RewriteMessage(e: QueryError): (r: Option<QueryError>)
    ensures r.Some? <==> e.data.Some? && TakesProperty(e.data.value)
    ensures r.Some? ==> r.value.status == e.status && r.value.data.Some?
    ensures r.Some? ==> e.data.value.Obj? ==> r.value.data.value.Obj?
    ensures r.Some? ==> e.data.value.Arr? ==>
      r.value.data.value.Arr? && r.value.data.value.items == e.data.value.items
    ensures r.Some? ==> var before := Props(e.data.value); var after := Props(r.value.data.value);
      "message" in after && after["message"] == Str(ExpiredMessage) &&
      (forall k :: k in before && k != "message" ==> k in after && after[k] == before[k]) &&
      (forall k :: k in after ==> k == "message" || k in before)
  {
    if e.data.Some? && e.data.value.Obj? then
      Some(QueryError(e.status, Some(Obj(e.data.value.fields["message" := Str(ExpiredMessage)]))))
    else if e.data.Some? && e.data.value.Arr? then
      var body := e.data.value;
      Some(QueryError(e.status, Some(Arr(body.items, body.props["message" := Str(ExpiredMessage)]))))
    else None
  }

  /** The wrapper written the way the code reads, top to bottom. This is
      the reference the state machine below is proved against. */
  function Reauth(args: Descriptor, oracle: Oracle): (Outcome, seq<Effect>)
  {
    var first := oracle(0, args);
    if !IsUnauthorized(first) then (Returned(first), [Call(args)])
    else
      var refresh := oracle(1, RefreshRequest());
      if RefreshSucceeded(refresh) then
        (Returned(oracle(2, args)), [Call(args), Call(RefreshRequest()), Call(args)])
      else if refresh.Ok? then
        // `refreshResult.error` is undefined: reading `.status` throws
        (Threw, [Call(args), Call(RefreshRequest())])
      else if refresh.error.status == Http(403) then
        match RewriteMessage(refresh.error)
        case None => (Threw, [Call(args), Call(RefreshRequest())])
        case Some(e) => (Returned(Err(e)), [Call(args), Call(RefreshRequest()), DispatchLogout])
      else
        (Returned(refresh), [Call(args), Call(RefreshRequest()), DispatchLogout])
  }

  /** The base-query calls among the effects. */
  function Calls(effects: seq<Effect>): (r: seq<Descriptor>)
    ensures |r| <= |effects|
    ensures forall d :: d in r <==> Call(d) in effects
  {
    if effects == [] then []
    else if effects[0].Call? then [effects[0].request] + Calls(effects[1..])
    else Calls(effects[1..])
  }

  /** Where an invocation is between two awaits. */
  datatype Phase =
    | Start
    | Sent(first: QueryResult)
    | Refreshed(refresh: QueryResult)
    | Finished(outcome: Outcome)

  datatype Machine = Machine(args: Descriptor, phase: Phase, effects: seq<Effect>)

  /** Awaits still to come from each phase. */
  function Remaining(p: Phase): nat
  {
    match p
    case Start => 3
    case Sent(_) => 2
    case Refreshed(_) => 1
    case Finished(_) => 0
  }

  /** One step: the next await, or the decision after it. */
  function Step(m: Machine, oracle: Oracle): (r: Machine)
    requires !m.phase.Finished?
    ensures r.args == m.args
    ensures Remaining(r.phase) < Remaining(m.phase)
    ensures |m.effects| <= |r.effects| && r.effects[..|m.effects|] == m.effects
  {
    var n := |Calls(m.effects)|;
    match m.phase
    case Start =>
      m.(phase := Sent(oracle(n, m.args)), effects := m.effects + [Call(m.args)])
    case Sent(first) =>
      if !IsUnauthorized(first) then m.(phase := Finished(Returned(first)))
      else m.(phase := Refreshed(oracle(n, RefreshRequest())), effects := m.effects + [Call(RefreshRequest())])
    case Refreshed(refresh) =>
      if RefreshSucceeded(refresh) then
        m.(phase := Finished(Returned(oracle(n, m.args))), effects := m.effects + [Call(m.args)])
      else if refresh.Ok? then m.(phase := Finished(Threw))
      else if refresh.error.status == Http(403) then
        match RewriteMessage(refresh.error)
        case None => m.(phase := Finished(Threw))
        case Some(e) => m.(phase := Finished(Returned(Err(e))), effects := m.effects + [DispatchLogout])
      else m.(phase := Finished(Returned(refresh)), effects := m.effects + [DispatchLogout])
  }

  /** Calls counts the calls appended one at a time. */
  lemma {:induction false} CallsAppend(a: seq<Effect>, e: Effect)
    ensures Calls(a + [e]) == if e.Call? then Calls(a) + [e.request] else Calls(a)
    decreases |a|
  {
    if a == [] {
      assert [] + [e] == [e];
      assert [e][1..] == [];
    } else {
      assert (a + [e])[0] == a[0];
      assert (a + [e])[1..] == a[1..] + [e];
      CallsAppend(a[1..], e);
    }
  }

  lemma TwoCalls(args: Descriptor)
    ensures Calls([Call(args), Call(RefreshRequest())]) == [args, RefreshRequest()]
  {
    assert [Call(args), Call(RefreshRequest())][1..] == [Call(RefreshRequest())];
    assert Calls([Call(RefreshRequest())]) == [RefreshRequest()];
  }

  /** The machine's state after `k` steps agrees with the reference, phase
      by phase. */
  predicate Tracks(m: Machine, args: Descriptor, oracle: Oracle)
  {
    var first := oracle(0, args);
    var refresh := oracle(1, RefreshRequest());
    m.args == args &&
    match m.phase
    case Start => m.effects == []
    case Sent(r) => r == first && m.effects == [Call(args)]
    case Refreshed(r) =>
      IsUnauthorized(first) && r == refresh && m.effects == [Call(args), Call(RefreshRequest())]
    case Finished(o) => (o, m.effects) == Reauth(args, oracle)
  }

  lemma StepTracks(m: Machine, args: Descriptor, oracle: Oracle)
    requires !m.phase.Finished? && Tracks(m, args, oracle)
    ensures Tracks(Step(m, oracle), args, oracle)
  {
    match m.phase
    case Start =>
      assert Calls([]) == [];
    case Sent(_) =>
      assert Calls([Call(args)]) == [args];
    case Refreshed(_) =>
      TwoCalls(args);
      var two := [Call(args), Call(RefreshRequest())];
      assert two + [Call(args)] == [Call(args), Call(RefreshRequest()), Call(args)];
      assert two + [DispatchLogout] == [Call(args), Call(RefreshRequest()), DispatchLogout];
  }

  /** Runs one invocation to completion, await by await. */
  method Invoke(args: Descriptor, oracle: Oracle) returns (outcome: Outcome, effects: seq<Effect>)
    ensures (outcome, effects) == Reauth(args, oracle)
  {
    var m := Machine(args, Start, []);
    while !m.phase.Finished?
      invariant Tracks(m, args, oracle)
      decreases Remaining(m.phase)
    {
      StepTracks(m, args, oracle);
      m := Step(m, oracle);
    }
    outcome := m.phase.outcome;
    effects := m.effects;
  }

  /** At most three base-query calls per invocation, the first of them the
      caller's own request. */
  lemma AtMostThreeCalls(args: Descriptor, oracle: Oracle)
    ensures 1 <= |Calls(Reauth(args, oracle).1)| <= 3
    ensures Calls(Reauth(args, oracle).1)[0] == args
  {
    var effects := Reauth(args, oracle).1;
    TraceCalls(args);
    if !IsUnauthorized(oracle(0, args)) {
      assert effects == [Call(args)];
    } else if RefreshSucceeded(oracle(1, RefreshRequest())) {
      assert effects == [Call(args), Call(RefreshRequest()), Call(args)];
    } else {
      assert effects == [Call(args), Call(RefreshRequest())] ||
        effects == [Call(args), Call(RefreshRequest()), DispatchLogout];
    }
  }

  /** The calls among each of the four effect traces the wrapper can leave. */
  lemma TraceCalls(args: Descriptor)
    ensures Calls([Call(args)]) == [args]
    ensures Calls([Call(args), Call(RefreshRequest())]) == [args, RefreshRequest()]
    ensures Calls([Call(args), Call(RefreshRequest()), Call(args)]) == [args, RefreshRequest(), args]
    ensures Calls([Call(args), Call(RefreshRequest()), DispatchLogout]) == [args, RefreshRequest()]
  {
    var two := [Call(args), Call(RefreshRequest())];
    TwoCalls(args);
    assert Calls([Call(args)]) == [args] by {
      assert [Call(args)][1..] == [];
    }
    CallsAppend(two, Call(args));
    assert two + [Call(args)] == [Call(args), Call(RefreshRequest()), Call(args)];
    CallsAppend(two, DispatchLogout);
    assert two + [DispatchLogout] == [Call(args), Call(RefreshRequest()), DispatchLogout];
  }

  /** A result that is not a 401 is handed back untouched, after a single
      call and with no refresh. */
  lemma PassThrough(args: Descriptor, oracle: Oracle)
    requires !IsUnauthorized(oracle(0, args))
    ensures Reauth(args, oracle) == (Returned(oracle(0, args)), [Call(args)])
  {
  }

  /** On a 401 exactly one refresh is sent, second, as a GET of the
      refresh URL. */
  lemma OneRefreshOn401(args: Descriptor, oracle: Oracle)
    requires IsUnauthorized(oracle(0, args))
    ensures var effects := Reauth(args, oracle).1;
      |effects| >= 2 && effects[1] == Call(Get(RefreshUrl)) &&
      forall i :: 0 <= i < |effects| && i != 1 ==> effects[i] != Call(Get(RefreshUrl)) || args == Get(RefreshUrl)
  {
  }

  /** A refresh that yields data is followed by exactly one replay, whose
      result is returned as it is, even if it is another 401: there is no
      second refresh and no logout. */
  lemma ReplayOnce(args: Descriptor, oracle: Oracle)
    requires IsUnauthorized(oracle(0, args)) && RefreshSucceeded(oracle(1, RefreshRequest()))
    ensures Reauth(args, oracle) ==
      (Returned(oracle(2, args)), [Call(args), Call(RefreshRequest()), Call(args)])
    ensures DispatchLogout !in Reauth(args, oracle).1
  {
  }

  /** A failed refresh logs the user out and returns the refresh's own
      error, not the original 401; a 403 has its message replaced. */
  lemma RefreshFailureLogsOut(args: Descriptor, oracle: Oracle)
    requires IsUnauthorized(oracle(0, args))
    requires oracle(1, RefreshRequest()).Err?
    requires oracle(1, RefreshRequest()).error.status != Http(403)
    ensures Reauth(args, oracle) ==
      (Returned(oracle(1, RefreshRequest())), [Call(args), Call(RefreshRequest()), DispatchLogout])
  {
  }

  lemma ExpiredSessionMessage(args: Descriptor, oracle: Oracle)
    requires IsUnauthorized(oracle(0, args))
    requires oracle(1, RefreshRequest()).Err? && oracle(1, RefreshRequest()).error.status == Http(403)
    requires oracle(1, RefreshRequest()).error.data.Some? && TakesProperty(oracle(1, RefreshRequest()).error.data.value)
    ensures Reauth(args, oracle).1 == [Call(args), Call(RefreshRequest()), DispatchLogout]
    ensures var o := Reauth(args, oracle).0;
      o.Returned? && o.result.Err? && o.result.error.status == Http(403) &&
      o.result.error.data.Some? && TakesProperty(o.result.error.data.value) &&
      "message" in Props(o.result.error.data.value) &&
      Props(o.result.error.data.value)["message"] == Str(ExpiredMessage)
  {
  }

  /** `logout` is dispatched exactly when the first call was a 401 and the
      refresh came back as an error the wrapper could hand on. */
  lemma LogoutOnlyOnRefreshFailure(args: Descriptor, oracle: Oracle)
    ensures var first := oracle(0, args);
      var refresh := oracle(1, RefreshRequest());
      DispatchLogout in Reauth(args, oracle).1 <==>
        IsUnauthorized(first) && refresh.Err? &&
        (refresh.error.status == Http(403) ==> RewriteMessage(refresh.error).Some?)
  {
  }

  /** The wrapper throws only after a 401, when the refresh neither
      yielded data nor an error it could rewrite. */
  lemma ThrowsOnlyOnBadRefresh(args: Descriptor, oracle: Oracle)
    ensures Reauth(args, oracle).0.Threw? <==>
      IsUnauthorized(oracle(0, args)) && !RefreshSucceeded(oracle(1, RefreshRequest())) &&
      (oracle(1, RefreshRequest()).Ok? ||
       (oracle(1, RefreshRequest()).error.status == Http(403) && RewriteMessage(oracle(1, RefreshRequest()).error).None?))
  {
  }
}
