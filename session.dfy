/**
 * How the store, the client's interceptors and the navigation guards act
 * together over a session: the writes the application makes to the store
 * interleaved with requests through the shared client.
 */
module Session {
  import opened Wrappers
  import opened Js
  import opened ErrorTypes
  import opened UserTypes
  import opened AuthStore
  import opened HttpClient
  import opened Router

  /**
   * The guards as the router runs them, reading `isLogged` from the store
   * at decision time (and nothing else of it): a logged-out store sends
   * protected pages to `/login`, a logged-in one sends the login and
   * register pages to `/`, and whatever a redirect targets passes.
   */
  function Guard(store: Store, path: string): (d: Decision)
    reads store
    ensures !store.authState.isLogged && Protected(path) ==> d == Redirect("/login")
    ensures store.authState.isLogged && AuthPage(path) ==> d == Redirect("/")
    ensures !((!store.authState.isLogged && Protected(path)) || (store.authState.isLogged && AuthPage(path))) ==> d == Allow
    ensures d.Redirect? ==> Navigate(d.target, store.authState.isLogged) == Allow
  {
    NavigateDecision(path, store.authState.isLogged);
    NoRedirectLoop(path, store.authState.isLogged);
    Navigate(path, store.authState.isLogged)
  }

  /** Something that happens to the session: a store write, or a request through the client. */
  datatype Event = Write(op: StoreOp) | Call(headers: map<string, string>, reply: Transport)

  /** Where a run of events leaves the store, and the headers each request went out with. */
  datatype Trace = Trace(state: UserAuthenticationData, sent: seq<map<string, string>>)

  /** How many of the events are requests through the client. */
  function Calls(events: seq<Event>): (n: nat)
    ensures n <= |events|
  {
    if events == [] then 0
    else (if events[0].Call? then 1 else 0) + Calls(events[1..])
  }

  /**
   * The events applied in order, from the given state. Each request sends
   * one set of headers and a write sends none, and the session ends in the starting state,
   * the default or a record some write stored: requests never make up a
   * session, they can only reset it.
   */
  function Replay(state: UserAuthenticationData, events: seq<Event>): (t: Trace)
    ensures events == [] ==> t == Trace(state, [])
    ensures |t.sent| == Calls(events)
    ensures |t.sent| <= |events|
    ensures t.state == state || t.state == DefaultValue() ||
      exists i :: 0 <= i < |events| && events[i].Write? && events[i].op.Set? && t.state == events[i].op.data
    decreases |events|
  {
    if events == [] then Trace(state, [])
    else
      assert forall i :: 1 <= i < |events| ==> events[1..][i - 1] == events[i];
      match events[0]
      case Write(op) => Replay(Step(state, op), events[1..])
      case Call(headers, reply) =>
        var x := Request(state, headers, reply);
        var rest := Replay(x.state, events[1..]);
        Trace(rest.state, [x.sent] + rest.sent)
  }

  /** No event logs in: the store is never given a new record. */
  predicate NoLogin(events: seq<Event>)
  {
    forall i :: 0 <= i < |events| ==> !(events[i].Write? && events[i].op.Set?)
  }

  /** No caller sets an `Authorization` header of its own. */
  predicate NoCallerCredential(events: seq<Event>)
  {
    forall i :: 0 <= i < |events| && events[i].Call? ==> AuthorizationHeader !in events[i].headers
  }

  /**
   * Once logged out with no token, a session stays so until something logs
   * in again, and none of its requests carries a bearer credential: resets
   * and 401s keep it logged out, and other errors leave it alone.
   */
  lemma {:induction false} LoggedOutStaysLoggedOut(state: UserAuthenticationData, events: seq<Event>)
    requires !state.isLogged && state.token == ""
    requires NoLogin(events) && NoCallerCredential(events)
    ensures !Replay(state, events).state.isLogged && Replay(state, events).state.token == ""
    ensures |Replay(state, events).sent| <= |events|
    ensures forall i :: 0 <= i < |Replay(state, events).sent| ==> AuthorizationHeader !in Replay(state, events).sent[i]
    decreases |events|
  {
    if events != [] {
      assert NoLogin(events[1..]) && NoCallerCredential(events[1..]) by {
        forall i | 0 <= i < |events[1..]|
          ensures !(events[1..][i].Write? && events[1..][i].op.Set?)
          ensures events[1..][i].Call? ==> AuthorizationHeader !in events[1..][i].headers
        {
          assert events[1..][i] == events[i + 1];
        }
      }
      match events[0]
      case Write(op) =>
        assert !(events[0].Write? && events[0].op.Set?);
        LoggedOutStaysLoggedOut(Step(state, op), events[1..]);
      case Call(headers, reply) =>
        assert AuthorizationHeader !in headers;
        var x := Request(state, headers, reply);
        LoggedOutStaysLoggedOut(x.state, events[1..]);
    }
  }

  /**
   * A 401 signs the user out for good: the failing request is still
   * rejected with its own error, the store is back at its default, every
   * later request goes out without a bearer credential until the next
   * login, and every protected page then sends the user to `/login`.
   */
  lemma AfterUnauthorized(state: UserAuthenticationData, headers: map<string, string>, error: AxiosError, later: seq<Event>, path: string)
    requires error.response.Some? && error.response.value.status == Unauthorized
    requires NoLogin(later) && NoCallerCredential(later)
    ensures Request(state, headers, Failed(error)).outcome == Rejected(Axios(error))
    ensures Request(state, headers, Failed(error)).state == DefaultValue()
    ensures !Replay(state, [Call(headers, Failed(error))] + later).state.isLogged
    ensures forall i :: 1 <= i < |Replay(state, [Call(headers, Failed(error))] + later).sent| ==>
      AuthorizationHeader !in Replay(state, [Call(headers, Failed(error))] + later).sent[i]
    ensures Protected(path) ==> Navigate(path, Replay(state, [Call(headers, Failed(error))] + later).state.isLogged) == Redirect("/login")
  {
    var events := [Call(headers, Failed(error))] + later;
    assert events[0] == Call(headers, Failed(error)) && events[1..] == later;
    LoggedOutStaysLoggedOut(DefaultValue(), later);
    if Protected(path) {
      LoggedOutProtectedGoesToLogin(path);
    }
  }

  /**
   * A request sent after a login carries the token that login stored: the
   * interceptor reads the store when the request leaves, not before.
   */
  lemma RequestAfterLogin(state: UserAuthenticationData, d: UserAuthenticationData, headers: map<string, string>, reply: Transport)
    requires d.token != ""
    ensures |Replay(state, [Write(Set(d)), Call(headers, reply)]).sent| == 1
    ensures AuthorizationHeader in Replay(state, [Write(Set(d)), Call(headers, reply)]).sent[0]
    ensures ParseBearer(Replay(state, [Write(Set(d)), Call(headers, reply)]).sent[0][AuthorizationHeader]) == Some(d.token)
  {
    var events := [Write(Set(d)), Call(headers, reply)];
    assert events[1..] == [Call(headers, reply)] && events[1..][1..] == [];
    assert Replay(state, events) == Replay(d, [Call(headers, reply)]);
    assert Replay(d, [Call(headers, reply)]).sent == [WithBearer(headers, d.token)];
  }

  /**
   * The 401 scenario on the objects themselves: after a request answered
   * with 401, the next request leaves without a bearer credential and a
   * protected page redirects to `/login`.
   */
  method SignedOutAfterUnauthorized(store: Store, first: RequestConfig, next: RequestConfig, error: AxiosError)
    returns (outcome: Outcome)
    requires store.Valid()
    requires error.response.Some? && error.response.value.status == Unauthorized
    requires AuthorizationHeader !in next.headers
    requires first != next
    modifies store, first, next
    ensures outcome == Rejected(Axios(error))
    ensures store.Valid() && store.authState == DefaultValue()
    ensures AuthorizationHeader !in next.headers
    ensures Guard(store, "/articles") == Redirect("/login")
  {
    outcome := Send(store, first, Failed(error));
    var _ := OnRequest(next, store);
    ProtectedRoutes("/articles");
    LoggedOutProtectedGoesToLogin("/articles");
  }
}
