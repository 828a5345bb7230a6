/**
 * The session store of src/stores/auth.ts: one `authState` record that
 * `setAuth` replaces wholesale and `removeAuth` resets to the default.
 */
module AuthStore {
  import opened UserTypes

  /** `getDefaultValue`: the logged-out session with every string empty. */
  function DefaultValue(): (d: UserAuthenticationData)
    ensures !d.isLogged && d.token == "" && d.message == ""
    ensures d.user.email == "" && d.user.password == ""
  {
    UserAuthenticationData(UserGeneralInformation("", ""), "", "", false)
  }

  /** A write to the store. */
  datatype StoreOp = Set(data: UserAuthenticationData) | Remove

  /**
   * The state after one write: `setAuth(d)` stores `d` itself and
   * `removeAuth()` the default; neither keeps anything of the old state.
   */
  function Step(state: UserAuthenticationData, op: StoreOp): (r: UserAuthenticationData)
    ensures op.Set? ==> r == op.data
    ensures op.Remove? ==> r == DefaultValue()
  {
    match op
    case Set(d) => d
    case Remove => DefaultValue()
  }

  /**
   * The state after a sequence of writes, applied in order. It is always
   * the starting state, the default or one of the records stored: no
   * record is ever merged from several.
   */
  function Run(state: UserAuthenticationData, ops: seq<StoreOp>): (r: UserAuthenticationData)
    ensures ops == [] ==> r == state
    ensures r == state || r == DefaultValue() || exists i :: 0 <= i < |ops| && ops[i].Set? && r == ops[i].data
    decreases |ops|
  {
    if ops == [] then state
    else
      var r := Run(Step(state, ops[0]), ops[1..]);
      assert forall i :: 1 <= i < |ops| ==> ops[1..][i - 1] == ops[i];
      r
  }

  /** Writes compose: running `a` and then `b` is running `a + b`. */
  lemma {:induction false} RunAppend(state: UserAuthenticationData, a: seq<StoreOp>, b: seq<StoreOp>)
    ensures Run(state, a + b) == Run(Run(state, a), b)
    decreases |a|
  {
    if a != [] {
      assert (a + b)[0] == a[0];
      assert (a + b)[1..] == a[1..] + b;
      RunAppend(Step(state, a[0]), a[1..], b);
    } else {
      assert a + b == b;
    }
  }

  /**
   * Every write replaces the whole record, so after any non-empty sequence
   * of writes the state is decided by the last write alone: the data it
   * stored, or the default after `removeAuth`. Nothing of the earlier
   * state, and nothing of the earlier writes, survives.
   */
  lemma LastWriteWins(state: UserAuthenticationData, ops: seq<StoreOp>)
    requires ops != []
    ensures ops[|ops| - 1].Set? ==> Run(state, ops) == ops[|ops| - 1].data
    ensures ops[|ops| - 1].Remove? ==> Run(state, ops) == DefaultValue()
  {
    var n := |ops| - 1;
    assert ops == ops[..n] + [ops[n]];
    RunAppend(state, ops[..n], [ops[n]]);
  }

  /** The state reached by a sequence of writes does not depend on where it started. */
  lemma HistoryIndependent(s1: UserAuthenticationData, s2: UserAuthenticationData, ops: seq<StoreOp>)
    requires ops != []
    ensures Run(s1, ops) == Run(s2, ops)
  {
    LastWriteWins(s1, ops);
    LastWriteWins(s2, ops);
  }

  /** `removeAuth` is idempotent: a second reset changes nothing. */
  lemma RemoveIdempotent(state: UserAuthenticationData)
    ensures Run(state, [Remove, Remove]) == Run(state, [Remove])
    ensures Run(state, [Remove]) == DefaultValue()
  {
  }

  /**
   * `setAuth` checks nothing: a record that claims to be logged in with an
   * empty token, or logged out with a token, is stored exactly as given.
   */
  lemma SetStoresInconsistentRecords(state: UserAuthenticationData)
    ensures Run(state, [Set(UserAuthenticationData(UserGeneralInformation("", ""), "", "", true))]).isLogged
    ensures Run(state, [Set(UserAuthenticationData(UserGeneralInformation("", ""), "", "", true))]).token == ""
    ensures !Run(state, [Set(UserAuthenticationData(UserGeneralInformation("", ""), "T", "", false))]).isLogged
    ensures Run(state, [Set(UserAuthenticationData(UserGeneralInformation("", ""), "T", "", false))]).token == "T"
  {
  }

  /** The pinia store `useAuthStore`, with its `authState` ref as a field. */
  class Store {
    var authState: UserAuthenticationData
    /** The writes made so far, oldest first. */
    ghost var history: seq<StoreOp>

    /** The state is always the default with the history's writes applied. */
    ghost predicate Valid()
      reads this
    {
      authState == Run(DefaultValue(), history)
    }

    /** `ref(getDefaultValue())`: a new store starts logged out. */
    constructor ()
      ensures Valid() && history == []
      ensures authState == DefaultValue()
    {
      authState := DefaultValue();
      history := [];
    }

    /** `setAuth(authData)`: the state becomes exactly `authData`. */
    method SetAuth(authData: UserAuthenticationData)
      requires Valid()
      modifies this
      ensures Valid() && history == old(history) + [Set(authData)]
      ensures authState == authData
    {
      RunAppend(DefaultValue(), history, [Set(authData)]);
      authState := authData;
      history := history + [Set(authData)];
    }

    /** `removeAuth()`: the state becomes the default, whatever it was. */
    method RemoveAuth()
      requires Valid()
      modifies this
      ensures Valid() && history == old(history) + [Remove]
      ensures authState == DefaultValue()
      ensures !authState.isLogged && authState.token == ""
    {
      RunAppend(DefaultValue(), history, [Remove]);
      authState := DefaultValue();
      history := history + [Remove];
    }
  }

  /**
   * The store never makes up a session: what it holds is the default or a
   * record some `setAuth` call stored.
   */
  lemma StateWasStored(store: Store)
    requires store.Valid()
    ensures store.authState == DefaultValue() ||
      exists i :: 0 <= i < |store.history| && store.history[i] == Set(store.authState)
  {
  }

  /** What callers of the store can rely on: the writes below end logged out. */
  method RemoveAuthTwice(store: Store, d: UserAuthenticationData)
    requires store.Valid()
    modifies store
    ensures store.Valid() && store.authState == DefaultValue()
  {
    store.SetAuth(d);
    assert store.authState == d;
    store.RemoveAuth();
    var once := store.authState;
    store.RemoveAuth();
    assert store.authState == once;
  }
}
