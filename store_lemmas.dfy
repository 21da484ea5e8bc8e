/** What the reducer and the bootstrap promise, case by case and across a
    reload of the page. */
module StoreLemmas {
  import opened Store

  /** `set_hello` replaces the message and nothing else, in the store or in
      session storage. */
  lemma SetHelloOnlyMessage(store: Store, m: Option<string>, items: map<string, string>, json: Json)
    ensures Transition(store, SetHello(m)) == Ok(Store(m, store.todos, store.token, store.user))
    ensures Persist(items, SetHello(m), json) == items
  {
  }

  /** `add_task` keeps the order of the todos: the i-th todo keeps its id
      and title, and only a todo whose id matches changes its background. */
  lemma AddTaskKeepsOrder(store: Store, id: int, color: Option<string>, items: map<string, string>, json: Json)
    ensures Transition(store, AddTask(id, color)).Ok?
    ensures var r := Transition(store, AddTask(id, color)).value;
      && r.message == store.message && r.token == store.token && r.user == store.user
      && |r.todos| == |store.todos|
      && (forall i :: 0 <= i < |r.todos| ==>
            r.todos[i].id == store.todos[i].id && r.todos[i].title == store.todos[i].title)
      && (forall i :: 0 <= i < |r.todos| ==>
            r.todos[i].background == if store.todos[i].id == id then color else store.todos[i].background)
    ensures Persist(items, AddTask(id, color), json) == items
  {
  }

  /** `add_task` for an id that no todo carries is no error and changes
      nothing. */
  lemma AddTaskUnknownId(todos: seq<Todo>, id: int, color: Option<string>)
    requires forall i :: 0 <= i < |todos| ==> todos[i].id != id
    ensures Recolour(todos, id, color) == todos
  {
  }

  /** Recolouring twice with the same payload is recolouring once. */
  lemma AddTaskIdempotent(todos: seq<Todo>, id: int, color: Option<string>)
    ensures Recolour(Recolour(todos, id, color), id, color) == Recolour(todos, id, color)
  {
  }

  /** `set_token` puts the token and the user into the store and the token
      and the encoded user into session storage, and touches nothing else. */
  lemma SetTokenStores(store: Store, t: string, u: User, items: map<string, string>, json: Json)
    ensures Transition(store, SetToken(t, u)) == Ok(Store(store.message, store.todos, Some(t), Some(u)))
    ensures Persist(items, SetToken(t, u), json) == items[TokenKey := t][UserKey := json.stringify(u)]
  {
  }

  /** `logout` nulls the token and the user in the store and removes both
      keys from session storage, and touches nothing else. */
  lemma LogoutClears(store: Store, items: map<string, string>, json: Json)
    ensures Transition(store, Logout) == Ok(Store(store.message, store.todos, None, None))
    ensures Persist(items, Logout, json) == items - {TokenKey, UserKey}
  {
  }

  /** Any other action throws 'Unknown action.', returns no store and leaves
      session storage alone. */
  lemma UnknownActionThrows(store: Store, kind: UnknownKind, items: map<string, string>, json: Json)
    ensures Transition(store, Unrecognised(kind)) == Err(UnknownAction("Unknown action."))
    ensures Persist(items, Unrecognised(kind), json) == items
  {
  }

  /** After `set_token` with a non-empty token, a reload bootstraps the same
      token and user the reducer returned. */
  lemma SetTokenThenReload(store: Store, t: string, u: User, items: map<string, string>, json: Json)
    requires Faithful(json)
    requires t != ""
    ensures Bootstrap(Persist(items, SetToken(t, u), json), json)
      == Ok(Store(None, SeedTodos(), Some(t), Some(u)))
    ensures var r := Transition(store, SetToken(t, u)).value;
      var b := Bootstrap(Persist(items, SetToken(t, u), json), json).value;
      b.token == r.token && b.user == r.user
  {
  }

  /** After `set_token` with the empty token the reducer's store holds the
      empty string, but `|| null` makes a reload read the token as null
      while the user still reads back. */
  lemma SetEmptyTokenThenReload(store: Store, u: User, items: map<string, string>, json: Json)
    requires Faithful(json)
    ensures Transition(store, SetToken("", u)).value.token == Some("")
    ensures Bootstrap(Persist(items, SetToken("", u), json), json)
      == Ok(Store(None, SeedTodos(), None, Some(u)))
  {
  }

  /** After `logout`, a reload bootstraps the fresh store: no token, no user,
      and the two seed todos with ids 1 and 2 and no background. */
  lemma LogoutThenReload(items: map<string, string>, json: Json)
    ensures var b := Bootstrap(Persist(items, Logout, json), json);
      && b == Ok(Store(None, SeedTodos(), None, None))
      && |b.value.todos| == 2 && b.value.todos[0].id == 1 && b.value.todos[1].id == 2
      && b.value.todos[0].background == None && b.value.todos[1].background == None
  {
  }

  /** The store's token and user are both set or both null. */
  predicate Paired(store: Store)
  {
    store.token.Some? <==> store.user.Some?
  }

  /** Every store the reducer returns keeps token and user paired. */
  lemma TransitionKeepsPaired(store: Store, action: Action)
    requires Paired(store)
    ensures Transition(store, action).Ok? ==> Paired(Transition(store, action).value)
  {
  }

  /** Session storage holds the token key exactly when it holds the user key. */
  predicate KeysPaired(items: map<string, string>)
  {
    TokenKey in items <==> UserKey in items
  }

  /** The reducer sets and clears the two keys together. */
  lemma PersistKeepsKeysPaired(items: map<string, string>, action: Action, json: Json)
    requires KeysPaired(items)
    ensures KeysPaired(Persist(items, action, json))
  {
  }

  /** Session storage as the reducer leaves it when every token it was
      given is non-empty: the two keys are paired, and a stored token is
      non-empty and stored beside a user that decodes. */
  predicate Reachable(items: map<string, string>, json: Json)
  {
    && KeysPaired(items)
    && (TokenKey in items ==> items[TokenKey] != "" && json.parse(items[UserKey]).Value?)
  }

  /** The reducer keeps session storage reachable, given a faithful codec
      and non-empty tokens. */
  lemma PersistKeepsReachable(items: map<string, string>, action: Action, json: Json)
    requires Faithful(json)
    requires Reachable(items, json)
    requires action.SetToken? ==> action.token != ""
    ensures Reachable(Persist(items, action, json), json)
  {
  }

  /** From reachable storage, `initialStore` succeeds and its store has
      token and user paired: the base case of `TransitionKeepsPaired`. */
  lemma BootstrapPaired(items: map<string, string>, json: Json)
    requires Reachable(items, json)
    ensures Bootstrap(items, json).Ok?
    ensures Paired(Bootstrap(items, json).value)
  {
  }

  /** An empty token breaks the pairing on reload: the store read back holds
      a user and no token. */
  lemma EmptyTokenUnpairsReload(u: User, items: map<string, string>, json: Json)
    requires Faithful(json)
    ensures Bootstrap(Persist(items, SetToken("", u), json), json).Ok?
    ensures !Paired(Bootstrap(Persist(items, SetToken("", u), json), json).value)
  {
  }

  /** A reload of the page would give back the store's token and user. */
  predicate InSync(store: Store, items: map<string, string>, json: Json)
  {
    var b := Bootstrap(items, json);
    b.Ok? && b.value.token == store.token && b.value.user == store.user
  }

  /** The fresh store is in sync with the storage it was read from: the
      base case of the invariant that `ReducerKeepsInSync` preserves (it
      holds by the definition of `InSync`). */
  lemma BootstrapInSync(items: map<string, string>, json: Json)
    requires Bootstrap(items, json).Ok?
    ensures InSync(Bootstrap(items, json).value, items, json)
  {
  }

  /** Every action the reducer accepts keeps the store in sync with session
      storage, except `set_token` with the empty token. */
  lemma ReducerKeepsInSync(store: Store, items: map<string, string>, action: Action, json: Json)
    requires Faithful(json)
    requires InSync(store, items, json)
    requires action.SetToken? ==> action.token != ""
    ensures Transition(store, action).Ok? ==>
      InSync(Transition(store, action).value, Persist(items, action, json), json)
  {
  }

  /** Logging in and then reloading the page: the reloaded store carries the
      token and the user of the login. */
  method LoginThenReload(store: Store, t: string, u: User, storage: SessionStorage, json: Json)
    returns (next: Result<Store>, reloaded: Result<Store>)
    requires Faithful(json)
    requires t != ""
    modifies storage
    ensures next.Ok? && reloaded.Ok?
    ensures reloaded.value.token == next.value.token && reloaded.value.user == next.value.user
    ensures reloaded == Ok(Store(None, SeedTodos(), Some(t), Some(u)))
  {
    next := StoreReducer(store, SetToken(t, u), storage, json);
    SetTokenThenReload(store, t, u, old(storage.items), json);
    reloaded := InitialStore(storage, json);
  }

  /** Logging out and then reloading the page: the reloaded store is
      logged out. */
  method LogoutThenReloadStore(store: Store, storage: SessionStorage, json: Json)
    returns (next: Result<Store>, reloaded: Result<Store>)
    modifies storage
    ensures next.Ok? && reloaded.Ok?
    ensures reloaded.value.token == next.value.token && reloaded.value.user == next.value.user
    ensures reloaded.value.token == None && reloaded.value.user == None
    ensures reloaded.value.todos == SeedTodos()
  {
    next := StoreReducer(store, Logout, storage, json);
    reloaded := InitialStore(storage, json);
  }
}
