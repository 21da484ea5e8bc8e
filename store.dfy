/** The client-side state container of the application (src/front/store.js):
    the store record, the reducer that computes the next store from an action,
    the session storage the reducer writes the login state to, and the
    bootstrap that reads that state back when the store is created. */
module Store {

  datatype Option<T> = None | Some(value: T)

  /** What a call either returns or throws. */
  datatype Result<T> = Ok(value: T) | Err(error: Error)

  /** The two exceptions the container can raise: the reducer's
      `Error('Unknown action.')`, and the SyntaxError of `JSON.parse` on a
      stored user value that is not JSON. */
  datatype Error = UnknownAction(message: string) | SyntaxError

  const UnknownActionMessage: string := "Unknown action."

  /** The four action types the reducer handles. */
  predicate Handled(kind: string)
  {
    kind in {"set_hello", "add_task", "set_token", "logout"}
  }

  /** The two session-storage keys the container owns. */
  const TokenKey: string := "token"
  const UserKey: string := "user"

  /** The user record the login endpoint returns beside the token. */
  datatype User = User(id: int, email: string)

  datatype Todo = Todo(id: int, title: string, background: Option<string>)

  /** The store record; `None` stands for JavaScript's `null`. */
  datatype Store = Store(
    message: Option<string>,
    todos: seq<Todo>,
    token: Option<string>,
    user: Option<User>)

  /** The actions the reducer handles, each with its payload, and every
      other action, whose `type` is none of the four handled names. */
  datatype Action =
    | SetHello(message: Option<string>)
    | AddTask(id: int, color: Option<string>)
    | SetToken(token: string, user: User)
    | Logout
    | Unrecognised(kind: UnknownKind)

  /** An action type the reducer does not handle. */
  type UnknownKind = k: string | !Handled(k) witness ""

  /** What `JSON.parse` makes of a stored string: not JSON at all (it
      throws), a value that `|| null` replaces by null, or a user. */
  datatype Parsed = Malformed | Falsy | Value(user: User)

  /** The JSON serialisation of users, kept abstract: an encoder and a
      decoder, related only by `Faithful`. */
  datatype Json = Json(stringify: User -> string, parse: string -> Parsed)

  /** Decoding what was encoded gives the user back. */
  ghost predicate Faithful(json: Json)
  {
    forall u :: json.parse(json.stringify(u)) == Value(u)
  }

  /** The browser's session storage: a string-keyed map of strings that
      persists between calls. */
  class SessionStorage {
    var items: map<string, string>

    constructor (items: map<string, string>)
      ensures this.items == items
    {
      this.items := items;
    }

    /** `getItem`: the stored string, or null when the key is absent. */
    function GetItem(key: string): (r: Option<string>)
      reads this
      ensures r == Lookup(items, key)
      ensures r.Some? <==> key in items
      ensures r.Some? ==> r.value == items[key]
    {
      Lookup(items, key)
    }

    /** `setItem`: binds `key` to `value`, leaving every other key alone. */
    method SetItem(key: string, value: string)
      modifies this
      ensures items == old(items)[key := value]
    {
      items := items[key := value];
    }

    /** `removeItem`: drops `key` (a no-op when absent). */
    method RemoveItem(key: string)
      modifies this
      ensures items == old(items) - {key}
    {
      items := items - {key};
    }
  }

  /** The two todos every fresh store starts with. */
  function SeedTodos(): (r: seq<Todo>)
    ensures |r| == 2 && r[0].id == 1 && r[1].id == 2
    ensures forall i :: 0 <= i < |r| ==> r[i].background == None
  {
    [Todo(1, "Make the bed", None), Todo(2, "Do my homework", None)]
  }

  /** The `todos.map` of `add_task`: the todo(s) whose id is `id` take the
      colour as background, every other todo is kept as it is. */
  function Recolour(todos: seq<Todo>, id: int, color: Option<string>): (r: seq<Todo>)
    ensures |r| == |todos|
    ensures forall i :: 0 <= i < |todos| && todos[i].id == id ==>
      r[i].id == id && r[i].title == todos[i].title && r[i].background == color
    ensures forall i :: 0 <= i < |todos| && todos[i].id != id ==> r[i] == todos[i]
  {
    if todos == [] then []
    else
      var head := if todos[0].id == id then todos[0].(background := color) else todos[0];
      [head] + Recolour(todos[1..], id, color)
  }

  /** The store the reducer returns, or the exception it throws. */
  function Transition(store: Store, action: Action): (r: Result<Store>)
    ensures r.Err? <==> action.Unrecognised?
    ensures r.Err? ==> r.error == UnknownAction(UnknownActionMessage)
    ensures r.Ok? ==> |r.value.todos| == |store.todos|
    ensures r.Ok? && !action.SetHello? ==> r.value.message == store.message
    ensures r.Ok? && !action.AddTask? ==> r.value.todos == store.todos
    ensures r.Ok? && !action.SetToken? && !action.Logout? ==>
      r.value.token == store.token && r.value.user == store.user
    ensures action.SetHello? ==> r.Ok? && r.value.message == action.message
    ensures action.SetToken? ==> r.Ok? && r.value.token == Some(action.token) && r.value.user == Some(action.user)
    ensures action.Logout? ==> r.Ok? && r.value.token == None && r.value.user == None
  {
    match action
    case SetHello(m) => Ok(store.(message := m))
    case AddTask(id, color) => Ok(store.(todos := Recolour(store.todos, id, color)))
    case SetToken(t, u) => Ok(store.(token := Some(t), user := Some(u)))
    case Logout => Ok(store.(token := None, user := None))
    case Unrecognised(_) => Err(UnknownAction(UnknownActionMessage))
  }

  /** The session storage after the reducer has handled `action`. */
  function Persist(items: map<string, string>, action: Action, json: Json): (r: map<string, string>)
    ensures forall k :: k != TokenKey && k != UserKey ==>
      (k in r <==> k in items) && (k in r ==> r[k] == items[k])
    ensures action.SetToken? ==>
      TokenKey in r && r[TokenKey] == action.token &&
      UserKey in r && r[UserKey] == json.stringify(action.user)
    ensures action.Logout? ==> TokenKey !in r && UserKey !in r
    ensures !action.SetToken? && !action.Logout? ==> r == items
  {
    match action
    case SetToken(t, u) => items[TokenKey := t][UserKey := json.stringify(u)]
    case Logout => items - {TokenKey, UserKey}
    case _ => items
  }

  /** `getItem(key) || null` for a string value: the empty string is falsy
      and reads back as null. */
  function OrNull(stored: Option<string>): (r: Option<string>)
    ensures r.Some? <==> stored.Some? && stored.value != ""
    ensures r.Some? ==> r == stored
  {
    if stored == Some("") then None else stored
  }

  /** `JSON.parse(getItem(key)) || null`: a missing key parses as null. */
  function ParseStored(stored: Option<string>, json: Json): (r: Result<Option<User>>)
    ensures r.Err? <==> stored.Some? && json.parse(stored.value).Malformed?
    ensures r.Err? ==> r.error == SyntaxError
    ensures r.Ok? && r.value.Some? ==> stored.Some? && json.parse(stored.value) == Value(r.value.value)
    ensures r.Ok? && r.value.None? ==> stored.None? || json.parse(stored.value).Falsy?
  {
    match stored
    case None => Ok(None)
    case Some(s) =>
      match json.parse(s)
      case Malformed => Err(SyntaxError)
      case Falsy => Ok(None)
      case Value(u) => Ok(Some(u))
  }

  /** The value a string-keyed storage map holds for `key`, or null when
      the key is absent. */
  function Lookup(items: map<string, string>, key: string): Option<string>
  {
    if key in items then Some(items[key]) else None
  }

  /** The store `initialStore()` builds over session storage `items`. */
  function Bootstrap(items: map<string, string>, json: Json): (r: Result<Store>)
    ensures r.Err? <==> UserKey in items && json.parse(items[UserKey]).Malformed?
    ensures r.Err? ==> r.error == SyntaxError
    ensures r.Ok? ==> r.value.message == None && r.value.todos == SeedTodos()
    ensures r.Ok? ==> (r.value.token.Some? <==> TokenKey in items && items[TokenKey] != "")
    ensures r.Ok? && r.value.token.Some? ==> r.value.token.value == items[TokenKey]
    ensures r.Ok? ==> (r.value.user.Some? <==> UserKey in items && json.parse(items[UserKey]).Value?)
    ensures r.Ok? && r.value.user.Some? ==> json.parse(items[UserKey]) == Value(r.value.user.value)
  {
    var token := OrNull(Lookup(items, TokenKey));
    var user := ParseStored(Lookup(items, UserKey), json);
    if user.Err? then Err(user.error)
    else Ok(Store(None, SeedTodos(), token, user.value))
  }

  /** `initialStore()`: reads the token and the user back from session
      storage and seeds the rest of the store. */
  method InitialStore(storage: SessionStorage, json: Json) returns (r: Result<Store>)
    ensures r == Bootstrap(storage.items, json)
  {
    var token := OrNull(storage.GetItem(TokenKey));
    var user := ParseStored(storage.GetItem(UserKey), json);
    if user.Err? {
      return Err(user.error);
    }
    r := Ok(Store(None, SeedTodos(), token, user.value));
  }

  /** `storeReducer(store, action)`: the next store, after writing the login
      state to (or clearing it from) session storage; an unrecognised action
      throws and leaves storage alone. */
  method StoreReducer(store: Store, action: Action, storage: SessionStorage, json: Json)
    returns (r: Result<Store>)
    modifies storage
    ensures r == Transition(store, action)
    ensures storage.items == Persist(old(storage.items), action, json)
  {
    match action {
      case SetHello(m) =>
        r := Ok(store.(message := m));
      case AddTask(id, color) =>
        r := Ok(store.(todos := Recolour(store.todos, id, color)));
      case SetToken(t, u) =>
        storage.SetItem(TokenKey, t);
        storage.SetItem(UserKey, json.stringify(u));
        r := Ok(store.(token := Some(t), user := Some(u)));
      case Logout =>
        storage.RemoveItem(TokenKey);
        storage.RemoveItem(UserKey);
        assert storage.items == old(storage.items) - {TokenKey, UserKey};
        r := Ok(store.(token := None, user := None));
      case Unrecognised(_) =>
        r := Err(UnknownAction(UnknownActionMessage));
    }
  }
}
