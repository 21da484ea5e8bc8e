# Client-side store of the JWT authentication boilerplate

This project models the application's state container, `src/front/store.js`, in Dafny.

- The **store** is the record `{message, todos, token, user}`.
- `initialStore()` creates it. The message is null, the todos are two fixed seed items, and the token and user are read back from the browser's session storage.
- `storeReducer(store, action)` computes the next store for four action types. `set_hello` replaces the message. `add_task` recolours the todo with the given id. `set_token` logs in. `logout` logs out. Every other action type throws `Unknown action.`.
- `set_token` and `logout` also write the token and the JSON-encoded user to session storage, or remove them.

Layout:

- `store.dfy` (module `Store`) holds the data model, the `SessionStorage` class and the operations.
- The store, todos, users and actions are datatypes. JavaScript `null` is `None`.
- Session storage is a class with one `map<string, string>` field. Its `SetItem` and `RemoveItem` methods update that field in place.
- `StoreReducer` and `InitialStore` are methods over that storage, as in the source.
- Each method is proved against a pure specification. `StoreReducer` is specified by `Transition` for the returned store and `Persist` for the new storage. `InitialStore` is specified by `Bootstrap` over the storage contents.
- `store_lemmas.dfy` (module `StoreLemmas`) proves what each reducer case promises. It also proves what a reload of the page reads back after each case, and the invariants the reducer keeps.

Modelling choices:

- **JSON.** The serialisation of users is a parameter `Json(stringify, parse)`. It is not a parser. `parse` says whether a string is not JSON (`Malformed`, on which `JSON.parse` throws a SyntaxError), a value that `|| null` turns into null (`Falsy`), or a user (`Value`). The round-trip lemmas assume only `Faithful(json)`, i.e. `parse(stringify(u)) == Value(u)`. A missing `user` key parses as null, just as `JSON.parse(null)` does.
- **Empty token.** `getItem("token") || null` reads an empty stored token back as null. So after `set_token` with the empty token, the returned store holds `""` while a reload holds no token but still holds the user. `SetEmptyTokenThenReload` shows this case, and `ReducerKeepsInSync` excludes exactly this case. The reloaded store then holds a user and no token, which breaks the pairing of token and user (`EmptyTokenUnpairsReload`). `Reachable` is the storage invariant that rules this out, and `BootstrapPaired` proves that reachable storage bootstraps a paired store. The login endpoint always issues a non-empty token, so this is recorded here and not as a defect.
- **Action types.** The action's `type` string is a closed sum type here. `Unrecognised(kind)` stands for every action whose type is none of the four names. The model dispatches on the constructor, so it assumes that `kind` is not one of those names. The payload's type is `UnknownKind`, the strings for which `Handled` is false, so an action named like a handled one cannot be expressed as `Unrecognised`.
- **Users.** `User` carries the two fields the login endpoint returns, `id` and `email` (`src/api/routes.py:97-100`).

## Model

| member | source | states |
|---|---|---|
| `Store.SeedTodos` | src/front/store.js:4-15 | the fresh store has two todos, with ids 1 and 2, and neither has a background |
| `Store.Recolour` | src/front/store.js:33 | the `todos.map` keeps the length; each todo whose id matches keeps its id and title and takes the colour; every other todo is returned unchanged |
| `Store.Transition` | src/front/store.js:21-57 | an action fails exactly when it is none of the four, and then with `Unknown action.`; `message` changes only on `set_hello`, which sets it to the payload; `todos` changes only on `add_task` and always keeps its length; `token`/`user` change only on `set_token`, which sets them to the payload, and on `logout`, which nulls both |
| `Store.Persist` | src/front/store.js:36-54 | storage keys other than `token` and `user` never change; after `set_token`, `token` holds the payload token and `user` holds the encoded payload user; after `logout`, neither key is present; every other action leaves storage as it was |
| `Store.OrNull` | src/front/store.js:16 | the bootstrapped token is present exactly when the key is stored with a non-empty value, and then it equals that value |
| `Store.ParseStored` | src/front/store.js:17 | reading the user fails with a SyntaxError exactly when a stored value is not JSON; a user comes back only when the stored value decodes to that user; a missing key or a falsy value gives null |
| `Store.Bootstrap` | src/front/store.js:1-19 | the fresh store has a null message and the seed todos; its token is the stored token when that is non-empty, and null otherwise; its user is the decoded stored user, if any; it fails exactly when the stored user is not JSON |
| `Store.InitialStore` | src/front/store.js:1-19 | reading the two keys from session storage gives the store `Bootstrap` describes |
| `Store.StoreReducer` | src/front/store.js:21-59 | returns `Transition`'s store or error, and leaves session storage as `Persist` describes |
| `Store.SessionStorage.GetItem` | src/front/store.js:16-17 | `getItem` gives the stored string exactly when the key is present, and null when it is absent |
| `Store.SessionStorage.SetItem` | src/front/store.js:38-39 | `setItem` binds the key to the value and leaves every other key alone |
| `Store.SessionStorage.RemoveItem` | src/front/store.js:48-49 | `removeItem` drops the key and leaves every other key alone |
| `StoreLemmas.SetHelloOnlyMessage` | src/front/store.js:23-27 | `set_hello` changes the message to the payload and nothing else; storage is untouched |
| `StoreLemmas.AddTaskKeepsOrder` | src/front/store.js:29-34 | `add_task` keeps the todos' length, order, ids and titles; only matching todos get `background := color`; the other fields and storage are untouched |
| `StoreLemmas.AddTaskUnknownId` | src/front/store.js:33 | `add_task` with an id that no todo carries returns the todos unchanged |
| `StoreLemmas.AddTaskIdempotent` | src/front/store.js:33 | repeating `add_task` with the same payload changes nothing more |
| `StoreLemmas.SetTokenStores` | src/front/store.js:36-44 | `set_token` sets `token`/`user` to the payload, keeps `message`/`todos`, and writes exactly the two keys to storage |
| `StoreLemmas.LogoutClears` | src/front/store.js:46-54 | `logout` nulls `token`/`user`, keeps `message`/`todos`, and removes exactly the two keys |
| `StoreLemmas.UnknownActionThrows` | src/front/store.js:22-57 | an action whose type is none of the four handled names throws `Unknown action.` and never returns a store; storage is untouched |
| `StoreLemmas.SetTokenThenReload` | src/front/store.js:16-17 | after `set_token` with a non-empty token, a reload reads back the same token and user that the reducer returned |
| `StoreLemmas.SetEmptyTokenThenReload` | src/front/store.js:16 | after `set_token` with the empty token, the store holds `""` but a reload reads a null token and the user |
| `StoreLemmas.LogoutThenReload` | src/front/store.js:4-17 | after `logout`, a reload gives no token, no user, and the seed todos 1 and 2 with no background |
| `StoreLemmas.TransitionKeepsPaired` | src/front/store.js:40-54 | a store whose token and user are both set or both null stays so under every action |
| `StoreLemmas.PersistKeepsKeysPaired` | src/front/store.js:38-49 | the `token` and `user` keys are always set together and removed together |
| `StoreLemmas.PersistKeepsReachable` | src/front/store.js:36-54 | with a faithful codec and non-empty tokens, the reducer's storage writes keep the keys paired, and keep every stored token non-empty and stored beside a decodable user |
| `StoreLemmas.BootstrapPaired` | src/front/store.js:1-19 | from reachable storage, `initialStore` does not throw and gives a store whose token and user are both set or both null |
| `StoreLemmas.EmptyTokenUnpairsReload` | src/front/store.js:16 | after `set_token` with the empty token, a reload gives a store with a user and no token |
| `StoreLemmas.BootstrapInSync` | src/front/store.js:16-17 | a bootstrapped store agrees with what a reload of the same storage gives; this is the base case of the invariant `ReducerKeepsInSync` preserves |
| `StoreLemmas.ReducerKeepsInSync` | src/front/store.js:36-54 | every accepted action except `set_token` with the empty token keeps the store's token and user equal to what a reload would read |
| `StoreLemmas.LoginThenReload` | src/front/store.js:36-44 | running the reducer on `set_token` and then `initialStore` on the same storage gives back the token and user of the store the reducer returned |
| `StoreLemmas.LogoutThenReloadStore` | src/front/store.js:46-54 | running the reducer on `logout` and then `initialStore` gives the same null token and user as the reducer's store, plus the seed todos |

## Left out

- The real JSON encoding and decoding of users is not modelled. It is the abstract pair `Json`, and the reload lemmas assume only that decoding an encoded user gives it back. Parsed JSON values that are truthy but are not a user object (a number, a string) are not represented.
- `JSON.stringify` throwing (on a cyclic value) is not modelled, because the payload user is a plain record.
- `setItem` converts non-string values to strings. The payload token is a string here, so that conversion is not modelled.
- The action `type` string is not modelled as a string. An action is one of the four constructors or `Unrecognised`. Payloads of the wrong shape are not represented, such as a missing `add_task` payload, whose destructuring would throw a TypeError.
- The browser's session-storage lifetime is not modelled. Session storage belongs to one tab, is copied only into a duplicated tab, and is cleared when the tab's session ends. Here storage is a map that persists between calls.
- Store.SessionStorage.SetItem: never fails. The browser's `setItem` can throw, with a QuotaExceededError when the encoded user is too large or a SecurityError when storage is disabled. If the write of `user` at `src/front/store.js:39` throws after the write of `token` at line 38 succeeded, the new token is stored beside the old user and the reducer throws. The model does not capture this half-written state. `StoreLemmas.PersistKeepsKeysPaired` ("set together and removed together") holds only because both writes always succeed.
- The view components are not models. `src/front/pages/Login.jsx`, `src/front/pages/Signup.jsx`, `src/front/pages/Private.jsx` and `src/front/components/Navbar.jsx` are network I/O, React state, rendering and navigation. The React hook that holds the store is not part of this model.
- The server is not modelled. `src/api/routes.py` consists of Flask handlers over the database, password hashing and JWT creation.
