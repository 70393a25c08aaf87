# Task manager: verified model of the backend store, the client session and the route logic

This project models the core of a small personal task manager. The manager has three parts:

- an Express backend (`Back/server.js`) that keeps users (`usuarios`) and tasks (`tarefas`) in one JSON document;
- the Angular client service `ApiService`, which holds the login session and turns failed requests into messages;
- the root component `App`, which records the current route and decides whether the navigation bar is shown.

Modules:

- `Sequences` (sequences.dfy): `Array.prototype.filter` and `findIndex` as functions on sequences, with their characterising lemmas. `find(p)` is expressed as `findIndex(p)`, since an object returned by `find` is always truthy.
- `Server` (server.dfy): the document is a `Database` object with the two sequences as fields. Each route is one member:
  - `Register` for `/api/novo-usuario`;
  - `Login` for `/api/login`;
  - `ListTasks`, `CreateTask`, `UpdateTask` and `DeleteTask` for GET, POST, PUT and DELETE on `/api/tarefas`.

  Queries are functions that read the object. Writes are methods that modify it and return the status code and body they would send. Two asymmetries from the code are kept:
  - update changes only the first task with the id (`findIndex`);
  - delete removes every task with the id (`filter`).
- `Api` (api.ts): the session fields `usuarioLogado` and `autenticado`. `Logado` mirrors `autenticado`, as the `computed` `logado` does. Also modelled:
  - the login `tap` (`OnLoginResponse`);
  - `Logout`;
  - `tratarErros`, split into the pure message `ErrorMessage` and the method `TratarErros`, which also logs out on a server 401.

  JavaScript's `||` fallback is modelled with its truthiness: an empty server message falls back too. `Erro ${status}` uses a decimal rendering `NatToString`, which has a round-trip lemma.
- `AppComponent` (app.ts):
  - `BeforeFirst` models `split(c)[0]`;
  - `CleanRoute` is the two-step cleaning;
  - `ShowNavbar` models `mostrarBarraNavegacao`;
  - the class `App` holds `rotaAtual`.
- `Scenarios` (scenarios.dfy): request sequences built on the contracts. They cover deleting twice, registering twice, registering then logging in, creating then listing, and the whole login exchange from server answer to client session.

Inputs that the code takes from the environment are parameters:
- the new identifier, which the code takes from `Date.now()`;
- the integer the code obtains with `parseInt` from a path parameter.

Where the code is specific, the model follows it:
- names are the Portuguese ones used in the code;
- delete removes every task with the id;
- update changes only the first task with the id;
- new identifiers are not assumed to be unique or increasing, because `Date.now()` guarantees neither;
- email uniqueness is checked only at registration, so it is proved as an invariant that registration preserves, not assumed of the stored document.

## Model

| member | source | states |
|---|---|---|
| `Sequences.Filter` | Back/server.js:72 | the result holds exactly the input's elements that satisfy the predicate, is no longer than the input, and is empty iff no element satisfies it |
| `Sequences.FindIndex` | Back/server.js:98-99 | -1 iff no element satisfies the predicate; otherwise an in-range index whose element satisfies it and before which none does |
| `Sequences.FilterAppend` | Back/server.js:112 | filtering distributes over concatenation, so retained elements keep their relative order |
| `Sequences.FilterKeepsAll` | Back/server.js:111-113 | the filtered length equals the original length iff every element satisfies the predicate, and then the result is the input itself |
| `Sequences.FilterIdempotent` | Back/server.js:112 | filtering a filtered sequence again by the same predicate changes nothing |
| `Sequences.FindIndexAppendFirst` | Back/server.js:40-44 | appending a matching element to a sequence without matches makes the first match the old length |
| `Server.AppendKeepsEmailsUnique` | Back/server.js:40-44 | appending a user whose email no user holds preserves email uniqueness |
| `Server.RegisteredUserLogsIn` | Back/server.js:40-53 | after appending a user with a free email, the first user matching that email and password is the appended one |
| `Server.CreatedTaskIsListed` | Back/server.js:72-88 | after appending a task, its owner's filtered list is the previous list followed by that task |
| `Server.DeleteTwiceRemovesNothing` | Back/server.js:111-115 | filtering out an id a second time leaves the sequence and its length unchanged, so the second delete is a 404 |
| `Server.Overwrite` | Back/server.js:102 | the spread keeps the task's `id` and `usuarioId` and takes `titulo`, `descricao`, `dataVencimento` and `finalizada` from the request |
| `Server.Database.constructor` | Back/server.js:20-23 | the loaded document holds the given users and tasks |
| `Server.Database.Register` | Back/server.js:37-47 | a taken email gives 409 with users and tasks unchanged; otherwise 201 with the new user `{id, nome, email, senha}`, appended last, and tasks unchanged; email uniqueness is preserved |
| `Server.Database.Login` | Back/server.js:50-59 | 401 with "Credenciais inválidas." iff no user has both the email and the password; otherwise 200 with the first such user; the store is only read |
| `Server.Database.ListTasks` | Back/server.js:68-74 | always 200; the list is `Filter` of the stored tasks by owner, so it keeps stored order and every copy (`Sequences.FilterAppend`); it holds exactly the owner's tasks and is empty iff the owner has none; the store is only read |
| `Server.Database.CreateTask` | Back/server.js:77-91 | appends one task with the given owner and fields, the fresh id and `finalizada` false; answers 201 with it; users unchanged |
| `Server.Database.UpdateTask` | Back/server.js:94-105 | unknown id: 404 and store unchanged; otherwise only the first task with the id is replaced, keeping its `id` and `usuarioId` and taking the four request fields; 200 with it; length and users unchanged |
| `Server.Database.DeleteTask` | Back/server.js:108-118 | removes every task with the id, keeping the rest in order; 404 with the store unchanged iff no task had the id, which is iff the length did not change; 200 otherwise |
| `Api.NatToString` | Front/Gerenciador-Tarefas/src/app/services/api.ts:165 | the decimal rendering of a status is a non-empty digit string without a leading zero |
| `Api.NatToStringRoundTrip` | Front/Gerenciador-Tarefas/src/app/services/api.ts:165 | reading the rendered digits back gives the status |
| `Api.ServerMessageOr` | Front/Gerenciador-Tarefas/src/app/services/api.ts:159 | `error.error?.message || fallback`: the server's message when present and non-empty, the fallback otherwise |
| `Api.ErrorMessage` | Front/Gerenciador-Tarefas/src/app/services/api.ts:142-167 | ErrorEvent first ("Erro: " + message); 401, 404 and 500 give fixed messages whatever the body; 409 and other statuses use a non-empty server message, else "Conflito de dados" or "Erro <status>"; the message is never empty |
| `Api.FallbackMessagesDistinct` | Front/Gerenciador-Tarefas/src/app/services/api.ts:164-165 | for statuses outside the switch and no server message, two messages are equal iff the statuses are |
| `Api.ApiService.constructor` | Front/Gerenciador-Tarefas/src/app/services/api.ts:44-48 | the session starts with no user, not authenticated, not `logado` |
| `Api.ApiService.Logado` | Front/Gerenciador-Tarefas/src/app/services/api.ts:48 | `logado` always equals the authenticated flag |
| `Api.ApiService.OnLoginResponse` | Front/Gerenciador-Tarefas/src/app/services/api.ts:70-80 | an answer carrying a user stores only its `id`, `nome` and `email` and sets authenticated; an answer without one leaves the session unchanged; the session invariant is kept |
| `Api.ApiService.Logout` | Front/Gerenciador-Tarefas/src/app/services/api.ts:86-89 | no user, not authenticated, not `logado` |
| `Api.ApiService.TratarErros` | Front/Gerenciador-Tarefas/src/app/services/api.ts:142-171 | returns `ErrorMessage` of the error; a server-side 401 logs out; any other error leaves the session unchanged |
| `AppComponent.BeforeFirst` | Front/Gerenciador-Tarefas/src/app/app.ts:50 | the result is a prefix of the input without the separator, and stops at the separator's first occurrence or at the end |
| `AppComponent.CleanRoute` | Front/Gerenciador-Tarefas/src/app/app.ts:50 | the route is a prefix of the URL containing neither `?` nor `#`; it ends at the URL's first `?` or `#`, or is the whole URL when it has neither |
| `AppComponent.CleanRouteIdempotent` | Front/Gerenciador-Tarefas/src/app/app.ts:50 | cleaning a cleaned route returns it unchanged |
| `AppComponent.CleanRouteUnique` | Front/Gerenciador-Tarefas/src/app/app.ts:50 | any prefix with `CleanRoute`'s three properties equals `CleanRoute`'s result |
| `AppComponent.ShowNavbar` | Front/Gerenciador-Tarefas/src/app/app.ts:26-42 | shown iff authenticated and the route is neither "/login" nor "/"; never shown when not authenticated |
| `AppComponent.App.constructor` | Front/Gerenciador-Tarefas/src/app/app.ts:22 | the recorded route starts empty |
| `AppComponent.App.SetRoute` | Front/Gerenciador-Tarefas/src/app/app.ts:44-58 | the recorded route is the cleaned URL, a prefix of it without `?` or `#` |
| `AppComponent.App.MostrarBarraNavegacao` | Front/Gerenciador-Tarefas/src/app/app.ts:29-42 | the navigation bar is shown iff the service is authenticated and the recorded route is not public |
| `AppComponent.LogoutHidesNavbar` | Front/Gerenciador-Tarefas/src/app/app.ts:41 | after a logout the bar is hidden, whatever the route |
| `Scenarios.DeleteTwice` | Back/server.js:108-118 | a second delete of the same id answers 404, and the tasks are those the first delete left |
| `Scenarios.RegisterTwice` | Back/server.js:37-47 | the second registration with the same email answers 409; emails stay unique and the email is held |
| `Scenarios.RegisterThenLogin` | Back/server.js:37-59 | registering with a free email and then logging in with the same credentials returns the registered user with its new id |
| `Scenarios.CreateThenList` | Back/server.js:68-91 | the created task is listed last for its owner with `finalizada` false, after the owner's earlier tasks |
| `Scenarios.LoginRoundTrip` | Front/Gerenciador-Tarefas/src/app/services/api.ts:65-83 | after the server answers and the client reacts, the session is authenticated iff the credentials match a user; it then holds that user without password; otherwise the message is "Credenciais inválidas" |

## Left out

- File persistence (`readDatabase`/`saveDatabase`, `JSON.parse`/`JSON.stringify`): the document is the in-memory `Database`. A failed read is I/O and is not modelled. Handlers that answer with an error return before saving. The model expresses that as the fields being unchanged.
- Express glue: routing, `cors`, `express.json`, `app.listen` and the `/test` liveness route.
- `Date.now()` and `parseInt`: both become integer parameters. A path parameter that is not a number gives `NaN` in the code, which equals no id. Listing would then answer an empty list, and update and delete would answer 404. The model has no `NaN`.
- JSON typing: request fields are modelled as present and of the declared type. The code would store `undefined` for a missing field. It would also not match an owner sent as a string against the integer path parameter.
- Response key names: the create answer puts the task under `tarefas` and the update answer under `Tarefa`. The client's interfaces expect `tarefa`. Bodies are modelled by their content, not by their JSON keys.
- Concurrency: read-modify-write races between simultaneous requests.
- Angular plumbing: `HttpClient`, Observables, `pipe`/`tap`/`catchError`/`throwError`, signals as a reactive mechanism, `inject`, Router events and subscriptions, `ngOnDestroy`, and `console.log`/`console.error`.
- Request-forwarding methods of `ApiService` (`novoUsuario`, `obterTarefas`, `criarTarefa`, `atualizarTarefa`, `deletarTarefa`): each only sends an HTTP request and attaches `tratarErros`. The getter `obterUsuarioLogado` only returns the field.
- `Api.ErrorMessage`: a server `message` that is not a string, and an `ErrorEvent` whose message is undefined, are not modelled. Messages are strings or absent.
- `Api.HttpError`: the status is a natural number, as in `HttpErrorResponse`, so a negative status is not modelled.
- The authentication guard, the login form component, the navigation bar component, the route table and the component smoke test: these are UI or configuration. Front/Gerenciador-Tarefas/src/app/components/tarefas and Front/Gerenciador-Tarefas/src/app/components/principal are not part of this model.
