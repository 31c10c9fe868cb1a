# Centrifuge request handling, modelled in Dafny

This project models three pieces of the request handling of the Centrifuge
real-time messaging gateway:

- **`ApiHandler.post`** (`src/centrifuge/handlers.py`), the handler for one-shot
  signed API calls. It runs a fixed sequence of protocol checks. Each check
  either ends the request with an HTTP error (400, 401, 404 or 500) or lets it
  through. A request that passes them all gets one JSON reply built from a
  `Response`: `uid`, `method`, `error` and `body` are filled in step by step,
  from envelope validation, the method lookup in `admin_params_schema`,
  params validation and `process_call`.
- **`SockjsConnection`** (same file), the callbacks of a persistent
  connection: open, message and close.
- **`Response`** (`src/centrifuge/response.py`), the reply record with five
  optional fields, and its projection `as_message`.

## Files

- `wrappers.dfy`: module `Wrappers`, an `Option` datatype.
- `python_values.dfy`: module `PythonValues`. Dynamically typed values as
  `Json` (`Null` stands for Python's `None`), Python truthiness (`Truthy`),
  `dict.get` (`Get`), and hashability.
- `response.dfy`: module `Responses`. `Response` is a datatype whose
  constructor defaults match `Response.__init__`, so `Response()` and
  `Response(error := e)` read as they do in Python. `AsMessage` is the
  projection and `FromMessage` is its inverse. `handlers.py:14` imports
  `Response` from `.core`; the model takes that class to be the one
  defined in `response.py`.
- `api_handler.dfy`: module `ApiHandler`. Each collaborator is a
  function-valued field of `Collaborators`: `extract_auth_info`,
  `get_project_by_id`, `check_auth`, `decode_data`, `jsonschema.validate`
  (as a `Verdict`), `req_schema`, the `admin_params_schema` table and
  `process_call`. `Post` is the handler, written as in the source: a chain
  of early returns, then in-place updates of a local `response`. It also
  returns the list of collaborator calls it made, with their arguments.
  This makes it possible to state what `check_auth` was given and which
  collaborators were never reached. `Post` is proved against a reference
  definition:
  - `ProtocolGates` lists the nine tests of lines 55-84 in source order, plus the
    exception `auth_info.get('sign')` raises at line 62 for a non-dictionary.
  - `FirstFailing` finds the first test that fails, which decides the error.
  - `Answer` is the structured reply of lines 86-114.
  - `Expected` and `CallsMade` combine these into the outcome and the call trace.
- `sockjs_connection.dfy`: module `Connection`. The classes
  `SockjsConnection` and `Client` and their state: the client binding, the
  heartbeat flag and the closed flag.

The model follows the code as written on these points:

- `on_open` constructs the `Client` before it tests the session
  (`handlers.py:120`). So a client is bound even when there is no session
  and the connection then closes itself.
- `on_close` ends with `del self.client` (`handlers.py:132`). So a second
  `on_close`, or a message after close, has no client to use: the
  attribute lookup would raise. The model states this as a `requires
  client != null` on `OnMessage` and `OnClose`. It is not a no-op.
- `post` indexes `auth_info` with `.get('sign')` (`handlers.py:62`), and that
  raises unless `auth_info` is a dictionary. `extract_auth_info` is not
  part of this model, so `auth_info` is any value. When its error is
  falsy and `auth_info` is not a dictionary, the model answers
  `HttpError(500)`.
- Under the `else` branch of the envelope validation, `post` calls
  `data.get(...)` and evaluates `method in admin_params_schema`. If `data`
  is not a dictionary, or the method value is a list or a dictionary
  (unhashable), these raise exceptions the handler does not catch, and
  Tornado answers with status 500. The model returns `HttpError(500)` for
  both cases. The schemas themselves are not part of this model, so
  nothing rules these cases out.

## Model

| member | source | states |
|---|---|---|
| `Responses.AsMessage` | src/centrifuge/response.py:16-23 | the message has exactly the keys uid, method, params, error, body |
| `Responses.FromMessage` | src/centrifuge/response.py:16-23 | reading a response back from a message and projecting it again gives the same message exactly when the message has only the five keys |
| `Responses.DefaultResponseIsEmpty` | src/centrifuge/response.py:9-14 | `Response()` has all five fields None, and so does every value of its message |
| `Responses.ConstructorThenMessage` | src/centrifuge/response.py:9-23 | the message of `Response(u, m, p, e, b)` maps uid, method, params, error, body to u, m, p, e, b in that order, and reading it back gives the same response |
| `Responses.MessageRoundTrip` | src/centrifuge/response.py:16-23 | the projection loses nothing: `FromMessage(AsMessage(r)) == r` |
| `Responses.AsMessageInjective` | src/centrifuge/response.py:16-23 | two responses with equal messages are equal |
| `ApiHandler.FirstFailing` | src/centrifuge/handlers.py:55-84 | the index it returns is a failing gate with every earlier gate passing; it returns none exactly when every gate passes |
| `ApiHandler.FirstFailingAt` | src/centrifuge/handlers.py:55-84 | a failing gate whose predecessors all pass is the one that decides |
| `ApiHandler.Post` | src/centrifuge/handlers.py:51-114 | the handler's outcome is the first failing protocol gate's status, otherwise the structured reply; its collaborator calls are exactly those of the reference |
| `ApiHandler.EmptyBodyIsBadRequest` | src/centrifuge/handlers.py:55-56 | an empty body is a 400 whatever the auth data, project or payload, and no collaborator is called |
| `ApiHandler.RejectedAt` | src/centrifuge/handlers.py:55-84 | a request stopped by a protocol test gets that test's status, and only the collaborators that feed the tests up to it are called |
| `ApiHandler.Admitted` | src/centrifuge/handlers.py:55-114 | a request passing every protocol test gets the structured reply, after all four protocol-tier calls |
| `ApiHandler.AuthFailureIsUnauthorized` | src/centrifuge/handlers.py:58-64 | an `extract_auth_info` error, or a dictionary `auth_info` with a missing or empty sign, is a 401; the only call made is `extract_auth_info`, so the project is never looked up |
| `ApiHandler.AuthInfoNotDictionary` | src/centrifuge/handlers.py:58-62 | with no extraction error, an `auth_info` that is not a dictionary makes `.get('sign')` raise: a 500, with the project never looked up |
| `ApiHandler.ProjectLookupFailures` | src/centrifuge/handlers.py:66-70 | after authentication, a lookup error is a 500, tested before a missing project, which is a 404; either way `check_auth` is never reached |
| `ApiHandler.RawBodyGateNeverFires` | src/centrifuge/handlers.py:72-74 | the second empty-body test never decides a request |
| `ApiHandler.SignatureVerification` | src/centrifuge/handlers.py:72-84 | `check_auth` is called third, with the project, the sign and the raw body; a verifier error is a 500 and a false result a 401, both before `decode_data` is called; a falsy decode result is a 400 |
| `ApiHandler.SignatureCheckedOnRawBodyBeforeDecoding` | src/centrifuge/handlers.py:72-82 | on every request, `check_auth` gets exactly the raw body, and `decode_data` is only ever the fourth call, right after `check_auth`, on the same raw body |
| `ApiHandler.PassesProtocolGatesIff` | src/centrifuge/handlers.py:55-84 | a request gets past line 84 if and only if every protocol test passes |
| `ApiHandler.RepliesPastProtocolGates` | src/centrifuge/handlers.py:86-114 | past line 84 the outcome is one JSON reply exactly when the envelope is invalid, or it is a dictionary with a hashable method; the other outcome is a 500 |
| `ApiHandler.EnvelopeInvalidReply` | src/centrifuge/handlers.py:86-91 | an envelope failing `req_schema` gets a reply with the validation message as error and uid, method, params and body None; nothing is called after that validation |
| `ApiHandler.UnknownMethodReply` | src/centrifuge/handlers.py:93-101 | a method not in `admin_params_schema` gets uid and method copied from the data, error "method not found" and no body; `process_call` is not called |
| `ApiHandler.InvalidParamsReply` | src/centrifuge/handlers.py:103-106 | params failing the method's schema get uid, method and the validation message only; `process_call` is not called |
| `ApiHandler.DispatchedReply` | src/centrifuge/handlers.py:107-114 | a valid call is dispatched once, as the last of seven calls and by no earlier one, with the project, method and params; the reply's body and error are `process_call`'s result and error, and uid and method are copied unchanged |
| `Connection.Client.constructor` | src/centrifuge/handlers.py:120 | a new client is tied to its connection and info, with nothing received and not closed |
| `Connection.Client.MessageReceived` | src/centrifuge/handlers.py:128 | the client has received exactly one more message, this one |
| `Connection.Client.Close` | src/centrifuge/handlers.py:131 | the client is closed and what it received is unchanged |
| `Connection.SockjsConnection.constructor` | src/centrifuge/handlers.py:117 | a new connection has no client bound, no heartbeat and is not closed |
| `Connection.SockjsConnection.OnOpen` | src/centrifuge/handlers.py:119-125 | a fresh client is always bound; the heartbeat starts exactly when a session exists and its transport is not rawwebsocket; the connection closes itself exactly when there is no session |
| `Connection.SockjsConnection.OnMessage` | src/centrifuge/handlers.py:127-128 | the message is appended, unchanged, to what the bound client received |
| `Connection.SockjsConnection.OnClose` | src/centrifuge/handlers.py:130-132 | the bound client is closed, then the binding is removed; the heartbeat and closed flags are unchanged |
| `Connection.Lifetime` | src/centrifuge/handlers.py:119-132 | open, one message and close: the bound client got exactly that message and was closed, the binding is gone, the heartbeat ran exactly when needed, and the connection closed itself exactly when there was no session |

## Left out

- Tornado plumbing: `set_header`, `finish`, `json_encode`, raising `HTTPError`, `check_xsrf_cookie`. An outcome is `HttpError(code)` or `Reply(response)`; the reply's JSON body is `AsMessage(response)`.
- The log messages given to `HTTPError`, including `str(error)`: only the status code is modelled.
- `BaseHandler.get_current_user` (secure cookies) and `BaseHandler.opts` (settings): not used by the modelled code.
- The internals of `auth.extract_auth_info`, `auth.decode_data`, `structure.get_project_by_id`, `structure.check_auth`, `process_call` and `jsonschema.validate`, and the schemas `req_schema` and `admin_params_schema`. These files are not part of this model. Each collaborator is a function or value given to the handler, so nothing is proved about how strong the signature check is.
- Collaborator results of the wrong shape: `extract_auth_info`, `get_project_by_id`, `check_auth` and `process_call` are assumed to return a pair, as the tuple unpacking at `handlers.py:58`, `:66`, `:76` and `:108` expects. A result that cannot be unpacked (which would raise) is not modelled.
- Exceptions raised inside a collaborator: each collaborator always returns a result.
- The `@coroutine` scheduling: every `yield` is a plain call, and interleaving between requests or connections is not modelled.
- Replaying a request: `Expected` and `CallsMade` are functions of the request and the collaborators, so two replays against the same collaborators end the same way by construction.
- Calling `as_message` twice: `Response` is a value and `AsMessage` a function, so both calls return the same map by construction.
- Floating-point values in truthiness tests: `Json` numbers are integers.
- The SockJS transport, `sockjs.tornado.SockJSConnection` (including what `self.close()` itself does), the heartbeat timer and the internals of `Client`. The model keeps booleans for "the heartbeat was started" and "close() was called". The `Client` stand-in only records the messages it is handed and whether it was closed.
- Connection.SockjsConnection.OnMessage: requires a bound client. A message before `on_open` or after `on_close` raises in the source, and that raise is not modelled as an outcome.
- Connection.SockjsConnection.OnClose: requires a bound client. A second `on_close` raises in the source (the attribute was deleted), and that raise is not modelled.
- Connection.SockjsConnection.OnOpen: the heartbeat flag is stated as "already started, or started now", since `on_open` on a connection that is already open is not excluded.
