/**
  `ApiHandler.post` of handlers.py: a one-shot API call is authenticated,
  decoded, schema-validated and dispatched. Every collaborator whose code
  is not part of this model (auth.extract_auth_info, get_project_by_id,
  check_auth, auth.decode_data, jsonschema.validate, process_call) is a
  total function handed in through `Collaborators`; `Post` records each
  call it makes to them in a trace, so that what a collaborator was given,
  and whether it was reached at all, can be stated.

  The reference behaviour is `Expected`: the protocol gates of lines 55-84
  as an ordered list, the first failing one deciding the HTTP error, and
  otherwise the structured reply of lines 86-114 (`Answer`).
 */
module ApiHandler {

  import opened Wrappers
  import opened PythonValues
  import opened Responses

  type Bytes = seq<bv8>

  /** A schema document; its meaning is the validator's business. */
  type Schema = Json

  /** What `extract_auth_info` may inspect: the request's metadata and its raw body. */
  datatype Request = Request(headers: map<string, string>, arguments: map<string, string>, body: Bytes)

  /** The verdict of `jsonschema.validate`: no exception, or a ValidationError's text. */
  datatype Verdict = Valid | Invalid(message: string)

  /** The collaborators of `post`, each as the result it returns for given arguments. */
  datatype Collaborators = Collaborators(
    extractAuthInfo: Request -> (Json, Json),                 // (auth_info, error)
    getProjectById: string -> (Json, Json),                    // (project, error)
    checkAuth: (Json, Json, Bytes) -> (Json, Json),            // (project, sign, encoded_data) -> (result, error)
    decodeData: Bytes -> Json,
    validate: (Json, Schema) -> Verdict,
    reqSchema: Schema,
    adminParamsSchema: map<string, Schema>,
    processCall: (Json, string, Json) -> (Json, Json))         // (project, method, params) -> (result, error)

  /** A collaborator call made by `Post`, with its arguments. */
  datatype Call =
    | ExtractAuthInfo(request: Request)
    | GetProjectById(projectId: string)
    | CheckAuth(project: Json, sign: Json, payload: Bytes)
    | DecodeData(payload: Bytes)
    | Validate(instance: Json, schema: Schema)
    | ProcessCall(project: Json, name: string, params: Json)

  /** How a request ends: a raised `HTTPError`, or one JSON reply built from a `Response`. */
  datatype Outcome = HttpError(code: int) | Reply(response: Response)

  const BadRequest: int := 400
  const Unauthorized: int := 401
  const NotFound: int := 404
  const InternalError: int := 500
  const MethodNotFound: string := "method not found"

  // ---------------------------------------------------------------------
  // The collaborators' answers for one request (the spec evaluates them
  // eagerly; the gate order decides which of them matter).

  function AuthError(env: Collaborators, request: Request): Json { env.extractAuthInfo(request).1 }
  function AuthInfo(env: Collaborators, request: Request): Json { env.extractAuthInfo(request).0 }

  /** `auth_info.get('sign')`, where `auth_info` is a dictionary (otherwise `.get` raises). */
  function Sign(env: Collaborators, request: Request): Json
  {
    if AuthInfo(env, request).Obj? then Get(AuthInfo(env, request).fields, "sign") else Null
  }
  function Project(env: Collaborators, projectId: string): Json { env.getProjectById(projectId).0 }
  function ProjectError(env: Collaborators, projectId: string): Json { env.getProjectById(projectId).1 }

  function Verified(env: Collaborators, projectId: string, request: Request): Json
  {
    env.checkAuth(Project(env, projectId), Sign(env, request), request.body).0
  }

  function VerifyError(env: Collaborators, projectId: string, request: Request): Json
  {
    env.checkAuth(Project(env, projectId), Sign(env, request), request.body).1
  }

  function Data(env: Collaborators, request: Request): Json { env.decodeData(request.body) }

  // ---------------------------------------------------------------------
  // The protocol gates, in the order the handler tests them.

  /** A hard gate: it lets the request through, or ends it with `status`. */
  datatype Gate = Gate(passes: bool, status: int)

  const EmptyBodyGate: nat := 0
  const AuthErrorGate: nat := 1
  const AuthInfoGate: nat := 2
  const SignGate: nat := 3
  const ProjectErrorGate: nat := 4
  const ProjectMissingGate: nat := 5
  const RawBodyGate: nat := 6
  const VerifierErrorGate: nat := 7
  const SignatureGate: nat := 8
  const DecodeGate: nat := 9

  function ProtocolGates(env: Collaborators, projectId: string, request: Request): (gates: seq<Gate>)
    ensures |gates| == 10
  {
    [ Gate(request.body != [], BadRequest),                          // empty request
      Gate(!Truthy(AuthError(env, request)), Unauthorized),           // extract_auth_info error
      Gate(AuthInfo(env, request).Obj?, InternalError),               // auth_info.get raises
      Gate(Truthy(Sign(env, request)), Unauthorized),                 // no sign
      Gate(!Truthy(ProjectError(env, projectId)), InternalError),     // project lookup error
      Gate(Truthy(Project(env, projectId)), NotFound),                // project not found
      Gate(request.body != [], BadRequest),                           // no request body
      Gate(!Truthy(VerifyError(env, projectId, request)), InternalError),
      Gate(Truthy(Verified(env, projectId, request)), Unauthorized),  // signature rejected
      Gate(Truthy(Data(env, request)), BadRequest) ]                  // malformed data
  }

  /** The index of the first gate that does not pass, if any. */
  function FirstFailing(gates: seq<Gate>): (r: Option<nat>)
    ensures r.Some? ==> r.value < |gates| && !gates[r.value].passes
    ensures r.Some? ==> forall j :: 0 <= j < r.value ==> gates[j].passes
    ensures r.None? <==> forall j :: 0 <= j < |gates| ==> gates[j].passes
  {
    if gates == [] then None
    else if !gates[0].passes then Some(0)
    else match FirstFailing(gates[1..])
      case None => None
      case Some(k) => Some(k + 1)
  }

  /** The gate that fails first is the one `FirstFailing` names. */
  lemma FirstFailingAt(gates: seq<Gate>, k: nat)
    requires k < |gates| && !gates[k].passes
    requires forall j :: 0 <= j < k ==> gates[j].passes
    ensures FirstFailing(gates) == Some(k)
  {
  }

  /** The collaborator calls that precede the test of each gate. */
  function CallsBefore(gate: nat): (n: nat)
    ensures n <= 4
  {
    if gate == EmptyBodyGate then 0
    else if gate <= SignGate then 1
    else if gate <= RawBodyGate then 2
    else if gate <= SignatureGate then 3
    else 4
  }

  /** The protocol-tier calls in order; a rejected request makes a prefix of them. */
  function ProtocolCalls(env: Collaborators, projectId: string, request: Request): (calls: seq<Call>)
    ensures |calls| == 4
  {
    [ ExtractAuthInfo(request),
      GetProjectById(projectId),
      CheckAuth(Project(env, projectId), Sign(env, request), request.body),
      DecodeData(request.body) ]
  }

  // ---------------------------------------------------------------------
  // The payload tier (lines 86-114).

  /** `method in admin_params_schema`, which raises for an unhashable method value. */
  datatype Route = Unhashable | Missing | Registered(name: string, schema: Schema)

  function Lookup(table: map<string, Schema>, name: Json): Route
  {
    if !Hashable(name) then Unhashable
    else if name.Str? && name.s in table then Registered(name.s, table[name.s])
    else Missing
  }

  /**
    The reply to a request that passed every protocol gate. Past a valid
    envelope, `data.get` raises unless `data` is a dictionary, and the
    schema lookup raises for an unhashable method; Tornado answers both
    uncaught exceptions with status 500.
   */
  function Answer(env: Collaborators, project: Json, data: Json): Outcome
  {
    match env.validate(data, env.reqSchema)
    case Invalid(message) => Reply(Response(error := Str(message)))
    case Valid =>
      if !data.Obj? then HttpError(InternalError)
      else
        var uid, name, params := Get(data.fields, "uid"), Get(data.fields, "method"), Get(data.fields, "params");
        match Lookup(env.adminParamsSchema, name)
        case Unhashable => HttpError(InternalError)
        case Missing => Reply(Response(uid := uid, methodName := name, error := Str(MethodNotFound)))
        case Registered(m, schema) =>
          match env.validate(params, schema)
          case Invalid(message) => Reply(Response(uid := uid, methodName := name, error := Str(message)))
          case Valid =>
            var outcome := env.processCall(project, m, params);
            Reply(Response(uid := uid, methodName := name, error := outcome.1, body := outcome.0))
  }

  /** The calls the payload tier makes. */
  function PayloadCalls(env: Collaborators, project: Json, data: Json): seq<Call>
  {
    [Validate(data, env.reqSchema)] +
    if env.validate(data, env.reqSchema).Invalid? || !data.Obj? then []
    else
      var params := Get(data.fields, "params");
      match Lookup(env.adminParamsSchema, Get(data.fields, "method"))
      case Registered(m, schema) =>
        [Validate(params, schema)] +
        (if env.validate(params, schema).Valid? then [ProcessCall(project, m, params)] else [])
      case _ => []
  }

  // ---------------------------------------------------------------------
  // The reference behaviour of the whole handler.

  function Expected(env: Collaborators, projectId: string, request: Request): Outcome
  {
    var gates := ProtocolGates(env, projectId, request);
    match FirstFailing(gates)
    case Some(i) => HttpError(gates[i].status)
    case None => Answer(env, Project(env, projectId), Data(env, request))
  }

  function CallsMade(env: Collaborators, projectId: string, request: Request): seq<Call>
  {
    match FirstFailing(ProtocolGates(env, projectId, request))
    case Some(i) => ProtocolCalls(env, projectId, request)[..CallsBefore(i)]
    case None => ProtocolCalls(env, projectId, request) + PayloadCalls(env, Project(env, projectId), Data(env, request))
  }

  /** The request gets past every protocol gate (past line 84). */
  predicate PassesProtocolGates(env: Collaborators, projectId: string, request: Request)
  {
    FirstFailing(ProtocolGates(env, projectId, request)).None?
  }

  /** A request stopped by gate `k` gets that gate's status, after the calls that feed gates up to `k`. */
  lemma RejectedAt(env: Collaborators, projectId: string, request: Request, k: nat)
    requires k < |ProtocolGates(env, projectId, request)| && !ProtocolGates(env, projectId, request)[k].passes
    requires forall j :: 0 <= j < k ==> ProtocolGates(env, projectId, request)[j].passes
    ensures Expected(env, projectId, request) == HttpError(ProtocolGates(env, projectId, request)[k].status)
    ensures CallsMade(env, projectId, request) == ProtocolCalls(env, projectId, request)[..CallsBefore(k)]
  {
    FirstFailingAt(ProtocolGates(env, projectId, request), k);
  }

  /** A request through every gate gets the payload tier's answer, after all protocol calls. */
  lemma Admitted(env: Collaborators, projectId: string, request: Request)
    requires forall j :: 0 <= j < |ProtocolGates(env, projectId, request)| ==> ProtocolGates(env, projectId, request)[j].passes
    ensures Expected(env, projectId, request) == Answer(env, Project(env, projectId), Data(env, request))
    ensures CallsMade(env, projectId, request)
         == ProtocolCalls(env, projectId, request) + PayloadCalls(env, Project(env, projectId), Data(env, request))
  {
  }

  // ---------------------------------------------------------------------
  // The handler.

  /**
    `ApiHandler.post(project_id)`: a chain of early exits, then a reply
    whose fields are filled in one assignment at a time.
   */
  method Post(env: Collaborators, projectId: string, request: Request) returns (outcome: Outcome, calls: seq<Call>)
    ensures outcome == Expected(env, projectId, request)
    ensures calls == CallsMade(env, projectId, request)
  {
    ghost var gates := ProtocolGates(env, projectId, request);
    calls := [];
    if request.body == [] {
      RejectedAt(env, projectId, request, EmptyBodyGate);
      return HttpError(BadRequest), calls;
    }

    calls := calls + [ExtractAuthInfo(request)];
    var (authInfo, authError) := env.extractAuthInfo(request);
    if Truthy(authError) {
      RejectedAt(env, projectId, request, AuthErrorGate);
      return HttpError(Unauthorized), calls;
    }

    if !authInfo.Obj? {
      RejectedAt(env, projectId, request, AuthInfoGate);
      return HttpError(InternalError), calls;    // auth_info.get raises
    }
    var sign := Get(authInfo.fields, "sign");
    if !Truthy(sign) {
      RejectedAt(env, projectId, request, SignGate);
      return HttpError(Unauthorized), calls;
    }

    calls := calls + [GetProjectById(projectId)];
    var (project, projectError) := env.getProjectById(projectId);
    if Truthy(projectError) {
      RejectedAt(env, projectId, request, ProjectErrorGate);
      return HttpError(InternalError), calls;
    }
    if !Truthy(project) {
      RejectedAt(env, projectId, request, ProjectMissingGate);
      return HttpError(NotFound), calls;
    }

    var encodedData := request.body;
    if encodedData == [] {
      RejectedAt(env, projectId, request, RawBodyGate);
      return HttpError(BadRequest), calls;
    }

    calls := calls + [CheckAuth(project, sign, encodedData)];
    var (verified, verifyError) := env.checkAuth(project, sign, encodedData);
    if Truthy(verifyError) {
      RejectedAt(env, projectId, request, VerifierErrorGate);
      return HttpError(InternalError), calls;
    }
    if !Truthy(verified) {
      RejectedAt(env, projectId, request, SignatureGate);
      return HttpError(Unauthorized), calls;
    }

    calls := calls + [DecodeData(encodedData)];
    var data := env.decodeData(encodedData);
    if !Truthy(data) {
      RejectedAt(env, projectId, request, DecodeGate);
      return HttpError(BadRequest), calls;
    }
    assert forall j :: 0 <= j < |gates| ==> gates[j].passes by {
      assert gates[0].passes && gates[1].passes && gates[2].passes && gates[3].passes && gates[4].passes;
      assert gates[5].passes && gates[6].passes && gates[7].passes && gates[8].passes && gates[9].passes;
    }
    Admitted(env, projectId, request);

    var response := Response();
    calls := calls + [Validate(data, env.reqSchema)];
    match env.validate(data, env.reqSchema) {
      case Invalid(message) =>
        response := response.(error := Str(message));
      case Valid =>
        if !data.Obj? {
          return HttpError(InternalError), calls;    // data.get raises
        }
        var reqId := Get(data.fields, "uid");
        var name := Get(data.fields, "method");
        var params := Get(data.fields, "params");

        response := response.(uid := reqId);
        response := response.(methodName := name);

        if !Hashable(name) {
          return HttpError(InternalError), calls;    // `in` raises on an unhashable key
        }
        if !(name.Str? && name.s in env.adminParamsSchema) {
          response := response.(error := Str(MethodNotFound));
        } else {
          var schema := env.adminParamsSchema[name.s];
          calls := calls + [Validate(params, schema)];
          match env.validate(params, schema) {
            case Invalid(message) =>
              response := response.(error := Str(message));
            case Valid =>
              calls := calls + [ProcessCall(project, name.s, params)];
              var (result, error) := env.processCall(project, name.s, params);
              response := response.(body := result);
              response := response.(error := error);
          }
        }
    }
    outcome := Reply(response);
  }

  // ---------------------------------------------------------------------
  // Properties of the reference behaviour (and so, through Post's
  // postcondition, of the handler).

  /** An empty body is a 400, whatever the auth data, project or payload; nothing is called. */
  lemma EmptyBodyIsBadRequest(env: Collaborators, projectId: string, request: Request)
    requires request.body == []
    ensures Expected(env, projectId, request) == HttpError(BadRequest)
    ensures CallsMade(env, projectId, request) == []
  {
  }

  /** Auth data that fails to extract, or has no (or an empty) sign, is a 401; the project is never looked up. */
  lemma AuthFailureIsUnauthorized(env: Collaborators, projectId: string, request: Request)
    requires request.body != []
    requires Truthy(AuthError(env, request)) || (AuthInfo(env, request).Obj? && !Truthy(Sign(env, request)))
    ensures Expected(env, projectId, request) == HttpError(Unauthorized)
    ensures CallsMade(env, projectId, request) == [ExtractAuthInfo(request)]
    ensures GetProjectById(projectId) !in CallsMade(env, projectId, request)
  {
    var gates := ProtocolGates(env, projectId, request);
    if Truthy(AuthError(env, request)) {
      FirstFailingAt(gates, AuthErrorGate);
    } else {
      FirstFailingAt(gates, SignGate);
    }
  }

  /**
    Auth data extracted without error but not a dictionary makes
    `auth_info.get` raise: a 500, and the project is never looked up.
   */
  lemma AuthInfoNotDictionary(env: Collaborators, projectId: string, request: Request)
    requires request.body != [] && !Truthy(AuthError(env, request)) && !AuthInfo(env, request).Obj?
    ensures Expected(env, projectId, request) == HttpError(InternalError)
    ensures CallsMade(env, projectId, request) == [ExtractAuthInfo(request)]
  {
    FirstFailingAt(ProtocolGates(env, projectId, request), AuthInfoGate);
  }

  /**
    Once authenticated, a lookup error is a 500, checked before a missing
    project, which is a 404; in both cases the signature is never checked.
   */
  lemma ProjectLookupFailures(env: Collaborators, projectId: string, request: Request)
    requires request.body != [] && !Truthy(AuthError(env, request)) && Truthy(Sign(env, request))
    requires Truthy(ProjectError(env, projectId)) || !Truthy(Project(env, projectId))
    ensures Truthy(ProjectError(env, projectId)) ==> Expected(env, projectId, request) == HttpError(InternalError)
    ensures !Truthy(ProjectError(env, projectId)) ==> Expected(env, projectId, request) == HttpError(NotFound)
    ensures CallsMade(env, projectId, request) == [ExtractAuthInfo(request), GetProjectById(projectId)]
  {
    var gates := ProtocolGates(env, projectId, request);
    if Truthy(ProjectError(env, projectId)) {
      FirstFailingAt(gates, ProjectErrorGate);
    } else {
      FirstFailingAt(gates, ProjectMissingGate);
    }
  }

  /** The second empty-body test (line 73) never decides a request: the first one already did. */
  lemma RawBodyGateNeverFires(env: Collaborators, projectId: string, request: Request)
    ensures FirstFailing(ProtocolGates(env, projectId, request)) != Some(RawBodyGate)
  {
  }

  /**
    Once the project is found, `check_auth` runs on the raw, undecoded
    body; a verifier error is a 500 and a rejected signature a 401, both
    before anything is decoded; a falsy decode result is a 400.
   */
  lemma SignatureVerification(env: Collaborators, projectId: string, request: Request)
    requires request.body != [] && !Truthy(AuthError(env, request)) && Truthy(Sign(env, request))
    requires !Truthy(ProjectError(env, projectId)) && Truthy(Project(env, projectId))
    ensures CallsMade(env, projectId, request)[..3]
         == [ExtractAuthInfo(request), GetProjectById(projectId),
             CheckAuth(Project(env, projectId), Sign(env, request), request.body)]
    ensures Truthy(VerifyError(env, projectId, request)) ==>
              Expected(env, projectId, request) == HttpError(InternalError)
    ensures !Truthy(VerifyError(env, projectId, request)) && !Truthy(Verified(env, projectId, request)) ==>
              Expected(env, projectId, request) == HttpError(Unauthorized)
    ensures Truthy(VerifyError(env, projectId, request)) || !Truthy(Verified(env, projectId, request)) ==>
              |CallsMade(env, projectId, request)| == 3
    ensures !Truthy(VerifyError(env, projectId, request)) && Truthy(Verified(env, projectId, request))
              && !Truthy(Data(env, request)) ==>
              Expected(env, projectId, request) == HttpError(BadRequest)
  {
    var gates := ProtocolGates(env, projectId, request);
    if Truthy(VerifyError(env, projectId, request)) {
      FirstFailingAt(gates, VerifierErrorGate);
    } else if !Truthy(Verified(env, projectId, request)) {
      FirstFailingAt(gates, SignatureGate);
    } else if !Truthy(Data(env, request)) {
      FirstFailingAt(gates, DecodeGate);
    }
  }

  /**
    On every request, the signature is checked on exactly the raw body, and
    decoding happens only right after a signature check.
   */
  lemma SignatureCheckedOnRawBodyBeforeDecoding(env: Collaborators, projectId: string, request: Request)
    ensures forall c | c in CallsMade(env, projectId, request) && c.CheckAuth? :: c.payload == request.body
    ensures forall i | 0 <= i < |CallsMade(env, projectId, request)| && CallsMade(env, projectId, request)[i].DecodeData? ::
              i == 3 && CallsMade(env, projectId, request)[2].CheckAuth?
              && CallsMade(env, projectId, request)[i].payload == request.body
  {
  }

  /** The request gets past line 84 exactly when every protocol test is passed. */
  lemma PassesProtocolGatesIff(env: Collaborators, projectId: string, request: Request)
    ensures PassesProtocolGates(env, projectId, request) <==>
      && request.body != []
      && !Truthy(AuthError(env, request))
      && AuthInfo(env, request).Obj?
      && Truthy(Sign(env, request))
      && !Truthy(ProjectError(env, projectId))
      && Truthy(Project(env, projectId))
      && !Truthy(VerifyError(env, projectId, request))
      && Truthy(Verified(env, projectId, request))
      && Truthy(Data(env, request))
  {
    var gates := ProtocolGates(env, projectId, request);
    if PassesProtocolGates(env, projectId, request) {
      assert forall j :: 0 <= j < |gates| ==> gates[j].passes;
      assert gates[0].passes && gates[1].passes && gates[2].passes && gates[3].passes && gates[4].passes;
      assert gates[5].passes && gates[7].passes && gates[8].passes && gates[9].passes;
    }
  }

  /**
    Past line 84 the request is answered with exactly one JSON reply,
    unless a valid envelope is not a dictionary or names an unhashable
    method (uncaught exceptions, status 500).
   */
  lemma RepliesPastProtocolGates(env: Collaborators, projectId: string, request: Request)
    requires PassesProtocolGates(env, projectId, request)
    ensures Expected(env, projectId, request).Reply? <==>
      var data := Data(env, request);
      env.validate(data, env.reqSchema).Invalid? || (data.Obj? && Hashable(Get(data.fields, "method")))
    ensures Expected(env, projectId, request).HttpError? ==> Expected(env, projectId, request).code == InternalError
  {
  }

  /** An envelope failing `req_schema` is answered with the message only: uid, method and body stay None. */
  lemma EnvelopeInvalidReply(env: Collaborators, projectId: string, request: Request, message: string)
    requires PassesProtocolGates(env, projectId, request)
    requires env.validate(Data(env, request), env.reqSchema) == Invalid(message)
    ensures Expected(env, projectId, request) == Reply(Response(error := Str(message)))
    ensures var r := Expected(env, projectId, request).response;
      r.uid == Null && r.methodName == Null && r.body == Null && r.params == Null
    ensures CallsMade(env, projectId, request)[4..] == [Validate(Data(env, request), env.reqSchema)]
  {
  }

  /**
    A method absent from `admin_params_schema` is answered with uid and
    method copied, "method not found" and no body; nothing is dispatched.
   */
  lemma UnknownMethodReply(env: Collaborators, projectId: string, request: Request)
    requires PassesProtocolGates(env, projectId, request)
    requires env.validate(Data(env, request), env.reqSchema).Valid? && Data(env, request).Obj?
    requires Lookup(env.adminParamsSchema, Get(Data(env, request).fields, "method")).Missing?
    ensures var fields := Data(env, request).fields;
      Expected(env, projectId, request)
        == Reply(Response(uid := Get(fields, "uid"), methodName := Get(fields, "method"), error := Str(MethodNotFound)))
    ensures forall c | c in CallsMade(env, projectId, request) :: !c.ProcessCall?
  {
  }

  /** Params failing their method's schema: only the error is added to uid and method; nothing is dispatched. */
  lemma InvalidParamsReply(env: Collaborators, projectId: string, request: Request, message: string)
    requires PassesProtocolGates(env, projectId, request)
    requires env.validate(Data(env, request), env.reqSchema).Valid? && Data(env, request).Obj?
    requires var fields := Data(env, request).fields;
      && Lookup(env.adminParamsSchema, Get(fields, "method")).Registered?
      && env.validate(Get(fields, "params"), Lookup(env.adminParamsSchema, Get(fields, "method")).schema) == Invalid(message)
    ensures var fields := Data(env, request).fields;
      Expected(env, projectId, request)
        == Reply(Response(uid := Get(fields, "uid"), methodName := Get(fields, "method"), error := Str(message)))
    ensures forall c | c in CallsMade(env, projectId, request) :: !c.ProcessCall?
  {
  }

  /**
    A valid call is dispatched once, last, with the resolved project, the
    method name and the params; the reply carries its result as body and
    its error as error, with uid and method copied unchanged.
   */
  lemma DispatchedReply(env: Collaborators, projectId: string, request: Request)
    requires PassesProtocolGates(env, projectId, request)
    requires env.validate(Data(env, request), env.reqSchema).Valid? && Data(env, request).Obj?
    requires var fields := Data(env, request).fields;
      && Lookup(env.adminParamsSchema, Get(fields, "method")).Registered?
      && env.validate(Get(fields, "params"), Lookup(env.adminParamsSchema, Get(fields, "method")).schema).Valid?
    ensures var fields := Data(env, request).fields;
      var name := Get(fields, "method").s;
      var result := env.processCall(Project(env, projectId), name, Get(fields, "params"));
      && Expected(env, projectId, request)
           == Reply(Response(uid := Get(fields, "uid"), methodName := Get(fields, "method"),
                             error := result.1, body := result.0))
      && CallsMade(env, projectId, request)[|CallsMade(env, projectId, request)| - 1]
           == ProcessCall(Project(env, projectId), name, Get(fields, "params"))
      && |CallsMade(env, projectId, request)| == 7
    ensures forall i | 0 <= i < |CallsMade(env, projectId, request)| - 1 :: !CallsMade(env, projectId, request)[i].ProcessCall?
  {
  }
}
