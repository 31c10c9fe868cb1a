/**
  The reply record of the API handler (`Response` in response.py): five
  optional fields, all `None` unless given, and the projection `AsMessage`
  into the five-key dictionary that is serialised as the JSON reply.
 */
module Responses {

  import opened PythonValues

  /**
    The constructor's defaults are those of `Response.__init__`, so
    `Response()` and `Response(error := e)` read as they do in the source.
    The field for the key "method" is called `methodName`, since `method`
    is a keyword of Dafny.
   */
  datatype Response = Response(
    uid: Json := Null,
    methodName: Json := Null,
    params: Json := Null,
    error: Json := Null,
    body: Json := Null)

  /** The keys of every message produced by `AsMessage`. */
  const MessageKeys: set<string> := {"uid", "method", "params", "error", "body"}

  /** `Response.as_message`: the dictionary with one entry per field. */
  function AsMessage(r: Response): (m: map<string, Json>)
    ensures m.Keys == MessageKeys
  {
    map["uid" := r.uid, "method" := r.methodName, "params" := r.params,
        "error" := r.error, "body" := r.body]
  }

  /** Reads a response back from a message; the inverse of `AsMessage`. */
  function FromMessage(m: map<string, Json>): (r: Response)
    requires MessageKeys <= m.Keys
    ensures AsMessage(r) == m <==> m.Keys == MessageKeys
  {
    var r := Response(m["uid"], m["method"], m["params"], m["error"], m["body"]);
    assert m.Keys == MessageKeys ==> AsMessage(r) == m by {
      if m.Keys == MessageKeys {
        forall k | k in m ensures AsMessage(r)[k] == m[k] { }
      }
    }
    r
  }

  /** A response built with no arguments has every field `None`. */
  lemma DefaultResponseIsEmpty()
    ensures Response() == Response(Null, Null, Null, Null, Null)
    ensures forall k | k in AsMessage(Response()) :: AsMessage(Response())[k] == Null
  {
  }

  /**
    Each constructor argument lands under the message key of the same
    name: the constructor followed by the projection is the identity on
    the five arguments, nothing reordered.
   */
  lemma ConstructorThenMessage(uid: Json, methodName: Json, params: Json, error: Json, body: Json)
    ensures AsMessage(Response(uid, methodName, params, error, body))
         == map["uid" := uid, "method" := methodName, "params" := params,
                "error" := error, "body" := body]
    ensures FromMessage(AsMessage(Response(uid, methodName, params, error, body)))
         == Response(uid, methodName, params, error, body)
  {
  }

  /** The projection loses nothing: a response is recovered from its message. */
  lemma MessageRoundTrip(r: Response)
    ensures FromMessage(AsMessage(r)) == r
  {
  }

  /** Distinct responses give distinct messages. */
  lemma AsMessageInjective(r1: Response, r2: Response)
    requires AsMessage(r1) == AsMessage(r2)
    ensures r1 == r2
  {
  }
}
