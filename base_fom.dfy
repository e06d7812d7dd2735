/**
 * The base of every resource handle (`BaseFOM`): its identity and paths,
 * the call gateway with its exact status check, JSON conversion of a
 * response, and reading and writing permission policies.
 */
module BaseFom {
  import opened Wrappers
  import opened Wire
  import opened Json
  import opened Paths
  import opened Permissions

  const UNSUPPORTED_CONTENT_TYPE_MESSAGE: string :=
    "Unable to convert response to json because the content type is "

  /**
   * The check every call goes through: only a response whose status equals
   * the expected code is returned; any other status becomes a
   * `FluidException` carrying the connector's diagnostic; a transport fault
   * is passed through unchanged.
   */
  function Gate(expected: int, t: Transport, describe: Response -> string): (r: Result<Response, Error>)
    ensures r.Success? <==> t.Delivered? && t.response.status == expected
    ensures r.Success? ==> r.value == t.response
    ensures t.Fault? ==> r == Failure(IOException(t.message))
    ensures t.Delivered? && t.response.status != expected ==>
      r == Failure(FluidException(describe(t.response)))
  {
    match t
    case Fault(message) => Failure(IOException(message))
    case Delivered(response) =>
      if response.status == expected then Success(response)
      else Failure(FluidException(describe(response)))
  }

  /** The state every resource handle carries. */
  class Handle {
    /** The FluidDB object id; empty until known. */
    var id: string
    /** The kind of resource: `/namespaces`, `/users`, ... */
    var rootPath: string
    /** The handle's path underneath `rootPath`. */
    var path: string

    constructor (id: string)
      ensures this.id == id && rootPath == "" && path == ""
    {
      this.id := id;
      rootPath := "";
      path := "";
    }

    function GetId(): (r: string)
      reads this
      ensures r == id
    {
      id
    }

    /** The handle's full path: root path and relative path joined. */
    function GetPath(join: Joiner): (r: string)
      reads this
      ensures r == join([rootPath, path])
    {
      join([rootPath, path])
    }

    /** Where a call without an explicit path goes: the root alone when the relative path is empty. */
    function CallPath(join: Joiner): (r: string)
      reads this
      ensures path == "" ==> r == rootPath
      ensures path != "" ==> r == GetPath(join)
    {
      if path == "" then rootPath else join([rootPath, path])
    }

    /** `Call(m, expectedReturnCode, body)`: the handle's own path, no arguments, default content type. */
    function Call(conn: Connector, join: Joiner, verb: Method, expected: int, body: string): (r: Result<Response, Error>)
      reads this
      ensures r == Gate(expected,
        conn.send(Request(verb, CallPath(join), body, map[], Some(DEFAULT_CONTENT_TYPE))), conn.describe)
    {
      CallWithArgs(conn, join, verb, expected, body, map[])
    }

    /** `Call(m, expectedReturnCode, body, args)`: the handle's own path, default content type. */
    function CallWithArgs(conn: Connector, join: Joiner, verb: Method, expected: int, body: string,
                          args: map<string, string>): (r: Result<Response, Error>)
      reads this
      ensures r == Gate(expected,
        conn.send(Request(verb, CallPath(join), body, args, Some(DEFAULT_CONTENT_TYPE))), conn.describe)
    {
      CallAt(conn, verb, expected, body, args, CallPath(join))
    }
  }

  /** `Call(m, expectedReturnCode, body, args, callPath)`: default content type. */
  function CallAt(conn: Connector, verb: Method, expected: int, body: string, args: map<string, string>,
                  callPath: string): (r: Result<Response, Error>)
    ensures r == Gate(expected,
      conn.send(Request(verb, callPath, body, args, Some(DEFAULT_CONTENT_TYPE))), conn.describe)
  {
    CallAtWithArgsAs(conn, verb, expected, body, args, callPath, DEFAULT_CONTENT_TYPE)
  }

  /** `Call(m, expectedReturnCode, body, callPath, content_type)`: no arguments. */
  function CallAtAs(conn: Connector, verb: Method, expected: int, body: string, callPath: string,
                    contentType: string): (r: Result<Response, Error>)
    ensures r == Gate(expected,
      conn.send(Request(verb, callPath, body, map[], Some(contentType))), conn.describe)
  {
    CallAtWithArgsAs(conn, verb, expected, body, map[], callPath, contentType)
  }

  /** The full `Call`: one request to the connector, accepted only on the exact expected status. */
  function CallAtWithArgsAs(conn: Connector, verb: Method, expected: int, body: string,
                            args: map<string, string>, callPath: string, contentType: string): (r: Result<Response, Error>)
    ensures var t := conn.send(Request(verb, callPath, body, args, Some(contentType)));
      && (r.Success? <==> t.Delivered? && t.response.status == expected)
      && (r.Success? ==> r.value == t.response)
      && (t.Fault? ==> r == Failure(IOException(t.message)))
      && (t.Delivered? && t.response.status != expected ==>
            r == Failure(FluidException(conn.describe(t.response))))
  {
    Gate(expected, conn.send(Request(verb, callPath, body, args, Some(contentType))), conn.describe)
  }

  /** `getJsonObject`: only a response of content type exactly `application/json` is converted. */
  function GetJsonObject(lib: JsonLib, response: Response): (r: Result<JsonObject, Error>)
    ensures r.Success? ==> response.contentType == JSON_CONTENT_TYPE
    ensures r.Success? ==> lib.parseObject(response.content) == Some(r.value)
    ensures response.contentType != JSON_CONTENT_TYPE ==>
      r == Failure(FomException(UNSUPPORTED_CONTENT_TYPE_MESSAGE + response.contentType))
    ensures response.contentType == JSON_CONTENT_TYPE && lib.parseObject(response.content).Some? ==>
      r == Success(lib.parseObject(response.content).value)
    ensures response.contentType == JSON_CONTENT_TYPE && lib.parseObject(response.content).None? ==>
      r == Failure(JsonException)
  {
    if response.contentType == JSON_CONTENT_TYPE then
      match lib.parseObject(response.content)
      case None => Failure(JsonException)
      case Some(o) => Success(o)
    else
      Failure(FomException(UNSUPPORTED_CONTENT_TYPE_MESSAGE + response.contentType))
  }

  /** The content type check is an exact match: a charset suffix or another type is refused. */
  lemma JsonContentTypeIsExact(lib: JsonLib, status: int, content: string)
    ensures GetJsonObject(lib, Response(status, "application/json; charset=utf-8", content)).Failure?
    ensures GetJsonObject(lib, Response(status, "plain/text", content)).Failure?
  {
  }

  /** The query arguments of a permission call: `action` only when the action is non-empty. */
  function ActionArgs(action: string): (args: map<string, string>)
    ensures "action" in args <==> action != ""
    ensures forall key :: key in args ==> key == "action" && args[key] == action
  {
    if |action| > 0 then map["action" := action] else map[]
  }

  /** The request `GetPermission` issues. */
  function PermissionQuery(path: string, action: string): (q: Request)
    ensures q.verb == GET && q.path == path && q.body == ""
    ensures q.args == ActionArgs(action) && q.contentType == None
  {
    Request(GET, path, "", ActionArgs(action), None)
  }

  /** The request `SetPermission` issues. */
  function PermissionUpdate(lib: JsonLib, path: string, action: string, permission: Permission): (q: Request)
    ensures q.verb == PUT && q.path == path && q.body == lib.render(EncodePermission(permission))
    ensures q.args == ActionArgs(action) && q.contentType == None
  {
    Request(PUT, path, lib.render(EncodePermission(permission)), ActionArgs(action), None)
  }

  /**
   * How `GetPermission` classifies the service's answer: 200 gives the
   * decoded permission, 401 gives no permission, anything else is an error.
   */
  function PermissionReply(lib: JsonLib, describe: Response -> string, t: Transport): (r: Result<Option<Permission>, Error>)
    ensures r == Success(None) <==> t.Delivered? && t.response.status == UNAUTHORIZED
    ensures t.Delivered? && t.response.status == OK ==>
      (r.Success? <==> GetJsonObject(lib, t.response).Success?
                       && DecodePermission(GetJsonObject(lib, t.response).value).Success?)
    ensures t.Delivered? && t.response.status == OK && GetJsonObject(lib, t.response).Failure? ==>
      r == Failure(GetJsonObject(lib, t.response).error)
    ensures t.Delivered? && t.response.status == OK && GetJsonObject(lib, t.response).Success?
            && DecodePermission(GetJsonObject(lib, t.response).value).Failure? ==>
      r == Failure(JsonException)
    ensures r.Success? && r.value.Some? ==>
      && t.Delivered? && t.response.status == OK
      && GetJsonObject(lib, t.response).Success?
      && DecodePermission(GetJsonObject(lib, t.response).value) == Success(r.value.value)
    ensures t.Delivered? && t.response.status != OK && t.response.status != UNAUTHORIZED ==>
      r == Failure(FluidException(describe(t.response)))
    ensures t.Fault? ==> r == Failure(IOException(t.message))
  {
    match t
    case Fault(message) => Failure(IOException(message))
    case Delivered(response) =>
      if response.status == OK then
        match GetJsonObject(lib, response)
        case Failure(e) => Failure(e)
        case Success(o) =>
          match DecodePermission(o)
          case Failure(e) => Failure(e)
          case Success(p) => Success(Some(p))
      else if response.status == UNAUTHORIZED then Success(None)
      else Failure(FluidException(describe(response)))
  }

  /** How `SetPermission` classifies the service's answer: only 204 is success. */
  function UpdateReply(describe: Response -> string, t: Transport): (r: Outcome<Error>)
    ensures r.Pass? <==> t.Delivered? && t.response.status == NO_CONTENT
    ensures t.Fault? ==> r == Fail(IOException(t.message))
    ensures t.Delivered? && t.response.status != NO_CONTENT ==>
      r == Fail(FluidException(describe(t.response)))
  {
    match t
    case Fault(message) => Fail(IOException(message))
    case Delivered(response) =>
      if response.status != NO_CONTENT then Fail(FluidException(describe(response))) else Pass
  }

  /** `GetPermission(path, action)`. */
  method GetPermission(conn: Connector, lib: JsonLib, path: string, action: string)
    returns (r: Result<Option<Permission>, Error>)
    ensures r == PermissionReply(lib, conn.describe, conn.send(PermissionQuery(path, action)))
  {
    var args: map<string, string> := map[];
    if |action| > 0 {
      args := args["action" := action];
    }
    var t := conn.send(Request(GET, path, "", args, None));
    if t.Fault? {
      return Failure(IOException(t.message));
    }
    var response := t.response;
    if response.status == OK {
      var json := GetJsonObject(lib, response);
      if json.Failure? {
        return Failure(json.error);
      }
      var policy := GetString(json.value, "policy");
      if policy.Failure? {
        return Failure(policy.error);
      }
      var exceptions := GetStringArray(json.value, "exceptions");
      if exceptions.Failure? {
        return Failure(exceptions.error);
      }
      var p: Policy;
      if policy.value == "open" {
        p := OPEN;
      } else {
        p := CLOSED;
      }
      r := Success(Some(Permission(p, exceptions.value)));
    } else if response.status == UNAUTHORIZED {
      r := Success(None);
    } else {
      r := Failure(FluidException(conn.describe(response)));
    }
  }

  /** `SetPermission(path, action, permission)`. */
  method SetPermission(conn: Connector, lib: JsonLib, path: string, action: string, permission: Permission)
    returns (r: Outcome<Error>)
    ensures r == UpdateReply(conn.describe, conn.send(PermissionUpdate(lib, path, action, permission)))
  {
    var args: map<string, string> := map[];
    if |action| > 0 {
      args := args["action" := action];
    }
    var payload: JsonObject := map[];
    payload := payload["exceptions" := JArray(StringArray(permission.GetExceptions()))];
    payload := payload["policy" := JString(WireName(permission.GetPolicy()))];
    var t := conn.send(Request(PUT, path, lib.render(payload), args, None));
    if t.Fault? {
      return Fail(IOException(t.message));
    }
    if t.response.status != NO_CONTENT {
      return Fail(FluidException(conn.describe(t.response)));
    }
    r := Pass;
  }

  /**
   * Reading back what was written: when the service answers a read with the
   * body a write sent, the permission comes back unchanged.
   */
  lemma UpdateThenQuery(lib: JsonLib, describe: Response -> string, path: string, action: string, p: Permission)
    requires lib.parseObject(lib.render(EncodePermission(p))) == Some(EncodePermission(p))
    ensures PermissionUpdate(lib, path, action, p).path == PermissionQuery(path, action).path
    ensures PermissionUpdate(lib, path, action, p).args == PermissionQuery(path, action).args
    ensures PermissionReply(lib, describe,
      Delivered(Response(OK, JSON_CONTENT_TYPE, PermissionUpdate(lib, path, action, p).body))) == Success(Some(p))
  {
    DecodeEncode(p);
  }

  /** A closed policy with one exception, as the service sends it, is read as such. */
  lemma ClosedPolicyScenario(lib: JsonLib, describe: Response -> string, text: string)
    requires lib.parseObject(text) == Some(map["policy" := JString("closed"), "exceptions" := JArray([JString("bob")])])
    ensures PermissionReply(lib, describe, Delivered(Response(OK, JSON_CONTENT_TYPE, text)))
      == Success(Some(Permission(CLOSED, ["bob"])))
  {
    var o := map["policy" := JString("closed"), "exceptions" := JArray([JString("bob")])];
    assert o["exceptions"] == JArray(StringArray(["bob"]));
    StringArrayRoundTrip(["bob"]);
    assert DecodePermission(o) == Success(Permission(CLOSED, ["bob"]));
  }
}
