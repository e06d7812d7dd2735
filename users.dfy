/**
 * A FluidDB user handle: a resource handle rooted at `/users` whose name is
 * taken from its path, which can be populated from the service and which
 * reads and writes the user's namespace, tag and tag-value policies under
 * `/policies/<name>/<kind>/<action>`.
 */
module Users {
  import opened Wrappers
  import opened Text
  import opened Wire
  import opened Json
  import opened Paths
  import opened Permissions
  import opened BaseFom

  const USERS_ROOT: string := "/users"
  const POLICIES_ROOT: string := "/policies"

  /** The three kinds of policy a user owns. */
  datatype PolicyKind = Namespaces | Tags | TagValues

  /** The path segment of a policy kind. */
  function KindSegment(kind: PolicyKind): string
  {
    match kind
    case Namespaces => "namespaces"
    case Tags => "tags"
    case TagValues => "tag-values"
  }

  /** The arguments a namespace handle is constructed from: an id and a path. */
  datatype NamespaceArgs = NamespaceArgs(id: string, path: string)

  /**
   * What `getItem` writes: the new id, the new name (each `None` when that
   * field is left alone) and how the call ended.
   */
  datatype ItemUpdate = ItemUpdate(newId: Option<string>, newName: Option<string>, outcome: Outcome<Error>)

  /**
   * How `getItem` turns the service's answer into field updates. The id is
   * written as soon as it is read, before the name is looked up.
   */
  function ReadItem(lib: JsonLib, describe: Response -> string, t: Transport): (u: ItemUpdate)
    ensures u.outcome.Pass? <==> u.newName.Some?
    ensures u.newName.Some? ==> u.newId.Some?
    ensures !(t.Delivered? && t.response.status == OK) ==>
      u == ItemUpdate(None, None, Fail(Gate(OK, t, describe).error))
    ensures u.newId.Some? ==>
      && t.Delivered? && t.response.status == OK
      && GetJsonObject(lib, t.response).Success?
      && GetString(GetJsonObject(lib, t.response).value, "id") == Success(u.newId.value)
    ensures u.newName.Some? ==>
      GetString(GetJsonObject(lib, t.response).value, "name") == Success(u.newName.value)
    ensures u.outcome.Fail? && u.newId.Some? ==>
      GetString(GetJsonObject(lib, t.response).value, "name").Failure?
    ensures t.Delivered? && t.response.status == OK && GetJsonObject(lib, t.response).Failure? ==>
      u == ItemUpdate(None, None, Fail(GetJsonObject(lib, t.response).error))
    ensures t.Delivered? && t.response.status == OK && GetJsonObject(lib, t.response).Success? ==>
      var o := GetJsonObject(lib, t.response).value;
      && (GetString(o, "id").Failure? ==> u == ItemUpdate(None, None, Fail(JsonException)))
      && (GetString(o, "id").Success? && GetString(o, "name").Failure? ==>
            u == ItemUpdate(Some(GetString(o, "id").value), None, Fail(JsonException)))
      && (GetString(o, "id").Success? && GetString(o, "name").Success? ==>
            u == ItemUpdate(Some(GetString(o, "id").value), Some(GetString(o, "name").value), Pass))
  {
    match Gate(OK, t, describe)
    case Failure(e) => ItemUpdate(None, None, Fail(e))
    case Success(response) =>
      match GetJsonObject(lib, response)
      case Failure(e) => ItemUpdate(None, None, Fail(e))
      case Success(o) =>
        match GetString(o, "id")
        case Failure(e) => ItemUpdate(None, None, Fail(e))
        case Success(id) =>
          match GetString(o, "name")
          case Failure(e) => ItemUpdate(Some(id), None, Fail(e))
          case Success(name) => ItemUpdate(Some(id), Some(name), Pass)
  }

  class User {
    /** The resource-handle state: id, root path and path. */
    const handle: Handle
    var name: string

    /** A user handle is rooted at `/users` and its path names someone. */
    ghost predicate Valid()
      reads this, handle
    {
      handle.rootPath == USERS_ROOT && NameFromPath(handle.path).Success?
    }

    constructor Init(handle: Handle, name: string)
      ensures this.handle == handle && this.name == name
    {
      this.handle := handle;
      this.name := name;
    }

    /** `new User(fdb, id, path)`: fails with `FOMException` when the path yields no name. */
    static method New(id: string, path: string) returns (r: Result<User, Error>)
      ensures r.Failure? <==> OnlySlashes(path)
      ensures r.Failure? ==> r.error == FomException(NO_NAME_MESSAGE)
      ensures r.Success? ==> fresh(r.value) && fresh(r.value.handle) && r.value.Valid()
      ensures r.Success? ==>
        && r.value.handle.id == id
        && r.value.handle.rootPath == USERS_ROOT
        && r.value.handle.path == path
        && r.value.name == NameFromPath(path).value
    {
      var h := new Handle(id);
      h.rootPath := USERS_ROOT;
      h.path := path;
      var n := GetNameFromPath(path);
      if n.Failure? {
        return Failure(n.error);
      }
      var u := new User.Init(h, n.value);
      r := Success(u);
    }

    /** A user's full path, and the path its calls go to, is `/users` joined with its path. */
    lemma UserPath(join: Joiner)
      requires Valid()
      ensures handle.GetPath(join) == join([USERS_ROOT, handle.path])
      ensures handle.CallPath(join) == handle.GetPath(join)
    {
    }

    /**
     * `getItem`: GET the user with expected status 200 and overwrite the id
     * and the name from the JSON answer; nothing else changes.
     */
    method GetItem(conn: Connector, lib: JsonLib, join: Joiner) returns (r: Outcome<Error>)
      requires Valid()
      modifies this`name, handle`id
      ensures Valid()
      ensures handle.rootPath == old(handle.rootPath) && handle.path == old(handle.path)
      ensures var u := ReadItem(lib, conn.describe,
                conn.send(Request(GET, join([USERS_ROOT, handle.path]), "", map[], Some(DEFAULT_CONTENT_TYPE))));
        && r == u.outcome
        && handle.id == (if u.newId.Some? then u.newId.value else old(handle.id))
        && name == (if u.newName.Some? then u.newName.value else old(name))
    {
      UserPath(join);
      var response := handle.Call(conn, join, GET, OK, "");
      if response.Failure? {
        return Fail(response.error);
      }
      var json := GetJsonObject(lib, response.value);
      if json.Failure? {
        return Fail(json.error);
      }
      var newId := GetString(json.value, "id");
      if newId.Failure? {
        return Fail(newId.error);
      }
      handle.id := newId.value;
      var newName := GetString(json.value, "name");
      if newName.Failure? {
        return Fail(newName.error);
      }
      name := newName.value;
      r := Pass;
    }

    function GetName(): (r: string)
      reads this
      ensures r == name
    {
      name
    }

    /** `RootNamespace`: the user's root namespace is constructed with no id and the user's name as its path. */
    function RootNamespace(): (r: NamespaceArgs)
      reads this
      ensures r.id == "" && r.path == name
    {
      NamespaceArgs("", name)
    }

    /** `/policies/<name>/<kind>/<action in lower case>`, joined by `URIJoin`. */
    function PolicyPath(join: Joiner, kind: PolicyKind, action: string): (r: string)
      reads this
      ensures r == join([POLICIES_ROOT, name, KindSegment(kind), ToLower(action)])
    {
      join([POLICIES_ROOT, name, KindSegment(kind), ToLower(action)])
    }

    method GetNamespacePolicy(conn: Connector, lib: JsonLib, join: Joiner, action: string)
      returns (r: Result<Option<Permission>, Error>)
      ensures r == PermissionReply(lib, conn.describe,
        conn.send(Request(GET, PolicyPath(join, Namespaces, action), "", map[], None)))
    {
      r := GetPermission(conn, lib, PolicyPath(join, Namespaces, action), "");
    }

    method GetTagPolicy(conn: Connector, lib: JsonLib, join: Joiner, action: string)
      returns (r: Result<Option<Permission>, Error>)
      ensures r == PermissionReply(lib, conn.describe,
        conn.send(Request(GET, PolicyPath(join, Tags, action), "", map[], None)))
    {
      r := GetPermission(conn, lib, PolicyPath(join, Tags, action), "");
    }

    method GetTagValuePolicy(conn: Connector, lib: JsonLib, join: Joiner, action: string)
      returns (r: Result<Option<Permission>, Error>)
      ensures r == PermissionReply(lib, conn.describe,
        conn.send(Request(GET, PolicyPath(join, TagValues, action), "", map[], None)))
    {
      r := GetPermission(conn, lib, PolicyPath(join, TagValues, action), "");
    }

    method SetNamespacePolicy(conn: Connector, lib: JsonLib, join: Joiner, action: string, permission: Permission)
      returns (r: Outcome<Error>)
      ensures r == UpdateReply(conn.describe, conn.send(Request(PUT, PolicyPath(join, Namespaces, action),
        lib.render(EncodePermission(permission)), map[], None)))
    {
      r := SetPermission(conn, lib, PolicyPath(join, Namespaces, action), "", permission);
    }

    method SetTagPolicy(conn: Connector, lib: JsonLib, join: Joiner, action: string, permission: Permission)
      returns (r: Outcome<Error>)
      ensures r == UpdateReply(conn.describe, conn.send(Request(PUT, PolicyPath(join, Tags, action),
        lib.render(EncodePermission(permission)), map[], None)))
    {
      r := SetPermission(conn, lib, PolicyPath(join, Tags, action), "", permission);
    }

    method SetTagValuePolicy(conn: Connector, lib: JsonLib, join: Joiner, action: string, permission: Permission)
      returns (r: Outcome<Error>)
      ensures r == UpdateReply(conn.describe, conn.send(Request(PUT, PolicyPath(join, TagValues, action),
        lib.render(EncodePermission(permission)), map[], None)))
    {
      r := SetPermission(conn, lib, PolicyPath(join, TagValues, action), "", permission);
    }

    /**
     * A policy setter writes where the matching getter reads, with no query
     * argument, and a service that answers the read with what was written
     * gives the written permission back.
     */
    lemma PolicyRoundTrip(lib: JsonLib, describe: Response -> string, join: Joiner, kind: PolicyKind,
                          action: string, p: Permission)
      requires lib.parseObject(lib.render(EncodePermission(p))) == Some(EncodePermission(p))
      ensures PermissionUpdate(lib, PolicyPath(join, kind, action), "", p).path
           == PermissionQuery(PolicyPath(join, kind, action), "").path
      ensures PermissionQuery(PolicyPath(join, kind, action), "").args == map[]
      ensures PermissionReply(lib, describe, Delivered(Response(OK, JSON_CONTENT_TYPE,
                PermissionUpdate(lib, PolicyPath(join, kind, action), "", p).body))) == Success(Some(p))
    {
      UpdateThenQuery(lib, describe, PolicyPath(join, kind, action), "", p);
    }
  }
}
