# FluidDB object model: addressing, call gateway and permissions

A Dafny model of the client-side core of JFluidDB's object model (FOM): how a
resource handle names itself and resolves the remote path it talks to, how
every call to FluidDB is accepted only on the exact expected status code, how
permission policies (OPEN or CLOSED plus a list of exception users) travel as
JSON, and the `User` handle built on top of that.

Modules, one per concern of the source:

- `Paths`: `GetNameFromPath` (a loop that cuts trailing `/`, then the last segment), proved against
  `NameFromPath` and characterised independently of its body: the name is the unique non-empty
  run of non-`/` characters that starts the path or follows a `/` and is followed only by `/`.
- `BaseFom`: class `Handle` holds the base handle's mutable fields `id`, `rootPath` and `path`;
  the five `Call` overloads, the status gate, `getJsonObject`, and `GetPermission` / `SetPermission`.
- `Permissions`: the `Policy` enum, the immutable `Permission` value and its JSON codec.
- `Users`: class `User`, which holds a `Handle` (composition in place of Java inheritance) and the
  user's `name`; construction, `getItem`, and the six policy getters and setters.
- `Wire`, `Json`, `Text`, `Wrappers`: requests and responses, decoded JSON, the `String` operations
  used, and the `Result`/`Outcome` types that stand for Java exceptions.

Things the core only calls are parameters:

- `join: seq<string> -> string` is `StringUtil.URIJoin`. The model assumes nothing about how it
  normalises separators.
- `Connector` is the FluidDB connection at the moment of a call. It has two parts: `send`, the
  service's answer to a request, and `describe`, the connector's diagnostic for an unexpected response.
- `JsonLib` is the JSON library: it parses response text into an object and renders an object as text.

## Model

| member | source | states |
|---|---|---|
| `Paths.GetNameFromPath` | src/com/fluidinfo/fom/BaseFOM.java:98-109 | The loop's result equals `NameFromPath`. It fails exactly when the path is empty or all `/`. Otherwise the result is a name span of the path. |
| `Paths.TrimTrailingSlashes` | src/com/fluidinfo/fom/BaseFOM.java:100-103 | Result is a prefix of the path that does not end in `/`, and everything cut off is `/`. |
| `Paths.NameFromPath` | src/com/fluidinfo/fom/BaseFOM.java:104-108 | A name found is non-empty and contains no `/`. Failure is `FOMException("Cannot determine the name from the supplied path.")`. |
| `Paths.NameFromPathFailsIffOnlySlashes` | src/com/fluidinfo/fom/BaseFOM.java:100-108 | No name can be determined if and only if every character of the path is `/` (this includes `""`). |
| `Paths.NameFromPathHasSpan` | src/com/fluidinfo/fom/BaseFOM.java:104-105 | Whenever a name is found, the path has a name span `path[s..e]` (a non-empty run without `/` that starts the path or follows a `/` and is followed only by `/`s) and the name equals it. |
| `Paths.NameSpanDeterminesName` | src/com/fluidinfo/fom/BaseFOM.java:98-109 | Conversely, any such segment of a path is exactly the name returned. |
| `Paths.NameFromPathIdempotent` | src/com/fluidinfo/fom/BaseFOM.java:98-109 | Applied to its own result, the function returns that result unchanged. |
| `Paths.NameFromPathExamples` | tests/src/com/fluidinfo/fom/TestBaseFOM.java:42-50 | `/foo/bar/baz` and `/foo/bar/baz/` both give `baz`. |
| `Paths.NameFromPathShortExamples` | tests/src/com/fluidinfo/fom/TestBaseFOM.java:43-49 | `/foo` and `foo` both give `foo`. |
| `Paths.NameFromPathFailingExamples` | tests/src/com/fluidinfo/fom/TestBaseFOM.java:53-63 | `""` and `"//"` fail. |
| `BaseFom.Handle.constructor` | src/com/fluidinfo/fom/BaseFOM.java:53-73 | A new handle stores its id; root path and path start empty. |
| `BaseFom.Handle.GetId` | src/com/fluidinfo/fom/BaseFOM.java:79-81 | Returns the stored object id. |
| `BaseFom.Handle.GetPath` | src/com/fluidinfo/fom/BaseFOM.java:87-90 | The full path is `URIJoin(rootPath, path)`. |
| `BaseFom.Handle.CallPath` | src/com/fluidinfo/fom/BaseFOM.java:136-143 | Empty relative path: the call goes to the root path alone. Otherwise it goes to the same path `getPath` returns. |
| `BaseFom.Gate` | src/com/fluidinfo/fom/BaseFOM.java:189-195 | The response is returned if and only if its status equals the expected code. Any other status is a `FluidException` with the connector's message. A transport fault passes through as `IOException`. |
| `BaseFom.Handle.Call` | src/com/fluidinfo/fom/BaseFOM.java:120-122 | Sends to the handle's call path with an empty argument table and content type `application/json; charset=utf-8`. The result is then gated on the expected code. |
| `BaseFom.Handle.CallWithArgs` | src/com/fluidinfo/fom/BaseFOM.java:135-145 | Sends to the handle's call path with the given arguments and the default content type, then gates. |
| `BaseFom.CallAt` | src/com/fluidinfo/fom/BaseFOM.java:158-160 | Sends to the given path with the given arguments and the default content type, then gates. |
| `BaseFom.CallAtAs` | src/com/fluidinfo/fom/BaseFOM.java:172-174 | Sends to the given path with the given content type and an empty argument table, then gates. |
| `BaseFom.CallAtWithArgsAs` | src/com/fluidinfo/fom/BaseFOM.java:188-196 | Makes exactly one request. It succeeds if and only if the status equals the expected code, and returns the connector's response unchanged. Any other status, 2xx included, raises `FluidException` with the connector's message. |
| `BaseFom.GetJsonObject` | src/com/fluidinfo/fom/BaseFOM.java:272-279 | Converts only when the content type equals `application/json`, and then yields exactly the object the JSON library parses from the content, or `JSONException` when it parses none. Any other content type raises `FOMException` whose message ends with that content type. |
| `BaseFom.JsonContentTypeIsExact` | tests/src/com/fluidinfo/fom/TestBaseFOM.java:85-91 | `application/json; charset=utf-8` and `plain/text` responses are both refused. |
| `BaseFom.PermissionQuery` | src/com/fluidinfo/fom/BaseFOM.java:212-216 | The permission query is a GET to the given path with an empty body, the `action` argument convention of `ActionArgs` and no explicit content type. |
| `BaseFom.PermissionUpdate` | src/com/fluidinfo/fom/BaseFOM.java:250-257 | The permission update is a PUT to the given path whose body is the rendered JSON encoding of the permission, with the `action` argument convention of `ActionArgs` and no explicit content type. |
| `BaseFom.ActionArgs` | src/com/fluidinfo/fom/BaseFOM.java:212-215 | The query table holds `action` if and only if the action is non-empty, and holds nothing else. |
| `BaseFom.PermissionReply` | src/com/fluidinfo/fom/BaseFOM.java:216-236 | 401 gives no permission. 200 gives the decoded permission; a content-type or parse error from `GetJsonObject` is passed on unchanged, and a body that does not decode as a permission raises `JSONException`. Any other status raises `FluidException` with the connector's message. |
| `BaseFom.UpdateReply` | src/com/fluidinfo/fom/BaseFOM.java:257-262 | Success if and only if the status is 204; any other status raises `FluidException` with the connector's message. |
| `BaseFom.GetPermission` | src/com/fluidinfo/fom/BaseFOM.java:211-237 | Issues GET to the path with the action argument convention and returns `PermissionReply` of the answer. |
| `BaseFom.SetPermission` | src/com/fluidinfo/fom/BaseFOM.java:249-263 | Issues PUT to the path with the action argument convention and the encoded permission as body, then returns `UpdateReply` of the answer. |
| `BaseFom.UpdateThenQuery` | src/com/fluidinfo/fom/BaseFOM.java:211-263 | A write and a read for the same path and action use the same path and the same arguments. When the read is answered with the written body, the same permission comes back. |
| `BaseFom.ClosedPolicyScenario` | src/com/fluidinfo/fom/BaseFOM.java:217-228 | A 200 answer `{"policy":"closed","exceptions":["bob"]}` reads as CLOSED with exceptions `["bob"]`. |
| `Permissions.WireName` | src/com/fluidinfo/fom/BaseFOM.java:256 | OPEN is written `"open"`, CLOSED `"closed"`. |
| `Permissions.DecodePolicy` | src/com/fluidinfo/fom/BaseFOM.java:222-227 | OPEN if and only if the string is exactly `"open"`; every other string, unknown ones included, is CLOSED. |
| `Permissions.EncodePermission` | src/com/fluidinfo/fom/BaseFOM.java:254-256 | The payload has exactly the keys `exceptions` and `policy`. The policy is `"open"` or `"closed"` according to the permission. The exceptions are the permission's names, in order. |
| `Permissions.DecodePermission` | src/com/fluidinfo/fom/BaseFOM.java:219-228 | Succeeds if and only if `policy` is a string and `exceptions` an array of strings. The policy is OPEN if and only if it reads `"open"`, and the exceptions keep array order. |
| `Permissions.DecodeEncode` | src/com/fluidinfo/fom/BaseFOM.java:219-228 | Decoding an encoded permission gives back the same policy and the same exception sequence. |
| `Permissions.EncodeDecode` | src/com/fluidinfo/fom/BaseFOM.java:254-256 | A payload with exactly those two keys and policy `"open"` or `"closed"` is what its decoded permission encodes to. |
| `Json.StringArrayRoundTrip` | src/com/fluidinfo/fom/BaseFOM.java:221 | Reading the string array written for a list of exceptions gives the same list in the same order. |
| `Permissions.Permission.GetPolicy` | src/com/fluidinfo/fom/Permission.java:54-56 | Returns the policy the permission was built with. |
| `Permissions.Permission.GetExceptions` | src/com/fluidinfo/fom/Permission.java:62-64 | Returns the exceptions the permission was built with. |
| `Permissions.PermissionKeepsItsParts` | src/com/fluidinfo/fom/Permission.java:45-48 | The constructor validates nothing, an empty list included. The accessors give back the same policy and the same exceptions, of the same length. |
| `Users.User.New` | src/com/fluidinfo/fom/User.java:59-64 | Fails with the `FOMException` exactly when the path is empty or all `/`. Otherwise it gives a fresh user with the given id, root `/users`, the given path, and name `NameFromPath(path)`. |
| `Users.User.UserPath` | src/com/fluidinfo/fom/User.java:61-62 | A user's `getPath()`, and the path its own calls go to, is `URIJoin("/users", path)`. |
| `Users.ReadItem` | src/com/fluidinfo/fom/User.java:69-72 | Anything but a 200 answer raises before a field is written. On a 200 answer: a content-type or parse error is passed on with nothing written; a missing `id` string raises `JSONException` with nothing written; an `id` without a `name` string writes the id and raises `JSONException`; with both strings, both are written and the call succeeds. |
| `Users.User.GetItem` | src/com/fluidinfo/fom/User.java:66-73 | GETs the user's own path expecting 200. Only `id` and `name` may change, as `ReadItem` says; root path and path stay the same. |
| `Users.User.GetName` | src/com/fluidinfo/fom/User.java:80-82 | Returns the stored name. |
| `Users.User.RootNamespace` | src/com/fluidinfo/fom/User.java:93-94 | The root namespace handle is built with an empty id and the user's name as its path. |
| `Users.User.PolicyPath` | src/com/fluidinfo/fom/User.java:111 | A policy path is `URIJoin("/policies", name, kind, lowercase(action))`. |
| `Users.User.GetNamespacePolicy` | src/com/fluidinfo/fom/User.java:110-113 | Reads the `namespaces` policy path with no query argument. |
| `Users.User.GetTagPolicy` | src/com/fluidinfo/fom/User.java:125-128 | Reads the `tags` policy path with no query argument. |
| `Users.User.GetTagValuePolicy` | src/com/fluidinfo/fom/User.java:140-143 | Reads the `tag-values` policy path with no query argument. |
| `Users.User.SetNamespacePolicy` | src/com/fluidinfo/fom/User.java:154-157 | PUTs the encoded permission to the `namespaces` policy path with no query argument. |
| `Users.User.SetTagPolicy` | src/com/fluidinfo/fom/User.java:168-171 | PUTs the encoded permission to the `tags` policy path with no query argument. |
| `Users.User.SetTagValuePolicy` | src/com/fluidinfo/fom/User.java:182-185 | PUTs the encoded permission to the `tag-values` policy path with no query argument. |
| `Users.User.PolicyRoundTrip` | src/com/fluidinfo/fom/User.java:110-185 | Each setter writes to the path its matching getter reads, with no query argument. A service that answers the read with the written body gives the written permission back. |

## Left out

- The HTTP transport, authentication and the connector's own calls are not modelled. They are I/O. The connector enters only as the `Connector` parameter.
- The connector's message builder is an opaque `describe` function. So the claim that a `FluidException` message contains the status code is not modelled.
- The content type the connector's four-argument call sends (used by `GetPermission` and `SetPermission`) is not modelled. It is the connector's default, recorded as `None`.
- `StringUtil.URIJoin` is not part of this model. It is the `join` parameter, and no property of it is assumed.
- JSON text is not modelled. Parsing and rendering are the `JsonLib` parameter, and the round-trip lemmas state what they need of it.
- `GetString`, `GetStringArray`: org.json's conversion of non-string values to text is not modelled. A `policy`, `id`, `name` or exception item that is not a JSON string is a `JSONException` in the model.
- Java `null` is not modelled. A `null` path takes the reference check `this.path == null` in `Call`. A `null` action would be put into a `Hashtable` and throw. Strings here are never null.
- `this.path == ""` in `Call` compares references in Java. The model compares string contents, which is what the check means.
- `Permission.GetExceptions` returns the Java array itself, which callers could mutate. The model's `seq` is immutable, so that aliasing is not represented.
- `toLowerCase` is modelled on ASCII letters only. Enum constant names are ASCII.
- The action enums `Namespace.Actions`, `Tag.TagActions` and `Tag.TagValueActions` are not part of this model. An action is given by its constant name as a string.
- `RootNamespace` is modelled as construction only. `Namespace` and its `getItem` are not part of this model.
- The user constructor is the static method `User.New`, because a Dafny constructor cannot fail. The `FluidConnector` field `fdb` is replaced by the `Connector` parameter of each call.
- The source has five `Call` overloads, lines 120, 135, 158, 172 and 188. The model has one function for each.
- The user tests call `getUsername()`, which `User.java` does not define, and expect `getName()` to be `""` before `getItem`. The constructor sets the name from the path, and the model follows the constructor.
