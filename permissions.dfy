/**
 * Permission policies: an OPEN or CLOSED default plus the users who are
 * exceptions to it, and their JSON wire shape
 * `{"policy": "open" | "closed", "exceptions": [names...]}`.
 */
module Permissions {
  import opened Wrappers
  import opened Text
  import opened Wire
  import opened Json

  /** `com.fluidinfo.utils.Policy`. */
  datatype Policy = OPEN | CLOSED

  /** `Policy.toString()`: the name of the enum constant. */
  function EnumName(p: Policy): string
  {
    match p
    case OPEN => "OPEN"
    case CLOSED => "CLOSED"
  }

  /** `Policy.toString().toLowerCase()`: how a policy is written on the wire. */
  function WireName(p: Policy): (s: string)
    ensures p == OPEN ==> s == "open"
    ensures p == CLOSED ==> s == "closed"
  {
    var s := ToLower(EnumName(p));
    assert s == if p == OPEN then "open" else "closed";
    s
  }

  /** How a policy string is read back: only `"open"`, case-sensitive, is OPEN. */
  function DecodePolicy(name: string): (p: Policy)
    ensures p == OPEN <==> name == "open"
    ensures p == CLOSED <==> name != "open"
  {
    if name == "open" then OPEN else CLOSED
  }

  /** An immutable permission value: the policy and its exceptions, in order. */
  datatype Permission = Permission(policy: Policy, exceptions: seq<string>) {

    function GetPolicy(): (p: Policy)
      ensures p == policy
    {
      policy
    }

    function GetExceptions(): (xs: seq<string>)
      ensures xs == exceptions
    {
      exceptions
    }
  }

  /** The accessors give back exactly what the permission was built from; nothing is validated. */
  lemma PermissionKeepsItsParts(policy: Policy, exceptions: seq<string>)
    ensures Permission(policy, exceptions).GetPolicy() == policy
    ensures Permission(policy, exceptions).GetExceptions() == exceptions
    ensures |Permission(policy, exceptions).GetExceptions()| == |exceptions|
  {
  }

  /** The JSON payload `SetPermission` sends for a permission. */
  function EncodePermission(p: Permission): (o: JsonObject)
    ensures o.Keys == {"exceptions", "policy"}
    ensures o["policy"] == JString("open") <==> p.policy == OPEN
    ensures o["policy"] == JString("closed") <==> p.policy == CLOSED
    ensures o["exceptions"].JArray? && |o["exceptions"].items| == |p.exceptions|
    ensures forall i :: 0 <= i < |p.exceptions| ==> o["exceptions"].items[i] == JString(p.exceptions[i])
  {
    map["exceptions" := JArray(StringArray(p.exceptions)), "policy" := JString(WireName(p.policy))]
  }

  /** How `GetPermission` reads a permission out of a JSON object. */
  function DecodePermission(o: JsonObject): (r: Result<Permission, Error>)
    ensures r.Success? <==> GetString(o, "policy").Success? && GetStringArray(o, "exceptions").Success?
    ensures r.Success? ==> (r.value.policy == OPEN <==> o["policy"] == JString("open"))
    ensures r.Success? ==> o["exceptions"] == JArray(StringArray(r.value.exceptions))
    ensures r.Failure? ==> r.error == JsonException
  {
    var policy :- GetString(o, "policy");
    var exceptions :- GetStringArray(o, "exceptions");
    Success(Permission(DecodePolicy(policy), exceptions))
  }

  /** Decoding an encoded permission gives back its policy and its exceptions in order. */
  lemma DecodeEncode(p: Permission)
    ensures DecodePermission(EncodePermission(p)) == Success(p)
  {
    StringArrayRoundTrip(p.exceptions);
  }

  /** A well-formed payload is what its decoded permission encodes to. */
  lemma EncodeDecode(o: JsonObject)
    requires DecodePermission(o).Success?
    requires o.Keys == {"exceptions", "policy"}
    requires o["policy"] == JString("open") || o["policy"] == JString("closed")
    ensures EncodePermission(DecodePermission(o).value) == o
  {
  }
}
