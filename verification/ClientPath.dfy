/** The paths that the generated client builds, routed and decoded by the server. */
module ClientPath {
  import opened Base
  import opened Uuids
  import opened OrderTypes
  import opened Router

  /** The library's escaping and unescaping of path segments leave unreserved characters alone (RFC 3986, section 2.3). */
  ghost predicate PlainTextStays(escape: string -> string, unescape: string -> Option<string>) {
    forall s :: AllUnreserved(s) ==> escape(s) == s && unescape(s) == Some(s)
  }

  /** The parameter text that the client puts into a path. */
  function ArgOf(t: UuidText, escape: string -> string, op: Operation, id: Uuid): string {
    if op.CreateOrder? then "" else escape(t.format(id))
  }

  function Join(parts: seq<string>): string {
    if parts == [] then "" else parts[0] + Join(parts[1..])
  }

  /** Fills the path parts slot by slot and appends them to the base path. */
  method BuildPath(t: UuidText, escape: string -> string, base: string, op: Operation, id: Uuid) returns (path: string)
    ensures path == base + TemplatePath(op, ArgOf(t, escape, op, id))
  {
    var pathParts: array<string>;
    match op {
      case CreateOrder =>
        pathParts := new string[1](_ => "");
        pathParts[0] := "/api/v1/orders";
        assert pathParts[..] == ["/api/v1/orders"];
      case GetOrder =>
        pathParts := new string[2](_ => "");
        pathParts[0] := "/api/v1/orders/";
        pathParts[1] := escape(t.format(id));
        assert pathParts[..] == ["/api/v1/orders/", escape(t.format(id))];
      case PayOrder =>
        pathParts := new string[3](_ => "");
        pathParts[0] := "/api/v1/orders/";
        pathParts[1] := escape(t.format(id));
        pathParts[2] := "/pay";
        assert pathParts[..] == ["/api/v1/orders/", escape(t.format(id)), "/pay"];
      case CancelOrder =>
        pathParts := new string[3](_ => "");
        pathParts[0] := "/api/v1/orders/";
        pathParts[1] := escape(t.format(id));
        pathParts[2] := "/cancel";
        assert pathParts[..] == ["/api/v1/orders/", escape(t.format(id)), "/cancel"];
    }
    JoinedParts(op, escape(t.format(id)), pathParts[..]);
    path := base + Join(pathParts[..]);
  }

  lemma JoinedParts(op: Operation, x: string, parts: seq<string>)
    requires parts == match op
                      case CreateOrder => ["/api/v1/orders"]
                      case GetOrder => ["/api/v1/orders/", x]
                      case PayOrder => ["/api/v1/orders/", x, "/pay"]
                      case CancelOrder => ["/api/v1/orders/", x, "/cancel"]
    ensures Join(parts) == TemplatePath(op, if op.CreateOrder? then "" else x)
  {
    assert ORDERS + "/" == "/api/v1/orders/";
    match op
    case CreateOrder => JoinOfThree("/api/v1/orders", "", "");
    case GetOrder => JoinOfThree("/api/v1/orders/", x, "");
    case PayOrder => JoinOfThree("/api/v1/orders/", x, "/pay");
    case CancelOrder => JoinOfThree("/api/v1/orders/", x, "/cancel");
  }

  lemma JoinOfThree(a: string, b: string, c: string)
    ensures Join([a]) == a && Join([a, b]) == a + b && Join([a, b, c]) == a + b + c
  {
    assert [a][1..] == [] && [a, b][1..] == [b] && [a, b, c][1..] == [b, c] && [b, c][1..] == [c] && [c][1..] == [];
    assert [b][1..] == [];
    assert Join([c]) == c && Join([b, c]) == b + c && Join([b]) == b;
  }

  datatype ParamError = BadEscape | FieldRequired | BadUuid

  /** How the server reads the order_uuid of a route. */
  function ParamOf(t: UuidText, unescape: string -> Option<string>, arg: string, escaped: bool): Result<Uuid, ParamError> {
    var param := ParamText(unescape, arg, escaped);
    if param.None? then Err(BadEscape)
    else if param.value == "" then Err(FieldRequired)
    else if t.parse(param.value).None? then Err(BadUuid)
    else Ok(t.parse(param.value).value)
  }

  method DecodeParam(t: UuidText, unescape: string -> Option<string>, arg: string, escaped: bool)
    returns (r: Result<Uuid, ParamError>)
    ensures r == ParamOf(t, unescape, arg, escaped)
    ensures var text := if escaped then unescape(arg) else Some(arg);
      match r
      case Ok(id) => text.Some? && text.value != "" && t.parse(text.value) == Some(id)
      case Err(BadEscape) => text.None?
      case Err(FieldRequired) => text == Some("")
      case Err(BadUuid) => text.Some? && text.value != "" && t.parse(text.value).None?
  {
    var param := arg;
    if escaped {
      var unescaped := unescape(arg);
      if unescaped.None? {
        return Err(BadEscape);
      }
      param := unescaped.value;
    }
    if |param| > 0 {
      var parsed := t.parse(param);
      if parsed.None? {
        return Err(BadUuid);
      }
      r := Ok(parsed.value);
    } else {
      r := Err(FieldRequired);
    }
  }

  lemma UnreservedHasNoSlash(s: string)
    requires AllUnreserved(s)
    ensures SlashFree(s)
  {
    forall i | 0 <= i < |s| ensures s[i] != '/' {
      assert Unreserved(s[i]);
    }
  }

  /**
   For every operation, order and base path equal to the server's prefix, the client's path is dispatched to the same
   operation, and the parameter decodes to the same UUID, whether or not the path counts as escaped.
   */
  lemma ClientPathRoundTrip(t: UuidText, escape: string -> string, unescape: string -> Option<string>,
                            prefix: string, op: Operation, id: Uuid, escaped: bool)
    requires Lawful(t) && PlainTextStays(escape, unescape)
    ensures var arg := ArgOf(t, escape, op, id);
      && Route(prefix, MethodOfOp(op), prefix + TemplatePath(op, arg)) == Dispatched(op, arg)
      && (!op.CreateOrder? ==> ParamOf(t, unescape, arg, escaped) == Ok(id))
  {
    hide Route, TemplatePath, AllUnreserved, MethodOfOp;
    var arg := ArgOf(t, escape, op, id);
    assert AllUnreserved(t.format(id)) && t.parse(t.format(id)) == Some(id);
    UnreservedHasNoSlash(t.format(id));
    RouteMeetsTemplates(prefix, MethodOfOp(op), prefix + TemplatePath(op, arg));
    assert Instantiates(prefix, prefix + TemplatePath(op, arg), op, arg);
  }
}
