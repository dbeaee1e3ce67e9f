/**
 The static router: the same prefix trie unrolled twice, once dispatching requests and once describing routes, against
 the four path templates.
 */
module Router {
  import opened Base
  import opened OrderTypes

  const ORDERS: string := "/api/v1/orders"

  predicate SlashFree(s: string) {
    '/' !in s
  }

  /** The path of an operation below the server's prefix, with x for the order_uuid parameter. */
  function TemplatePath(op: Operation, x: string): string {
    match op
    case CreateOrder => ORDERS
    case GetOrder => ORDERS + "/" + x
    case PayOrder => ORDERS + "/" + x + "/pay"
    case CancelOrder => ORDERS + "/" + x + "/cancel"
  }

  /** The path is the prefix followed by the operation's template; x is the parameter, empty where there is none. */
  predicate Instantiates(prefix: string, path: string, op: Operation, x: string) {
    SlashFree(x) && (op.CreateOrder? ==> x == "") && path == prefix + TemplatePath(op, x)
  }

  function MethodOfOp(op: Operation): string {
    if op.GetOrder? then "GET" else "POST"
  }

  // ---- A plain matcher ----

  function UpToSlash(s: string): (n: nat)
    ensures n <= |s| && SlashFree(s[..n]) && (n < |s| ==> s[n] == '/')
  {
    if s == "" || s[0] == '/' then 0 else
      var n := 1 + UpToSlash(s[1..]);
      assert s[..n] == [s[0]] + s[1..][..n - 1];
      n
  }

  /** Splitting a path below the prefix: the fixed part, the parameter up to the next slash, and the rest. */
  function Match(elem: string): Option<(Operation, string)> {
    if ORDERS <= elem then MatchRest(elem[|ORDERS|..]) else None
  }

  function MatchRest(rest: string): Option<(Operation, string)> {
    if rest == "" then Some((CreateOrder, ""))
    else if rest[0] != '/' then None else
      var n := UpToSlash(rest[1..]);
      MatchTail(rest[1..][..n], rest[1..][n..])
  }

  function MatchTail(x: string, tail: string): Option<(Operation, string)> {
    if tail == "" then Some((GetOrder, x))
    else if tail == "/pay" then Some((PayOrder, x))
    else if tail == "/cancel" then Some((CancelOrder, x))
    else None
  }

  /** There is one first slash. */
  lemma FirstSlash(s: string, n: nat, m: nat)
    requires n <= |s| && SlashFree(s[..n]) && (n < |s| ==> s[n] == '/')
    requires m <= |s| && SlashFree(s[..m]) && (m < |s| ==> s[m] == '/')
    ensures n == m
  {}

  lemma SplitAtSlash(x: string, tail: string)
    requires SlashFree(x) && (tail == "" || tail[0] == '/')
    ensures UpToSlash(x + tail) == |x| && (x + tail)[..|x|] == x && (x + tail)[|x|..] == tail
  {
    var s := x + tail;
    var n := UpToSlash(s);
    FirstSlash(s, n, |x|);
  }

  function TailOf(op: Operation): string {
    match op
    case PayOrder => "/pay"
    case CancelOrder => "/cancel"
    case _ => ""
  }

  lemma MatchOfTemplate(op: Operation, x: string)
    requires SlashFree(x) && (op.CreateOrder? ==> x == "")
    ensures Match(TemplatePath(op, x)) == Some((op, x))
  {
    var elem := TemplatePath(op, x);
    if !op.CreateOrder? {
      assert elem == ORDERS + ("/" + (x + TailOf(op)));
      assert elem[|ORDERS|..] == "/" + (x + TailOf(op));
      assert elem[|ORDERS|..][1..] == x + TailOf(op);
      SplitAtSlash(x, TailOf(op));
    }
  }

  lemma MatchedIsTemplate(elem: string)
    requires Match(elem).Some?
    ensures var (op, x) := Match(elem).value;
            SlashFree(x) && (op.CreateOrder? ==> x == "") && elem == TemplatePath(op, x)
  {
    hide MatchRest, SlashFree;
    var (op, x) := Match(elem).value;
    var rest := elem[|ORDERS|..];
    assert elem == ORDERS + rest;
    if rest == "" {
      NoRest();
    } else {
      MatchedRest(rest);
      assert ORDERS + ("/" + (x + TailOf(op))) == TemplatePath(op, x);
    }
  }

  lemma NoRest()
    ensures MatchRest("") == Some((CreateOrder, "")) && SlashFree("")
  {}

  lemma MatchedRest(rest: string)
    requires rest != "" && MatchRest(rest).Some?
    ensures var (op, x) := MatchRest(rest).value;
            !op.CreateOrder? && SlashFree(x) && rest == "/" + (x + TailOf(op))
  {
    var (op, x) := MatchRest(rest).value;
    var n := UpToSlash(rest[1..]);
    assert rest == "/" + rest[1..];
    assert rest[1..] == rest[1..][..n] + rest[1..][n..];
    assert x == rest[1..][..n] && rest[1..][n..] == TailOf(op);
  }

  /** The matcher finds an operation and parameter if and only if the path is that instance of its template. */
  lemma MatchIsExact(elem: string, op: Operation, x: string)
    ensures Match(elem) == Some((op, x)) <==> Instantiates("", elem, op, x)
  {
    hide Match, TemplatePath, SlashFree;
    assert "" + TemplatePath(op, x) == TemplatePath(op, x);
    if Instantiates("", elem, op, x) {
      MatchOfTemplate(op, x);
    }
    if Match(elem) == Some((op, x)) {
      MatchedIsTemplate(elem);
    }
  }

  /** What follows the prefix, if the path begins with it. */
  function CutPrefix(prefix: string, path: string): Option<string> {
    if prefix == "" then Some(path)
    else if !(prefix <= path) then None
    else Some(path[|prefix|..])
  }

  lemma CutPrefixIsExact(prefix: string, path: string, op: Operation, x: string)
    ensures Instantiates(prefix, path, op, x) <==>
            CutPrefix(prefix, path).Some? && Instantiates("", CutPrefix(prefix, path).value, op, x)
  {
    assert "" + TemplatePath(op, x) == TemplatePath(op, x);
    if CutPrefix(prefix, path).Some? {
      assert path == prefix + CutPrefix(prefix, path).value;
    }
    if path == prefix + TemplatePath(op, x) {
      assert path[|prefix|..] == TemplatePath(op, x);
    }
  }

  /** No path instantiates two templates, nor one template with two parameters. */
  lemma InstanceIsUnique(prefix: string, path: string, op1: Operation, x1: string, op2: Operation, x2: string)
    requires Instantiates(prefix, path, op1, x1) && Instantiates(prefix, path, op2, x2)
    ensures op1 == op2 && x1 == x2
  {
    hide Instantiates, Match;
    CutPrefixIsExact(prefix, path, op1, x1);
    CutPrefixIsExact(prefix, path, op2, x2);
    MatchIsExact(CutPrefix(prefix, path).value, op1, x1);
    MatchIsExact(CutPrefix(prefix, path).value, op2, x2);
  }

  // ---- The dispatching trie ----

  /** What the dispatcher tells about a path whose verb does not dispatch; an absent header table is an empty one. */
  datatype Allowance = Allowance(
    allowedMethods: string, allowedHeaders: map<string, string>, acceptPost: string, acceptPatch: string)

  const BODY_HEADERS: map<string, string> := map["POST" := "Content-Type"]

  function AllowanceOf(op: Operation): Allowance {
    match op
    case CreateOrder => Allowance("POST", BODY_HEADERS, "application/json", "")
    case GetOrder => Allowance("GET", map[], "", "")
    case PayOrder => Allowance("POST", BODY_HEADERS, "application/json", "")
    case CancelOrder => Allowance("POST", map[], "", "")
  }

  /** What the dispatcher does with a request. */
  datatype Served =
    | NoRoute
    | NotAllowed(allowance: Allowance)
    | Dispatched(op: Operation, arg: string)

  /** What a plain template matcher would do. */
  function Route(prefix: string, verb: string, path: string): Served {
    var elem := CutPrefix(prefix, path);
    if elem.None? then NoRoute else
      match Match(elem.value)
      case None => NoRoute
      case Some((op, x)) => if verb == MethodOfOp(op) then Dispatched(op, x) else NotAllowed(AllowanceOf(op))
  }

  /**
   The dispatcher calls an operation's handler with argument x if and only if the path is the prefix and that
   operation's template with x, and the verb is the operation's; a matching path with another verb is refused with
   what that operation allows; any other path is not found.
   */
  lemma RouteMeetsTemplates(prefix: string, verb: string, path: string)
    ensures forall op, x :: Route(prefix, verb, path) == Dispatched(op, x) <==>
              Instantiates(prefix, path, op, x) && verb == MethodOfOp(op)
    ensures forall a :: Route(prefix, verb, path) == NotAllowed(a) <==>
              exists op, x :: Instantiates(prefix, path, op, x) && verb != MethodOfOp(op) && a == AllowanceOf(op)
    ensures Route(prefix, verb, path) == NoRoute <==> forall op, x :: !Instantiates(prefix, path, op, x)
  {
    hide Instantiates, Match, CutPrefix, MethodOfOp, AllowanceOf;
    forall op, x
      ensures Instantiates(prefix, path, op, x) <==>
              CutPrefix(prefix, path).Some? && Match(CutPrefix(prefix, path).value) == Some((op, x))
    {
      CutPrefixIsExact(prefix, path, op, x);
      if CutPrefix(prefix, path).Some? { MatchIsExact(CutPrefix(prefix, path).value, op, x); }
    }
  }

  // ---- Refusals ----

  datatype Answer = Answer(status: int, headers: map<string, string>)

  function With(headers: map<string, string>, name: string, value: string, given: bool): map<string, string> {
    if given then headers[name := value] else headers
  }

  /** The headers after an OPTIONS request; `requested` is the verb it asks about, `upper` puts it in capitals. */
  function PreflightOver(h: map<string, string>, a: Allowance, requested: string, upper: string -> string)
    : map<string, string>
  {
    var named := requested != "" && upper(requested) in a.allowedHeaders;
    var h := With(h, "Access-Control-Allow-Methods", a.allowedMethods, true);
    var h := With(h, "Access-Control-Allow-Headers", if named then a.allowedHeaders[upper(requested)] else "", named);
    var h := With(h, "Accept-Post", a.acceptPost, a.acceptPost != "");
    With(h, "Accept-Patch", a.acceptPatch, a.acceptPatch != "")
  }

  function PreflightHeaders(a: Allowance, requested: string, upper: string -> string): map<string, string> {
    PreflightOver(map[], a, requested, upper)
  }

  lemma WithMerges(base: map<string, string>, h: map<string, string>, name: string, value: string, given: bool)
    ensures With(base + h, name, value, given) == base + With(h, name, value, given)
  {}

  /** Headers that were set before stay, unless they are set again. */
  lemma PreflightMerges(base: map<string, string>, a: Allowance, requested: string, upper: string -> string)
    ensures PreflightOver(base, a, requested, upper) == base + PreflightHeaders(a, requested, upper)
  {
    hide With;
    var named := requested != "" && upper(requested) in a.allowedHeaders;
    var value := if named then a.allowedHeaders[upper(requested)] else "";
    assert base + map[] == base;
    WithMerges(base, map[], "Access-Control-Allow-Methods", a.allowedMethods, true);
    var h1 := With(map[], "Access-Control-Allow-Methods", a.allowedMethods, true);
    WithMerges(base, h1, "Access-Control-Allow-Headers", value, named);
    var h2 := With(h1, "Access-Control-Allow-Headers", value, named);
    WithMerges(base, h2, "Accept-Post", a.acceptPost, a.acceptPost != "");
    var h3 := With(h2, "Accept-Post", a.acceptPost, a.acceptPost != "");
    WithMerges(base, h3, "Accept-Patch", a.acceptPatch, a.acceptPatch != "");
  }

  /** The answer to a refused request. */
  function Refuse(verb: string, requested: string, upper: string -> string, a: Allowance): Answer {
    if verb == "OPTIONS" then Answer(204, PreflightHeaders(a, requested, upper))
    else Answer(405, map["Allow" := a.allowedMethods])
  }

  class AnswerWriter {
    var status: int
    var headers: map<string, string>

    constructor ()
      ensures status == 0 && headers == map[]
    {
      status, headers := 0, map[];
    }

    method Set(name: string, value: string)
      modifies this`headers
      ensures headers == old(headers)[name := value]
    {
      headers := headers[name := value];
    }

    /** Sets what an OPTIONS request is told, over whatever is set already. */
    method WritePreflight(requested: string, upper: string -> string, a: Allowance)
      modifies this`headers
      ensures headers == old(headers) + PreflightHeaders(a, requested, upper)
    {
      hide PreflightHeaders;
      PreflightMerges(headers, a, requested, upper);
      Set("Access-Control-Allow-Methods", a.allowedMethods);
      if requested != "" {
        if upper(requested) in a.allowedHeaders {
          Set("Access-Control-Allow-Headers", a.allowedHeaders[upper(requested)]);
        }
      }
      if a.acceptPost != "" {
        Set("Accept-Post", a.acceptPost);
      }
      if a.acceptPatch != "" {
        Set("Accept-Patch", a.acceptPatch);
      }
    }

    /** Refuses a request, or leaves that to a configured hook once the OPTIONS headers are set. */
    method WriteRefusal(verb: string, requested: string, upper: string -> string, a: Allowance, hooked: bool)
      returns (forHook: Option<string>)
      modifies this
      ensures forHook == if hooked then Some(a.allowedMethods) else None
      ensures !hooked ==> var answer := Refuse(verb, requested, upper, a);
                          status == answer.status && headers == old(headers) + answer.headers
      ensures hooked ==>
                && status == old(status)
                && headers == if verb == "OPTIONS" then old(headers) + PreflightHeaders(a, requested, upper) else old(headers)
    {
      hide PreflightHeaders;
      var isOptions := verb == "OPTIONS";
      if isOptions {
        WritePreflight(requested, upper, a);
      }
      if hooked {
        return Some(a.allowedMethods);
      }
      var code := 204;
      if !isOptions {
        Set("Allow", a.allowedMethods);
        code := 405;
      }
      status := code;
      forHook := None;
    }
  }

  predicate ReadsBody(op: Operation) {
    op.CreateOrder? || op.PayOrder?
  }

  /**
   A matched path with a verb that does not dispatch is answered 405 with the dispatching verbs, exactly one, as the
   Allow list, if and only if the verb is not OPTIONS. That verb is answered 204, with the same list for CORS; it is
   offered a content type for exactly the verbs that dispatch to an operation that reads a body, and the JSON media type
   for posting exactly when there is such an operation.
   */
  lemma RefusalListsWhatDispatches(prefix: string, verb: string, path: string, requested: string, upper: string -> string)
    requires Route(prefix, verb, path).NotAllowed?
    ensures var a := Route(prefix, verb, path).allowance; var r := Refuse(verb, requested, upper, a);
      && (forall v :: Route(prefix, v, path).Dispatched? <==> v == a.allowedMethods)
      && (r == Answer(405, map["Allow" := a.allowedMethods]) <==> verb != "OPTIONS")
      && (verb == "OPTIONS" ==>
            && r.status == 204 && "Allow" !in r.headers && "Accept-Patch" !in r.headers
            && "Access-Control-Allow-Methods" in r.headers
            && r.headers["Access-Control-Allow-Methods"] == a.allowedMethods
            && ("Access-Control-Allow-Headers" in r.headers <==>
                  requested != "" && var s := Route(prefix, upper(requested), path); s.Dispatched? && ReadsBody(s.op))
            && ("Accept-Post" in r.headers <==>
                  var s := Route(prefix, a.allowedMethods, path); s.Dispatched? && ReadsBody(s.op))
            && ("Access-Control-Allow-Headers" in r.headers ==> r.headers["Access-Control-Allow-Headers"] == "Content-Type")
            && ("Accept-Post" in r.headers ==> r.headers["Accept-Post"] == "application/json"))
  {
    hide Match, CutPrefix, PreflightHeaders, MethodOfOp;
    var a := Route(prefix, verb, path).allowance;
    var op :| a == AllowanceOf(op) && forall v ::
      Route(prefix, v, path) == if v == MethodOfOp(op) then Dispatched(op, Match(CutPrefix(prefix, path).value).value.1)
                                else NotAllowed(AllowanceOf(op));
    PreflightOf(op, requested, upper);
    hide Route, AllowanceOf;
  }

  /** What an OPTIONS request is told about an operation. */
  lemma PreflightOf(op: Operation, requested: string, upper: string -> string)
    ensures AllowanceOf(op).allowedMethods == MethodOfOp(op) && MethodOfOp(op) != "OPTIONS"
    ensures var h := PreflightHeaders(AllowanceOf(op), requested, upper);
      && "Allow" !in h && "Accept-Patch" !in h
      && "Access-Control-Allow-Methods" in h && h["Access-Control-Allow-Methods"] == MethodOfOp(op)
      && ("Access-Control-Allow-Headers" in h <==> requested != "" && upper(requested) == MethodOfOp(op) && ReadsBody(op))
      && ("Accept-Post" in h <==> ReadsBody(op))
      && ("Access-Control-Allow-Headers" in h ==> h["Access-Control-Allow-Headers"] == "Content-Type")
      && ("Accept-Post" in h ==> h["Accept-Post"] == "application/json")
  {
    HeaderNamesDiffer();
  }

  /** The length and the last letter tell the header names apart. */
  lemma HeaderNamesDiffer()
    ensures "Allow" != "Access-Control-Allow-Methods" && "Allow" != "Access-Control-Allow-Headers"
    ensures "Access-Control-Allow-Methods" != "Access-Control-Allow-Headers"
    ensures "Accept-Post" != "Access-Control-Allow-Methods" && "Accept-Post" != "Access-Control-Allow-Headers"
    ensures "Allow" != "Accept-Post" && "Accept-Patch" != "Accept-Post" && "Accept-Patch" != "Allow"
    ensures "Accept-Patch" != "Access-Control-Allow-Methods" && "Accept-Patch" != "Access-Control-Allow-Headers"
  {
    assert "Access-Control-Allow-Methods"[21] == 'M' && "Access-Control-Allow-Headers"[21] == 'H';
    assert |"Allow"| == 5 && |"Accept-Post"| == 11 && |"Accept-Patch"| == 12 && |"Access-Control-Allow-Methods"| == 28;
    assert |"Access-Control-Allow-Headers"| == 28;
  }

  /** The position of the next slash, or the length when there is none. */
  method IndexOfSlash(s: string) returns (idx: nat)
    ensures idx == UpToSlash(s)
  {
    idx := 0;
    while idx < |s| && s[idx] != '/'
      invariant idx <= |s| && UpToSlash(s) == idx + UpToSlash(s[idx..])
    {
      assert s[idx..][1..] == s[idx + 1..];
      idx := idx + 1;
    }
  }

  /** The path that is routed, and whether it is escaped: the normalised raw path where there is one, else the path. */
  function Routed(path: string, rawPath: string, normalize: string -> Option<string>): (string, bool) {
    if rawPath != "" && normalize(rawPath).Some? then (normalize(rawPath).value, '%' in normalize(rawPath).value)
    else (path, false)
  }

  /** Serves a request; `escaped` goes to the handler with the argument. */
  method ServeHTTP(prefix: string, verb: string, path: string, rawPath: string, normalize: string -> Option<string>)
    returns (served: Served, escaped: bool)
    ensures served == Route(prefix, verb, Routed(path, rawPath, normalize).0)
    ensures escaped == Routed(path, rawPath, normalize).1
  {
    var elem := path;
    escaped := false;
    if rawPath != "" {
      var normalized := normalize(rawPath);
      if normalized.Some? {
        elem := normalized.value;
        escaped := '%' in elem;
      }
    }
    served := Dispatch(prefix, verb, elem);
  }

  /** The unrolled trie. */
  method Dispatch(prefix: string, verb: string, path: string) returns (served: Served)
    ensures served == Route(prefix, verb, path)
  {
    hide CutPrefix, UpToSlash, Match, MatchRest, MatchTail;
    var cut := CutPrefix(prefix, path);
    if cut.None? || |cut.value| == 0 {
      NothingMatchesEmpty();
      return NoRoute;
    }
    var elem := cut.value;
    Levels(elem);
    if elem[0] == '/' {
      if |elem| >= |ORDERS| && elem[..|ORDERS|] == ORDERS {
        elem := elem[|ORDERS|..];
        if |elem| == 0 {
          return if verb == "POST" then Dispatched(CreateOrder, "")
                 else NotAllowed(Allowance("POST", BODY_HEADERS, "application/json", ""));
        }
        if elem[0] == '/' {
          elem := elem[1..];
          var idx := IndexOfSlash(elem);
          var arg := elem[..idx];
          elem := elem[idx..];
          TailLevels(arg, elem);
          if |elem| == 0 {
            return if verb == "GET" then Dispatched(GetOrder, arg) else NotAllowed(Allowance("GET", map[], "", ""));
          }
          if elem[0] == '/' {
            elem := elem[1..];
            if |elem| != 0 {
              if elem[0] == 'c' {
                if |elem| >= 6 && elem[..6] == "cancel" {
                  elem := elem[6..];
                  if |elem| == 0 {
                    return if verb == "POST" then Dispatched(CancelOrder, arg)
                           else NotAllowed(Allowance("POST", map[], "", ""));
                  }
                }
              } else if elem[0] == 'p' {
                if |elem| >= 3 && elem[..3] == "pay" {
                  elem := elem[3..];
                  if |elem| == 0 {
                    return if verb == "POST" then Dispatched(PayOrder, arg)
                           else NotAllowed(Allowance("POST", BODY_HEADERS, "application/json", ""));
                  }
                }
              }
            }
          }
        }
      }
    }
    return NoRoute;
  }

  lemma NothingMatchesEmpty()
    ensures Match("") == None
  {}

  /** The first levels of the trie: the fixed part, then a slash or the end. */
  lemma Levels(elem: string)
    requires elem != ""
    ensures elem[0] != '/' || |elem| < |ORDERS| || elem[..|ORDERS|] != ORDERS ==> Match(elem) == None
    ensures |elem| >= |ORDERS| && elem[..|ORDERS|] == ORDERS ==>
              var rest := elem[|ORDERS|..];
              && Match(elem) == MatchRest(rest)
              && (rest == "" ==> MatchRest(rest) == Some((CreateOrder, "")))
              && (rest != "" && rest[0] != '/' ==> MatchRest(rest) == None)
              && (rest != "" && rest[0] == '/' ==>
                    var n := UpToSlash(rest[1..]); MatchRest(rest) == MatchTail(rest[1..][..n], rest[1..][n..]))
  {
    hide MatchTail;
  }

  /** A leaf's test: the word is cut off and nothing is left. */
  predicate Ends(e: string, word: string) {
    |e| >= |word| && e[..|word|] == word && |e[|word|..]| == 0
  }

  /** The last levels of the trie, below the parameter. */
  lemma TailLevels(x: string, tail: string)
    ensures tail == "" ==> MatchTail(x, tail) == Some((GetOrder, x))
    ensures tail != "" && (tail[0] != '/' || |tail| == 1) ==> MatchTail(x, tail) == None
    ensures |tail| > 1 && tail[0] == '/' ==>
              var e := tail[1..];
              && (e[0] != 'c' && e[0] != 'p' ==> MatchTail(x, tail) == None)
              && (e[0] == 'c' ==> MatchTail(x, tail) == (if Ends(e, "cancel") then Some((CancelOrder, x)) else None))
              && (e[0] == 'p' ==> MatchTail(x, tail) == (if Ends(e, "pay") then Some((PayOrder, x)) else None))
  {
    if tail != "" {
      assert tail == [tail[0]] + tail[1..];
      assert tail == "/pay" <==> tail[0] == '/' && tail[1..] == "pay";
      assert tail == "/cancel" <==> tail[0] == '/' && tail[1..] == "cancel";
    }
    if |tail| > 1 {
      var e := tail[1..];
      assert |e| >= 6 ==> e == e[..6] + e[6..];
      assert |e| >= 3 ==> e == e[..3] + e[3..];
    }
  }

  // ---- The describing trie ----

  datatype RouteInfo = RouteInfo(
    name: string, summary: string, operationID: string, operationGroup: string, pathPattern: string, count: nat, arg: string)

  function InfoOf(op: Operation, arg: string): RouteInfo {
    match op
    case CreateOrder => RouteInfo("CreateOrder", "Создать заказ", "createOrder", "", "/api/v1/orders", 0, arg)
    case GetOrder => RouteInfo("GetOrder", "Получить заказ по UUID", "getOrder", "", "/api/v1/orders/{order_uuid}", 1, arg)
    case PayOrder => RouteInfo("PayOrder", "Оплатить заказ", "payOrder", "", "/api/v1/orders/{order_uuid}/pay", 1, arg)
    case CancelOrder => RouteInfo("CancelOrder", "Отменить заказ", "cancelOrder", "", "/api/v1/orders/{order_uuid}/cancel", 1, arg)
  }

  function Unescaped(unescape: string -> Option<string>, arg: string): string {
    var u := unescape(arg);
    if u.Some? then u.value else arg
  }

  /** The argument as described: unescaped where there is a raw path, whether or not that could be normalised. */
  function DescribedArg(op: Operation, arg: string, rawPath: string, unescape: string -> Option<string>): string {
    if rawPath != "" && InfoOf(op, arg).count > 0 then Unescaped(unescape, arg) else arg
  }

  /** Finds the route of a URL. */
  method FindPath(prefix: string, verb: string, path: string, rawPath: string,
                  normalize: string -> Option<string>, unescape: string -> Option<string>)
    returns (found: Option<RouteInfo>)
    ensures found == match Route(prefix, verb, Routed(path, rawPath, normalize).0)
                     case Dispatched(op, arg) => Some(InfoOf(op, DescribedArg(op, arg, rawPath, unescape)))
                     case _ => None
  {
    hide Route;
    var elem := path;
    if rawPath != "" {
      var normalized := normalize(rawPath);
      if normalized.Some? {
        elem := normalized.value;
      }
    }
    found := Describe(prefix, verb, elem);
    if rawPath != "" && found.Some? && found.value.count > 0 {
      var unescaped := unescape(found.value.arg);
      if unescaped.Some? {
        found := Some(found.value.(arg := unescaped.value));
      }
    }
  }

  /** The trie unrolled a second time, with other outcomes at its leaves. */
  method Describe(prefix: string, verb: string, path: string) returns (found: Option<RouteInfo>)
    ensures found == match Route(prefix, verb, path)
                     case Dispatched(op, arg) => Some(InfoOf(op, arg))
                     case _ => None
  {
    hide CutPrefix, UpToSlash, Match, MatchRest, MatchTail;
    var cut := CutPrefix(prefix, path);
    if cut.None? {
      return None;
    }
    var elem := cut.value;
    var arg := "";
    NothingMatchesEmpty();
    if |elem| == 0 {
      return None;
    }
    Levels(elem);
    if elem[0] == '/' {
      if |elem| >= |ORDERS| && elem[..|ORDERS|] == ORDERS {
        elem := elem[|ORDERS|..];
        if |elem| == 0 {
          return if verb == "POST" then Some(RouteInfo("CreateOrder", "Создать заказ", "createOrder", "", "/api/v1/orders", 0, arg)) else None;
        }
        if elem[0] == '/' {
          elem := elem[1..];
          var idx := IndexOfSlash(elem);
          arg := elem[..idx];
          elem := elem[idx..];
          TailLevels(arg, elem);
          if |elem| == 0 {
            return if verb == "GET" then Some(RouteInfo("GetOrder", "Получить заказ по UUID", "getOrder", "", "/api/v1/orders/{order_uuid}", 1, arg)) else None;
          }
          if elem[0] == '/' {
            elem := elem[1..];
            if |elem| != 0 {
              if elem[0] == 'c' {
                if |elem| >= 6 && elem[..6] == "cancel" {
                  elem := elem[6..];
                  if |elem| == 0 {
                    return if verb == "POST" then Some(RouteInfo("CancelOrder", "Отменить заказ", "cancelOrder", "", "/api/v1/orders/{order_uuid}/cancel", 1, arg)) else None;
                  }
                }
              } else if elem[0] == 'p' {
                if |elem| >= 3 && elem[..3] == "pay" {
                  elem := elem[3..];
                  if |elem| == 0 {
                    return if verb == "POST" then Some(RouteInfo("PayOrder", "Оплатить заказ", "payOrder", "", "/api/v1/orders/{order_uuid}/pay", 1, arg)) else None;
                  }
                }
              }
            }
          }
        }
      }
    }
    return None;
  }

  /** The pattern of an operation is its template with the parameter's name in braces. */
  lemma PatternIsTemplate(op: Operation, arg: string)
    ensures InfoOf(op, arg).pathPattern == TemplatePath(op, "{order_uuid}")
  {
    assert ORDERS + "/" + "{order_uuid}" == "/api/v1/orders/{order_uuid}";
    assert "/api/v1/orders/{order_uuid}" + "/pay" == "/api/v1/orders/{order_uuid}/pay";
    assert "/api/v1/orders/{order_uuid}" + "/cancel" == "/api/v1/orders/{order_uuid}/cancel";
  }

  /** What describes an operation: its name, its id, its pattern and its one parameter, if it has one. */
  lemma InfoIsDeclared(op: Operation, arg: string)
    ensures var info := InfoOf(op, arg);
      && info.name == (match op
                       case CreateOrder => "CreateOrder"
                       case GetOrder => "GetOrder"
                       case PayOrder => "PayOrder"
                       case CancelOrder => "CancelOrder")
      && info.operationID == (match op
                              case CreateOrder => "createOrder"
                              case GetOrder => "getOrder"
                              case PayOrder => "payOrder"
                              case CancelOrder => "cancelOrder")
      && info.pathPattern == TemplatePath(op, "{order_uuid}") && info.operationGroup == ""
      && info.count == (if op.CreateOrder? then 0 else 1) && info.arg == arg
  {
    PatternIsTemplate(op, arg);
    hide TemplatePath;
  }

  lemma InfoNamesTheOperation(op1: Operation, arg1: string, op2: Operation, arg2: string)
    ensures InfoOf(op1, arg1) == InfoOf(op2, arg2) <==> op1 == op2 && arg1 == arg2
  {
    assert |InfoOf(CreateOrder, "").name| == 11 && |InfoOf(GetOrder, "").name| == 8;
    assert InfoOf(PayOrder, "").name[0] == 'P' && InfoOf(CancelOrder, "").name[1] == 'a';
  }

  /** Both routers on one request: a route is found exactly when the dispatcher calls its handler. */
  method RunBoth(prefix: string, verb: string, path: string, rawPath: string,
                 normalize: string -> Option<string>, unescape: string -> Option<string>)
    returns (served: Served, escaped: bool, found: Option<RouteInfo>)
    ensures found.Some? <==> served.Dispatched?
    ensures forall op, arg :: served == Dispatched(op, arg) ==>
              found == Some(InfoOf(op, DescribedArg(op, arg, rawPath, unescape)))
    ensures forall op, arg :: served == Dispatched(op, arg) <==>
              Instantiates(prefix, Routed(path, rawPath, normalize).0, op, arg) && verb == MethodOfOp(op)
    ensures rawPath == "" ==> forall op, arg :: found == Some(InfoOf(op, arg)) <==> served == Dispatched(op, arg)
    ensures escaped == Routed(path, rawPath, normalize).1
  {
    served, escaped := ServeHTTP(prefix, verb, path, rawPath, normalize);
    found := FindPath(prefix, verb, path, rawPath, normalize, unescape);
    RouteMeetsTemplates(prefix, verb, Routed(path, rawPath, normalize).0);
    hide Route, Instantiates, InfoOf, MethodOfOp, Routed;
    forall op1, arg1, op2, arg2 {
      InfoNamesTheOperation(op1, arg1, op2, arg2);
    }
  }

  /** The text from which a handler's parameter is parsed, if its argument can be unescaped. */
  function ParamText(unescape: string -> Option<string>, arg: string, escaped: bool): Option<string> {
    if escaped then unescape(arg) else Some(arg)
  }

  /** Unescaping changes a text, if it succeeds, exactly when there is a percent sign in it. */
  ghost predicate OnlyPercentEscapes(unescape: string -> Option<string>) {
    forall s: string :: unescape(s) == Some(s) <==> '%' !in s
  }

  lemma ArgIsPartOfPath(prefix: string, path: string, op: Operation, x: string, c: char)
    requires Instantiates(prefix, path, op, x) && c in x
    ensures c in path
  {
    if !op.CreateOrder? {
      assert path == prefix + ORDERS + "/" + x + TailOf(op);
    }
  }

  /**
   The argument described by the second router is the text from which the handler of the first parses its parameter,
   if and only if the raw path is absent or could be normalised, or the argument has no escapes or broken ones.
   */
  lemma TwinsAgreeOnTextExactlyWhen(prefix: string, path: string, rawPath: string, op: Operation, arg: string,
                                    normalize: string -> Option<string>, unescape: string -> Option<string>)
    requires OnlyPercentEscapes(unescape)
    requires Instantiates(prefix, Routed(path, rawPath, normalize).0, op, arg) && InfoOf(op, arg).count > 0
    requires ParamText(unescape, arg, Routed(path, rawPath, normalize).1).Some?
    ensures ParamText(unescape, arg, Routed(path, rawPath, normalize).1) == Some(DescribedArg(op, arg, rawPath, unescape))
            <==> rawPath == "" || normalize(rawPath).Some? || '%' !in arg || unescape(arg).None?
  {
    hide InfoOf, Instantiates;
    if rawPath != "" && normalize(rawPath).Some? && '%' !in normalize(rawPath).value && '%' in arg {
      ArgIsPartOfPath(prefix, normalize(rawPath).value, op, arg, '%');
      assert false;
    }
  }

  /** With a raw path that cannot be normalised, what the second router describes is unescaped once too often. */
  lemma TwinsCanDiffer(normalize: string -> Option<string>, unescape: string -> Option<string>, rawPath: string)
    requires rawPath != "" && normalize(rawPath) == None && unescape("%41") == Some("A")
    ensures var path := "/api/v1/orders/%41";
      && Route("", "GET", Routed(path, rawPath, normalize).0) == Dispatched(GetOrder, "%41")
      && ParamText(unescape, "%41", Routed(path, rawPath, normalize).1) == Some("%41")
      && DescribedArg(GetOrder, "%41", rawPath, unescape) == "A"
  {
    var path := "/api/v1/orders/%41";
    assert path == "" + (ORDERS + "/" + "%41");
    assert Instantiates("", path, GetOrder, "%41");
    RouteMeetsTemplates("", "GET", path);
  }
}
