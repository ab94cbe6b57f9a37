/**
 * The Brezel API client (`Brezel\Client\Client`): its configuration and impersonation
 * state, the module registry that decides which entity class a module's records become,
 * and the shaping of every request — path, headers, body, query — around one transport
 * call, together with the shaping of the replies into entities.
 *
 * The transport, `json_decode` and `json_encode` are not modelled: they are the functions
 * of an `Io` value that every request receives.
 */
module Clients {
  import opened Wrappers
  import opened PhpScalars
  import opened PhpArrays
  import opened Entities

  /** One element of an array path: a string, an integer or null. */
  datatype Piece = Word(s: string) | Num(n: int) | Absent

  /** A request path: one string, or an array of segments joined by `/`. */
  datatype Path = Whole(s: string) | Parts(pieces: seq<Piece>)

  /** How `implode` writes a segment. */
  function PieceText(p: Piece): string {
    match p
    case Word(s) => s
    case Num(n) => Decimal(n)
    case Absent => ""
  }

  /** PHP's truthiness of a segment: `array_filter` keeps exactly these. */
  predicate Truthy(p: Piece) {
    match p
    case Word(s) => TruthyString(s)
    case Num(n) => n != 0
    case Absent => false
  }

  function Texts(ps: seq<Piece>): (r: seq<string>)
    ensures |r| == |ps| && forall i :: 0 <= i < |ps| ==> r[i] == PieceText(ps[i])
  {
    seq(|ps|, i requires 0 <= i < |ps| => PieceText(ps[i]))
  }

  /** `is_array($path) ? implode('/', $path) : $path`. */
  function Uri(path: Path): string {
    match path
    case Whole(s) => s
    case Parts(ps) => Implode("/", Texts(ps))
  }

  /** `is_array($path) ? $path : [$path]`. */
  function PathPieces(path: Path): seq<Piece> {
    match path
    case Whole(s) => [Word(s)]
    case Parts(ps) => ps
  }

  /** The path a system request sends: `[$this->system, ...$path]`, joined. */
  function SystemUri(system: string, path: Path): string {
    Uri(Parts([Word(system)] + PathPieces(path)))
  }

  /** Joining a first part in front of the rest puts exactly one separator between them. */
  lemma ImplodeCons(glue: string, a: string, rest: seq<string>)
    ensures Implode(glue, [a] + rest) == if rest == [] then a else a + glue + Implode(glue, rest)
  {
    assert ([a] + rest)[1..] == rest;
  }

  /**
   * A system request goes to `system/<path>`: the system segment comes first, then the
   * given path; an empty array path leaves only the system segment.
   */
  lemma SystemUriShape(system: string, path: Path)
    ensures SystemUri(system, path) == if PathPieces(path) == [] then system else system + "/" + Uri(Parts(PathPieces(path)))
    ensures path.Whole? ==> SystemUri(system, path) == system + "/" + path.s
  {
    var ps := PathPieces(path);
    assert Texts([Word(system)] + ps) == [system] + Texts(ps);
    ImplodeCons("/", system, Texts(ps));
    if path.Whole? {
      assert Texts(ps) == [path.s];
    }
  }

  /** `array_filter` without a callback: drop the falsy segments, keep the others in order. */
  function FilterFalsy(ps: seq<Piece>): (r: seq<Piece>)
    ensures |r| <= |ps|
    ensures forall p | p in r :: p in ps && Truthy(p)
    ensures forall p | p in ps && Truthy(p) :: p in r
  {
    if ps == [] then []
    else if Truthy(ps[0]) then [ps[0]] + FilterFalsy(ps[1..])
    else FilterFalsy(ps[1..])
  }

  /** A path without falsy segments passes the filter unchanged. */
  lemma {:induction false} FilterTruthy(ps: seq<Piece>)
    requires forall p | p in ps :: Truthy(p)
    ensures FilterFalsy(ps) == ps
  {
    if ps != [] {
      assert forall p | p in ps[1..] :: p in ps;
      FilterTruthy(ps[1..]);
    }
  }

  /** Filtering keeps the order: it works piece by piece. */
  lemma {:induction false} FilterConcat(a: seq<Piece>, b: seq<Piece>)
    ensures FilterFalsy(a + b) == FilterFalsy(a) + FilterFalsy(b)
  {
    if a != [] {
      assert (a + b)[0] == a[0] && (a + b)[1..] == a[1..] + b;
      FilterConcat(a[1..], b);
    } else {
      assert a + b == b;
    }
  }

  /** Filtering twice is filtering once. */
  lemma {:induction false} FilterIdempotent(ps: seq<Piece>)
    ensures FilterFalsy(FilterFalsy(ps)) == FilterFalsy(ps)
  {
    FilterTruthy(FilterFalsy(ps));
  }

  function Word0(o: Option<string>): Piece {
    if o.Some? then Word(o.value) else Absent
  }

  function Num0(o: Option<int>): Piece {
    if o.Some? then Num(o.value) else Absent
  }

  /**
   * `array_filter(['webhook', $event, $module, $entityId])`: `webhook` always leads and
   * the event follows it exactly when it is truthy; a truthy module and a non-zero entity
   * id are kept.
   */
  function WebhookPieces(event: string, moduleName: Option<string>, entityId: Option<int>): (r: seq<Piece>)
    ensures |r| > 0 && r[0] == Word("webhook")
    ensures forall p | p in r :: Truthy(p)
    ensures (|r| > 1 && r[1] == Word(event)) <==> TruthyString(event)
    ensures moduleName.Some? && TruthyString(moduleName.value) ==> Word(moduleName.value) in r
    ensures entityId.Some? ==> (Num(entityId.value) in r <==> entityId.value != 0)
    ensures Absent !in r
  {
    var a, b, c, d := Word("webhook"), Word(event), Word0(moduleName), Num0(entityId);
    FilterFour(a, b, c, d);
    FilterFalsy([a, b, c, d])
  }

  /** The webhook path exactly: `webhook`, then the event, module and entity id that are truthy, in that order. */
  lemma WebhookPath(event: string, moduleName: Option<string>, entityId: Option<int>)
    ensures WebhookPieces(event, moduleName, entityId) ==
      [Word("webhook")] + ((if TruthyString(event) then [Word(event)] else [])
      + ((if moduleName.Some? && TruthyString(moduleName.value) then [Word(moduleName.value)] else [])
      + (if entityId.Some? && entityId.value != 0 then [Num(entityId.value)] else [])))
  {
    var a, b, c, d := Word("webhook"), Word(event), Word0(moduleName), Num0(entityId);
    FilterFour(a, b, c, d);
    assert Kept(a) == [Word("webhook")];
    assert Kept(b) == if TruthyString(event) then [Word(event)] else [];
    assert Kept(c) == if moduleName.Some? && TruthyString(moduleName.value) then [Word(moduleName.value)] else [];
    assert Kept(d) == if entityId.Some? && entityId.value != 0 then [Num(entityId.value)] else [];
  }

  /** The segment `p` as the filter leaves it: itself when truthy, nothing otherwise. */
  function Kept(p: Piece): seq<Piece> {
    if Truthy(p) then [p] else []
  }

  lemma FilterFour(a: Piece, b: Piece, c: Piece, d: Piece)
    ensures FilterFalsy([a, b, c, d]) == Kept(a) + (Kept(b) + (Kept(c) + Kept(d)))
  {
    var s3: seq<Piece> := [d];
    var s2 := [c] + s3;
    var s1 := [b] + s2;
    var s0 := [a] + s1;
    assert s0 == [a, b, c, d];
    assert s3 == [d] + [];
    FilterCons(d, []);
    FilterCons(c, s3);
    FilterCons(b, s2);
    FilterCons(a, s1);
  }

  lemma FilterCons(p: Piece, rest: seq<Piece>)
    ensures FilterFalsy([p] + rest) == Kept(p) + FilterFalsy(rest)
  {
    assert ([p] + rest)[1..] == rest;
  }

  /** What a module's records are built with: a class name, or a factory callable. */
  datatype Ctor = ClassRef(cls: string) | Callable(make: PhpArray<Value> -> Entity)

  /** The registry after a sequence of `registerModule` calls: later calls win. */
  function Registry(h: seq<(string, Ctor)>): map<string, Ctor>
    decreases |h|
  {
    if h == [] then map[] else Registry(h[..|h| - 1])[h[|h| - 1].0 := h[|h| - 1].1]
  }

  /** The constructor of the last registration of `m`, if any. */
  function Latest(h: seq<(string, Ctor)>, m: string): (r: Option<Ctor>)
    ensures r.None? <==> forall i | 0 <= i < |h| :: h[i].0 != m
    decreases |h|
  {
    if h == [] then None
    else if h[|h| - 1].0 == m then Some(h[|h| - 1].1)
    else
      var p := h[..|h| - 1];
      assert forall i | 0 <= i < |p| :: p[i] == h[i];
      Latest(p, m)
  }

  /** The registration that `Latest` finds is the last one for `m`. */
  lemma {:induction false} LatestIsLast(h: seq<(string, Ctor)>, m: string, i: nat)
    requires i < |h| && h[i].0 == m && forall j | i < j < |h| :: h[j].0 != m
    ensures Latest(h, m) == Some(h[i].1)
    decreases |h|
  {
    if i < |h| - 1 {
      var p := h[..|h| - 1];
      LatestIsLast(p, m, i);
    }
  }

  /** The registry map answers what the registration history says. */
  lemma {:induction false} RegistryLatest(h: seq<(string, Ctor)>, m: string)
    ensures m in Registry(h) <==> Latest(h, m).Some?
    ensures m in Registry(h) ==> Registry(h)[m] == Latest(h, m).value
    decreases |h|
  {
    if h != [] {
      RegistryLatest(h[..|h| - 1], m);
    }
  }

  /** `e` is what the constructor `ctor` makes of `attrs` (a factory is opaque). */
  ghost predicate Made(t: ClassTable, ctor: Ctor, attrs: PhpArray<Value>, e: Entity, view: View) {
    match ctor
    case ClassRef(c) => Built(t, c, attrs, e, view)
    case Callable(f) => e == f(attrs)
  }

  /** The error `initEntity` throws with the constructor `ctor`, if any. */
  function MakeFailure(t: ClassTable, ctor: Ctor, attrs: PhpArray<Value>): Option<Error> {
    match ctor
    case ClassRef(c) => Failure(t, c, attrs)
    case Callable(_) => None
  }

  lemma MadeGrows(t: ClassTable, ctor: Ctor, attrs: PhpArray<Value>, e: Entity, a: View, b: View)
    requires Made(t, ctor, attrs, e, a) && SubView(a, b)
    ensures Made(t, ctor, attrs, e, b)
  {
    if ctor.ClassRef? {
      BuiltGrows(t, ctor.cls, attrs, e, a, b);
    }
  }

  /** `es` are what `ctor` makes of `items`, one for one and in order. */
  ghost predicate MadeAll(t: ClassTable, ctor: Ctor, items: seq<Value>, es: seq<Entity>, view: View) {
    && |es| == |items|
    && forall j | 0 <= j < |items| :: items[j].Arr? && Made(t, ctor, items[j].entries, es[j], view)
  }

  lemma MadeAllGrows(t: ClassTable, ctor: Ctor, items: seq<Value>, es: seq<Entity>, a: View, b: View)
    requires MadeAll(t, ctor, items, es, a) && SubView(a, b)
    ensures MadeAll(t, ctor, items, es, b)
  {
    forall j | 0 <= j < |items|
      ensures Made(t, ctor, items[j].entries, es[j], b)
    {
      MadeGrows(t, ctor, items[j].entries, es[j], a, b);
    }
  }

  /** The request options the code sets: headers, a JSON body and a query. */
  datatype Options = Options(headers: map<string, Value>, json: Option<PhpArray<Value>>, query: Option<PhpArray<Value>>)

  const NoOptions := Options(map[], None, None)

  /** A `?string` that PHP reads as true: set, and neither "" nor "0". */
  predicate Filled(o: Option<string>) {
    o.Some? && TruthyString(o.value)
  }

  /** The authentication header: an API key if there is one, otherwise a bearer token. */
  function AuthHeaders(apiKey: Option<string>, token: Option<string>): (h: map<string, Value>)
    ensures "X-API-Key" in h <==> Filled(apiKey)
    ensures "Authorization" in h <==> !Filled(apiKey) && Filled(token)
    ensures "X-API-Key" in h ==> h["X-API-Key"] == Str(apiKey.value)
    ensures "Authorization" in h ==> h["Authorization"] == Str("Bearer " + token.value)
    ensures h.Keys <= {"X-API-Key", "Authorization"} && |h| <= 1
  {
    if Filled(apiKey) then map["X-API-Key" := Str(apiKey.value)]
    else if Filled(token) then map["Authorization" := Str("Bearer " + token.value)]
    else map[]
  }

  /**
   * The headers of a request: the caller's, then the authentication header, then
   * `X-Impersonate` when a user is impersonated; a later header replaces an earlier one.
   */
  function RequestHeaders(caller: map<string, Value>, apiKey: Option<string>, token: Option<string>,
                          impersonate: Option<int>): map<string, Value>
  {
    caller + AuthHeaders(apiKey, token) + ImpersonationHeader(impersonate)
  }

  /**
   * Which headers a request carries: each authentication header exactly as above,
   * `X-Impersonate` exactly when a user is impersonated (whatever the authentication mode),
   * every other caller header unchanged, and nothing else.
   */
  lemma RequestHeadersSpec(caller: map<string, Value>, apiKey: Option<string>, token: Option<string>,
                           impersonate: Option<int>)
    ensures var h := RequestHeaders(caller, apiKey, token, impersonate);
      && ("X-API-Key" in h <==> Filled(apiKey) || "X-API-Key" in caller)
      && (Filled(apiKey) ==> h["X-API-Key"] == Str(apiKey.value))
      && ("Authorization" in h <==> (!Filled(apiKey) && Filled(token)) || "Authorization" in caller)
      && (!Filled(apiKey) && Filled(token) ==> h["Authorization"] == Str("Bearer " + token.value))
      && (caller == map[] ==> !("X-API-Key" in h && "Authorization" in h))
      && ("X-Impersonate" in h <==> impersonate.Some? || "X-Impersonate" in caller)
      && (impersonate.Some? ==> h["X-Impersonate"] == Int(impersonate.value))
      && (forall k | k in caller && k != "X-API-Key" && k != "Authorization" && k != "X-Impersonate" ::
            k in h && h[k] == caller[k])
      && h.Keys == caller.Keys + AuthHeaders(apiKey, token).Keys + ImpersonationHeader(impersonate).Keys
  {
    HeaderNamesDistinct();
    var auth, imp := AuthHeaders(apiKey, token), ImpersonationHeader(impersonate);
    UnionKeys(caller, auth, imp);
    UnionAt(caller, auth, imp, "X-API-Key");
    UnionAt(caller, auth, imp, "Authorization");
    UnionAt(caller, auth, imp, "X-Impersonate");
    forall k | k in caller && k != "X-API-Key" && k != "Authorization" && k != "X-Impersonate"
      ensures k in caller + auth + imp && (caller + auth + imp)[k] == caller[k]
    {
      UnionAt(caller, auth, imp, k);
    }
  }

  lemma UnionKeys<K, V>(a: map<K, V>, b: map<K, V>, c: map<K, V>)
    ensures (a + b + c).Keys == a.Keys + b.Keys + c.Keys
  {
  }

  /** Where an entry of `a + b + c` comes from: the rightmost map that has its key. */
  lemma UnionAt<K, V>(a: map<K, V>, b: map<K, V>, c: map<K, V>, k: K)
    ensures k in a + b + c <==> k in a || k in b || k in c
    ensures k in a + b + c ==> (a + b + c)[k] == if k in c then c[k] else if k in b then b[k] else a[k]
  {
  }

  /** The `X-Impersonate` header, when a user is impersonated. */
  function ImpersonationHeader(impersonate: Option<int>): (h: map<string, Value>)
    ensures h.Keys == if impersonate.Some? then {"X-Impersonate"} else {}
    ensures impersonate.Some? ==> h["X-Impersonate"] == Int(impersonate.value)
  {
    if impersonate.Some? then map["X-Impersonate" := Int(impersonate.value)] else map[]
  }

  lemma HeaderNamesDistinct()
    ensures "X-API-Key" != "Authorization" && "X-API-Key" != "X-Impersonate" && "Authorization" != "X-Impersonate"
  {
    assert "X-API-Key"[0] != "Authorization"[0] && "X-API-Key"[2] != "X-Impersonate"[2];
    assert "Authorization"[0] != "X-Impersonate"[0];
  }

  lemma UpdateIsUnion<K, V>(m: map<K, V>, k: K, v: V)
    ensures m[k := v] == m + map[k := v]
  {
  }

  /** One transport call: the HTTP method, the relative URI and the options. */
  datatype Call = Call(verb: string, uri: string, options: Options)

  /** What the transport returns: the first `Content-Type` header, if any, and the body. */
  datatype Reply = Reply(contentType: Option<string>, body: string)

  /** A parsed reply: a decoded JSON array, or the body as text. */
  datatype Body = Json(data: PhpArray<Value>) | Text(text: string)

  /** The errors the client raises: `ApiException` with its code, a type error, or a failed construction. */
  datatype Fault = Api(code: int) | TypeMismatch | Build(err: Error)

  /**
   * The outside world: the transport (a reply, or a failure with its code), `json_decode`
   * (`None` when the body is not a JSON array) and `json_encode`.
   */
  datatype Io = Io(send: Call -> Result<Reply, int>, decode: string -> Option<PhpArray<Value>>, encode: Value -> string)

  /** `parseResponse`: decode exactly when the content type is `application/json`. */
  function ParseResponse(io: Io, reply: Reply): (r: Result<Body, Fault>)
    ensures reply.contentType != Some("application/json") ==> r == Ok(Text(reply.body))
    ensures reply.contentType == Some("application/json") ==>
      r == if io.decode(reply.body).Some? then Ok(Json(io.decode(reply.body).value)) else Err(Api(0))
  {
    match reply.contentType
    case Some("application/json") =>
      (match io.decode(reply.body)
       case Some(a) => Ok(Json(a))
       case None => Err(Api(0)))
    case _ => Ok(Text(reply.body))
  }

  /** The transport call and `parseResponse`, with transport failures keeping their code. */
  function Exchange(io: Io, call: Call): Result<Body, Fault> {
    match io.send(call)
    case Err(code) => Err(Api(code))
    case Ok(reply) => ParseResponse(io, reply)
  }

  /** The list `getEntities` maps over: `$response['data'] ?? []`. */
  function ListItems(body: Body): (r: Result<seq<Value>, Fault>)
    ensures body.Text? ==> r == Ok([])
    ensures body.Json? && Get(body.data, "data") in {None, Some(Null)} ==> r == Ok([])
    ensures body.Json? && Get(body.data, "data").Some? && Get(body.data, "data").value.Arr? ==>
      r == Ok(Values(Get(body.data, "data").value.entries))
    ensures body.Json? && Get(body.data, "data").Some? ==>
      (!Get(body.data, "data").value.Null? && !Get(body.data, "data").value.Arr? <==> r == Err(TypeMismatch))
  {
    if body.Text? then Ok([])
    else
      var data: Option<Value> := Get(body.data, "data");
      match data
      case None => Ok([])
      case Some(Null) => Ok([])
      case Some(Arr(d)) => Ok(Values(d))
      case Some(_) => Err(TypeMismatch)
  }

  /** The first error `array_map(initEntity, items)` meets from item `i` on, if any. */
  function ItemsFailure(t: ClassTable, ctor: Ctor, items: seq<Value>, i: nat): (r: Option<Fault>)
    requires i <= |items|
    ensures r.None? <==> forall j | i <= j < |items| :: items[j].Arr? && MakeFailure(t, ctor, items[j].entries).None?
    decreases |items| - i
  {
    if i == |items| then None
    else if !items[i].Arr? then Some(TypeMismatch)
    else if MakeFailure(t, ctor, items[i].entries).Some? then Some(Build(MakeFailure(t, ctor, items[i].entries).value))
    else ItemsFailure(t, ctor, items, i + 1)
  }

  /** The four parameters `getEntities` always sends, in this order. */
  function ListParams(page: Value, filters: Value, results: Value, with: Value): (r: PhpArray<Value>)
    ensures Keys(r) == {"page", "pre_filters", "results", "with"}
    ensures Get(r, "page") == Some(page) && Get(r, "pre_filters") == Some(filters)
    ensures Get(r, "results") == Some(results) && Get(r, "with") == Some(with)
    ensures IntValues(r) == []
  {
    var s4: seq<(string, Value)> := [("with", with)];
    var s3: seq<(string, Value)> := [("results", results)] + s4;
    var s2: seq<(string, Value)> := [("pre_filters", filters)] + s3;
    var s1: seq<(string, Value)> := [("page", page)] + s2;
    assert s4[1..] == [] && s3[1..] == s4 && s2[1..] == s3 && s1[1..] == s2;
    assert "page"[1] != "pre_filters"[1] && "pre_filters"[0] != "results"[0] && "results"[0] != "with"[0];
    assert "page"[0] != "results"[0] && "page"[0] != "with"[0] && "pre_filters"[0] != "with"[0];
    assert Keys(s4) == {"with"} && DistinctKeys(s4);
    assert Keys(s3) == {"results", "with"} && DistinctKeys(s3);
    assert Keys(s2) == {"pre_filters", "results", "with"} && DistinctKeys(s2);
    assert Keys(s1) == {"page", "pre_filters", "results", "with"} && DistinctKeys(s1);
    NotIntegerKeys();
    assert Get(s4, "with") == Some(with) && IntValues(s4) == [];
    assert Get(s3, "with") == Some(with) && Get(s3, "results") == Some(results) && IntValues(s3) == [];
    assert Get(s2, "with") == Some(with) && Get(s2, "results") == Some(results);
    assert Get(s2, "pre_filters") == Some(filters) && IntValues(s2) == [];
    s1
  }

  lemma NotIntegerKeys()
    ensures !IsIntegerKey("page") && !IsIntegerKey("pre_filters") && !IsIntegerKey("results") && !IsIntegerKey("with")
  {
    assert !IsDigit('p') && !IsDigit('r') && !IsDigit('w');
  }

  /**
   * The query of `getEntities`: the caller's query merged with `page`, `pre_filters`,
   * `results` and `with`, which override whatever the caller gave under those keys.
   */
  function ListQuery(io: Io, query: PhpArray<Value>, page: int, filters: PhpArray<Value>,
                     results: Option<int>, with: PhpArray<Value>): (r: PhpArray<Value>)
    ensures Get(r, "page") == Some(Int(page))
    ensures Get(r, "pre_filters") == Some(Str(io.encode(Arr(filters))))
    ensures Get(r, "results") == Some(if results.Some? then Int(results.value) else Null)
    ensures Get(r, "with") == Some(if |with| > 0 then Str(io.encode(Arr(with))) else Null)
    ensures forall k | !IsIntegerKey(k) && k !in ["page", "pre_filters", "results", "with"] :: Get(r, k) == Get(query, k)
    ensures IntValues(r) == IntValues(query)
  {
    var fixed := ListParams(Int(page), Str(io.encode(Arr(filters))),
                            if results.Some? then Int(results.value) else Null,
                            if |with| > 0 then Str(io.encode(Arr(with))) else Null);
    NotIntegerKeys();
    assert IntValues(query) + [] == IntValues(query);
    Merge(query, fixed)
  }

  /**
   * What `getEntities` returns for a reply: its failure, no entities for a text reply or
   * a missing or null `data`, a type error for any other non-array `data`, and otherwise
   * one entity per element of `data`, in order, or the first element's error.
   */
  ghost predicate ListedEntities(t: ClassTable, ctor: Ctor, reply: Result<Body, Fault>,
                                 r: Result<seq<Entity>, Fault>, view: View) {
    && (reply.Err? ==> r == Err(reply.error))
    && (reply.Ok? && (reply.value.Text? || Get(reply.value.data, "data") in {None, Some(Null)}) ==> r == Ok([]))
    && (reply.Ok? && reply.value.Json? && Get(reply.value.data, "data").Some? &&
        !Get(reply.value.data, "data").value.Null? && !Get(reply.value.data, "data").value.Arr? ==>
          r == Err(TypeMismatch))
    && (reply.Ok? && ListItems(reply.value).Err? ==> r == Err(ListItems(reply.value).error))
    && (reply.Ok? && ListItems(reply.value).Ok? ==>
          var items := ListItems(reply.value).value;
          var fault := ItemsFailure(t, ctor, items, 0);
          && (r.Err? <==> fault.Some?)
          && (r.Err? ==> r.error == fault.value)
          && (r.Ok? ==> MadeAll(t, ctor, items, r.value, view)))
  }

  /** An API client for one Brezel system. */
  class Client {
    const apiUrl: string
    const system: string
    const apiKey: Option<string>
    const bearerToken: Option<string>
    /** Module name to the constructor of its entities. */
    var entityMap: map<string, Ctor>
    /** Every `registerModule` call so far, in order. */
    ghost var registered: seq<(string, Ctor)>
    var shareUrl: Option<string>
    var impersonateUserId: Option<int>

    ghost predicate Valid()
      reads this
    {
      entityMap == Registry(registered)
    }

    constructor (apiUrl: string, system: string, apiKey: Option<string>, bearerToken: Option<string>)
      ensures this.apiUrl == apiUrl && this.system == system
      ensures this.apiKey == apiKey && this.bearerToken == bearerToken
      ensures entityMap == map[] && registered == [] && shareUrl == None && impersonateUserId == None
      ensures Valid()
    {
      this.apiUrl := apiUrl;
      this.system := system;
      this.apiKey := apiKey;
      this.bearerToken := bearerToken;
      entityMap := map[];
      registered := [];
      shareUrl := None;
      impersonateUserId := None;
    }

    /** `clone $other`: a new client with the same configuration and state. */
    constructor Clone(other: Client)
      ensures apiUrl == other.apiUrl && system == other.system
      ensures apiKey == other.apiKey && bearerToken == other.bearerToken
      ensures entityMap == other.entityMap && registered == other.registered
      ensures shareUrl == other.shareUrl && impersonateUserId == other.impersonateUserId
    {
      apiUrl := other.apiUrl;
      system := other.system;
      apiKey := other.apiKey;
      bearerToken := other.bearerToken;
      entityMap := other.entityMap;
      registered := other.registered;
      shareUrl := other.shareUrl;
      impersonateUserId := other.impersonateUserId;
    }

    /** `impersonated(u)`: a copy that impersonates `u`; this client is left as it was. */
    method Impersonated(u: int) returns (c: Client)
      ensures fresh(c) && c.impersonateUserId == Some(u)
      ensures c.apiUrl == apiUrl && c.system == system && c.apiKey == apiKey && c.bearerToken == bearerToken
      ensures c.entityMap == entityMap && c.registered == registered && c.shareUrl == shareUrl
    {
      c := new Client.Clone(this);
      var same := c.Impersonate(u);
    }

    /** `impersonate(u)`: impersonate `u` from now on; returns this same client. */
    method Impersonate(u: int) returns (r: Client)
      modifies this
      ensures r == this && impersonateUserId == Some(u)
      ensures entityMap == old(entityMap) && registered == old(registered) && shareUrl == old(shareUrl)
    {
      impersonateUserId := Some(u);
      r := this;
    }

    /** `registerModule(m, c)`: records of module `m` are built with `c` from now on. */
    method RegisterModule(m: string, c: Ctor)
      requires Valid()
      modifies this
      ensures Valid() && registered == old(registered) + [(m, c)]
      ensures entityMap == old(entityMap)[m := c]
      ensures shareUrl == old(shareUrl) && impersonateUserId == old(impersonateUserId)
    {
      entityMap := entityMap[m := c];
      registered := registered + [(m, c)];
      assert registered[..|registered| - 1] == old(registered);
    }

    /** `getEntityClass(m)`: the last constructor registered for `m`, else `Entity` itself. */
    function GetEntityClass(m: string): (r: Ctor)
      reads this
      ensures Valid() ==> r == if Latest(registered, m).Some? then Latest(registered, m).value else ClassRef(BaseClass)
    {
      RegistryLatest(registered, m);
      if m in entityMap then entityMap[m] else ClassRef(BaseClass)
    }

    /** `initEntity(m, attrs)`: call the factory, or `new $class($attrs)`. */
    method InitEntity(t: ClassTable, m: string, attrs: PhpArray<Value>) returns (r: Result<Entity, Error>, ghost view: View)
      requires SchemasValid(t)
      ensures fresh(view.Keys) && Mirrors(view)
      ensures r.Err? <==> MakeFailure(t, GetEntityClass(m), attrs).Some?
      ensures r.Err? ==> r.error == MakeFailure(t, GetEntityClass(m), attrs).value
      ensures r.Ok? ==> Made(t, GetEntityClass(m), attrs, r.value, view)
    {
      var ctor := GetEntityClass(m);
      match ctor
      case Callable(f) =>
        r, view := Ok(f(attrs)), map[];
      case ClassRef(c) =>
        r, view := Entity.Construct(t, c, attrs);
    }

    /** `request`'s options as a whole: the caller's, plus the headers, body and query it adds. */
    function Prepared(verb: string, data: PhpArray<Value>, query: PhpArray<Value>, options: Options): Options
      reads this
    {
      Options(
        RequestHeaders(options.headers, apiKey, bearerToken, impersonateUserId),
        if |data| > 0 && verb != "GET" then Some(data) else options.json,
        if |query| > 0 then Some(query) else options.query)
    }

    /** The headers `request` sets, one after the other, on top of the caller's. */
    method AddHeaders(caller: map<string, Value>) returns (h: map<string, Value>)
      ensures h == RequestHeaders(caller, apiKey, bearerToken, impersonateUserId)
    {
      h := AddAuth(caller);
      h := AddImpersonation(h);
    }

    /** The API key header, or else the bearer token header, when one is truthy. */
    method AddAuth(caller: map<string, Value>) returns (h: map<string, Value>)
      ensures h == caller + AuthHeaders(apiKey, bearerToken)
    {
      h := caller;
      if Filled(apiKey) {
        UpdateIsUnion(h, "X-API-Key", Str(apiKey.value));
        h := h["X-API-Key" := Str(apiKey.value)];
      } else if Filled(bearerToken) {
        UpdateIsUnion(h, "Authorization", Str("Bearer " + bearerToken.value));
        h := h["Authorization" := Str("Bearer " + bearerToken.value)];
      } else {
        assert h + map[] == h;
      }
    }

    /** The `X-Impersonate` header, when a user is impersonated. */
    method AddImpersonation(caller: map<string, Value>) returns (h: map<string, Value>)
      ensures h == caller + ImpersonationHeader(impersonateUserId)
    {
      h := caller;
      if impersonateUserId.Some? {
        UpdateIsUnion(h, "X-Impersonate", Int(impersonateUserId.value));
        h := h["X-Impersonate" := Int(impersonateUserId.value)];
      } else {
        assert h + map[] == h;
      }
    }

    /** The options `request` builds, step by step. */
    method PrepareOptions(verb: string, data: PhpArray<Value>, query: PhpArray<Value>, options: Options) returns (o: Options)
      ensures o == Prepared(verb, data, query, options)
    {
      var h := AddHeaders(options.headers);
      o := options.(headers := h);
      if |data| > 0 && verb != "GET" {
        o := o.(json := Some(data));
      }
      if |query| > 0 {
        o := o.(query := Some(query));
      }
    }

    /** `request(method, path, data, query, options)`. */
    method Request(io: Io, verb: string, path: Path, data: PhpArray<Value>, query: PhpArray<Value>, options: Options)
      returns (r: Result<Body, Fault>)
      ensures r == Exchange(io, Call(verb, Uri(path), Prepared(verb, data, query, options)))
    {
      var uri := Uri(path);
      var o := PrepareOptions(verb, data, query, options);
      r := Exchange(io, Call(verb, uri, o));
    }

    /** The call `systemRequest(verb, path, data, query)` makes. */
    function SystemCall(verb: string, path: Path, data: PhpArray<Value>, query: PhpArray<Value>): Call
      reads this
    {
      Call(verb, SystemUri(system, path), Prepared(verb, data, query, NoOptions))
    }

    /** `systemRequest`: the request with the system as the first path segment. */
    method SystemRequest(io: Io, verb: string, path: Path, data: PhpArray<Value>, query: PhpArray<Value>)
      returns (r: Result<Body, Fault>)
      ensures r == Exchange(io, SystemCall(verb, path, data, query))
    {
      var pieces := PathPieces(path);
      r := Request(io, verb, Parts([Word(system)] + pieces), data, query, NoOptions);
    }

    /** `getSystemURL(path, base)`: `(base ?? apiUrl)/system/path`. */
    function GetSystemURL(path: Path, base: Option<string>): (r: string)
      ensures path.Whole? ==> r == (if base.Some? then base.value else apiUrl) + "/" + system + "/" + path.s
      ensures PathPieces(path) == [] ==> r == (if base.Some? then base.value else apiUrl) + "/" + system + "/"
    {
      assert path.Whole? ==> Texts(PathPieces(path)) == [path.s];
      (if base.Some? then base.value else apiUrl) + "/" + system + "/" + Uri(Parts(PathPieces(path)))
    }

    /** `getSharedFileURL(token)`: the shared-file URL, under `shareUrl` when that is set. */
    function GetSharedFileURL(token: string): (r: string)
      reads this
      ensures r == (if shareUrl.Some? then shareUrl.value else apiUrl) + "/" + system + "/shared/" + token
    {
      var ts := Texts([Word("shared"), Word(token)]);
      assert ts == ["shared", token] && ts[1..] == [token];
      assert Implode("/", ts) == "shared/" + token;
      var base := if shareUrl.Some? then shareUrl.value else apiUrl;
      assert base + "/" + system + "/" + ("shared/" + token) == base + "/" + system + "/shared/" + token;
      GetSystemURL(Parts([Word("shared"), Word(token)]), shareUrl)
    }

    /**
     * `getEntities(module, page, filters, results, query, with)`: list a module's records,
     * one entity per element of the reply's `data`, in order. The class table is valid
     * (`ValidTable`, written out).
     */
    method GetEntities(io: Io, t: ClassTable, moduleName: string, page: int, filters: PhpArray<Value>,
                       results: Option<int>, query: PhpArray<Value>, with: PhpArray<Value>)
      returns (r: Result<seq<Entity>, Fault>, ghost view: View)
      requires SchemasValid(t) && BaseDeclared(t) && NestedKnown(t)
      ensures fresh(view.Keys) && Mirrors(view)
      ensures
        var reply := Exchange(io, SystemCall("GET", Whole("modules/" + moduleName + "/resources"), [],
                                             ListQuery(io, query, page, filters, results, with)));
        ListedEntities(t, GetEntityClass(moduleName), reply, r, view)
    {
      var q := ListQuery(io, query, page, filters, results, with);
      var reply := SystemRequest(io, "GET", Whole("modules/" + moduleName + "/resources"), [], q);
      r, view := ListEntities(t, moduleName, reply);
    }

    /** `$data = $response['data'] ?? []` and the mapping of `initEntity` over it. */
    method ListEntities(t: ClassTable, moduleName: string, reply: Result<Body, Fault>)
      returns (r: Result<seq<Entity>, Fault>, ghost view: View)
      requires SchemasValid(t)
      ensures fresh(view.Keys) && Mirrors(view)
      ensures ListedEntities(t, GetEntityClass(moduleName), reply, r, view)
    {
      view := map[];
      if reply.Err? {
        return Err(reply.error), view;
      }
      var listed := ListItems(reply.value);
      if listed.Err? {
        return Err(listed.error), view;
      }
      r, view := InitEntities(t, moduleName, listed.value);
      if listed.value == [] {
        assert r.Ok? && |r.value| == 0;
      }
    }

    /** `array_map(initEntity, items)`: one entity per item, in order, or the first error. */
    method InitEntities(t: ClassTable, moduleName: string, items: seq<Value>)
      returns (r: Result<seq<Entity>, Fault>, ghost view: View)
      requires SchemasValid(t)
      ensures fresh(view.Keys) && Mirrors(view)
      ensures r.Err? <==> ItemsFailure(t, GetEntityClass(moduleName), items, 0).Some?
      ensures r.Err? ==> r.error == ItemsFailure(t, GetEntityClass(moduleName), items, 0).value
      ensures r.Ok? ==> MadeAll(t, GetEntityClass(moduleName), items, r.value, view)
    {
      view := map[];
      ghost var ctor := GetEntityClass(moduleName);
      var out: seq<Entity> := [];
      var i := 0;
      while i < |items|
        invariant 0 <= i <= |items| && |out| == i
        invariant fresh(view.Keys) && Mirrors(view)
        invariant ItemsFailure(t, ctor, items, i) == ItemsFailure(t, ctor, items, 0)
        invariant MadeAll(t, ctor, items[..i], out, view)
        decreases |items| - i
      {
        if !items[i].Arr? {
          return Err(TypeMismatch), view;
        }
        var e, v := InitEntity(t, moduleName, items[i].entries);
        if e.Err? {
          return Err(Build(e.error)), view;
        }
        MirrorsJoin(view, v);
        MadeAllGrows(t, ctor, items[..i], out, view, view + v);
        MadeGrows(t, ctor, items[i].entries, e.value, v, view + v);
        JoinKeys(view, v);
        assert items[..i + 1] == items[..i] + [items[i]];
        out := out + [e.value];
        view := view + v;
        i := i + 1;
      }
      assert items[..i] == items;
      r := Ok(out);
    }

    /**
     * `getEntity(module, id)`: one record, or null when the request fails with 404; any
     * other failure is raised. The class table is valid (`ValidTable`, written out).
     */
    method GetEntity(io: Io, t: ClassTable, moduleName: string, id: int)
      returns (r: Result<Option<Entity>, Fault>, ghost view: View)
      requires SchemasValid(t) && BaseDeclared(t) && NestedKnown(t)
      ensures fresh(view.Keys) && Mirrors(view)
      ensures
        var reply := Exchange(io, SystemCall("GET", Parts([Word("modules"), Word(moduleName), Word("resources"), Num(id)]), [], []));
        && (r == Ok(None) <==> reply == Err(Api(404)))
        && (reply.Err? && reply.error != Api(404) ==> r == Err(reply.error))
        && (reply.Ok? && reply.value.Text? ==> r == Err(TypeMismatch))
        && (reply.Ok? && reply.value.Json? ==>
              var fault := MakeFailure(t, GetEntityClass(moduleName), reply.value.data);
              && (r.Err? <==> fault.Some?)
              && (r.Err? ==> r.error == Build(fault.value))
              && (r.Ok? ==> r.value.Some? && Made(t, GetEntityClass(moduleName), reply.value.data, r.value.value, view)))
    {
      view := map[];
      var reply := SystemRequest(io, "GET", Parts([Word("modules"), Word(moduleName), Word("resources"), Num(id)]), [], []);
      if reply.Err? {
        if reply.error == Api(404) {
          return Ok(None), view;
        }
        return Err(reply.error), view;
      }
      if reply.value.Text? {
        return Err(TypeMismatch), view;
      }
      var e;
      e, view := InitEntity(t, moduleName, reply.value.data);
      if e.Err? {
        return Err(Build(e.error)), view;
      }
      r := Ok(Some(e.value));
    }

    /** `webhook(event, module, entityId)`: a POST to the filtered webhook path. */
    method Webhook(io: Io, event: string, moduleName: Option<string>, entityId: Option<int>) returns (r: Result<Body, Fault>)
      ensures r == Exchange(io, SystemCall("POST", Parts(WebhookPieces(event, moduleName, entityId)), [], []))
    {
      r := SystemRequest(io, "POST", Parts(WebhookPieces(event, moduleName, entityId)), [], []);
    }
  }

  /**
   * The URL `getSystemURL` composes is the base URL followed by where a system request
   * with the same path goes, except for an empty path: the URL then ends in `/`, which
   * the request path does not.
   */
  lemma SystemUrlMatchesRequest(c: Client, path: Path, base: Option<string>)
    ensures var prefix := (if base.Some? then base.value else c.apiUrl) + "/";
      c.GetSystemURL(path, base) == if PathPieces(path) == [] then prefix + SystemUri(c.system, path) + "/"
                                    else prefix + SystemUri(c.system, path)
  {
    SystemUriShape(c.system, path);
  }

  /**
   * A module nobody registered builds plain `Entity` objects, and under a valid class
   * table that construction never fails for want of a class.
   */
  lemma FallbackClassKnown(c: Client, t: ClassTable, m: string, attrs: PhpArray<Value>)
    requires c.Valid() && ValidTable(t) && forall i | 0 <= i < |c.registered| :: c.registered[i].0 != m
    ensures c.GetEntityClass(m) == ClassRef(BaseClass)
    ensures MakeFailure(t, c.GetEntityClass(m), attrs).Some? ==> !MakeFailure(t, c.GetEntityClass(m), attrs).value.UnknownClass?
  {
    KnownClassesOnly(t, BaseClass, attrs);
  }

  /** A system request never sends an API key and a bearer token together. */
  lemma SingleAuthHeader(c: Client, verb: string, path: Path, data: PhpArray<Value>, query: PhpArray<Value>)
    ensures var h := c.SystemCall(verb, path, data, query).options.headers;
      && ("X-API-Key" in h <==> Filled(c.apiKey))
      && ("Authorization" in h <==> !Filled(c.apiKey) && Filled(c.bearerToken))
      && ("X-Impersonate" in h <==> c.impersonateUserId.Some?)
      && !("X-API-Key" in h && "Authorization" in h)
  {
    RequestHeadersSpec(map[], c.apiKey, c.bearerToken, c.impersonateUserId);
  }

  /** A system request carries a JSON body iff it has data and is not a GET, and a query iff it has one. */
  lemma BodyAndQuery(c: Client, verb: string, path: Path, data: PhpArray<Value>, query: PhpArray<Value>)
    ensures var o := c.SystemCall(verb, path, data, query).options;
      && (o.json.Some? <==> |data| > 0 && verb != "GET")
      && (o.json.Some? ==> o.json.value == data)
      && (o.query.Some? <==> |query| > 0)
      && (o.query.Some? ==> o.query.value == query)
  {
  }
}
