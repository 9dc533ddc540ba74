/**
 * The generated JavaScript client: the error classifier, the settle-once
 * race between the transport and the timer, the Client object with its
 * request pipeline, the action methods and the path builders.
 */
module Client {
  import opened Wrappers
  import opened Text
  import opened Js

  // ---------------------------------------------------------------------
  // Error kinds and the status classifier
  // ---------------------------------------------------------------------

  const Unauthorized: string := "invalid_credentials"
  const Network: string := "network_error"
  const Timeout: string := "timeout_error"
  const Internal: string := "internal_error"
  const Unavailable: string := "service_unavailable_error"
  const Unknown: string := "unknown_error"

  /** The own entries of the status table, by property key. */
  const StatusToError: map<string, string> :=
    map["401" := Unauthorized, "408" := Timeout, "500" := Internal, "503" := Unavailable]

  /** The status each classified kind comes from. */
  const ErrorToStatus: map<string, string> :=
    map[Unauthorized := "401", Timeout := "408", Internal := "500", Unavailable := "503"]

  /** The two tables are inverse, and neither the network nor the unknown kind is a status. */
  lemma StatusTablesInverse()
    ensures forall s :: s in StatusToError ==> StatusToError[s] in ErrorToStatus && ErrorToStatus[StatusToError[s]] == s
    ensures forall k :: k in ErrorToStatus ==> ErrorToStatus[k] in StatusToError && StatusToError[ErrorToStatus[k]] == k
    ensures Network !in ErrorToStatus && Unknown !in ErrorToStatus
  {
  }

  /** The key `respStatusToError[resp.code]` reads. */
  function StatusKey(resp: Value): string
    requires !resp.Undefined? && !resp.Null?
  {
    JsString(Property(resp, "code"))
  }

  /**
   * respStatusToError[key]: an own entry, else what a plain object inherits
   * under that name, else undefined.
   */
  function StatusLookup(key: string): Value {
    if key in StatusToError then Str(StatusToError[key])
    else if key in PrototypeKeys then Builtin(key)
    else Undefined
  }

  /** The classified error for a known kind, carrying the raw failure. */
  function KnownError(kind: Value, resp: Value): Value {
    Obj(map["error" := kind, "_resp" := resp])
  }

  const UnknownError: Value := Obj(map["error" := Str(Unknown)])

  /**
   * getResponseError(resp). Reading `resp.code` throws on undefined or null,
   * which is None here.
   */
  function ResponseError(resp: Value): (r: Option<Value>)
    ensures r.None? <==> resp.Undefined? || resp.Null?
    ensures r.Some? ==> r.value.Obj? && "error" in r.value.fields
    ensures r.Some? ==> ("_resp" in r.value.fields <==> r.value != UnknownError)
    ensures r.Some? && "_resp" in r.value.fields ==> r.value.fields["_resp"] == resp
    ensures r.Some? ==> r.value.fields["error"] != Str(Network)
  {
    if resp.Undefined? || resp.Null? then None
    else
      var err := StatusLookup(StatusKey(resp));
      if err.Undefined? then Some(UnknownError) else Some(KnownError(err, resp))
  }

  /**
   * The classification in both directions: a tabled code gives its kind with
   * the raw failure attached, any code that is neither tabled nor inherited
   * gives exactly the unknown error, and a classified kind names the code it
   * came from.
   */
  lemma ResponseErrorKinds(resp: Value)
    requires !resp.Undefined? && !resp.Null?
    ensures StatusKey(resp) in StatusToError ==>
      ResponseError(resp) == Some(KnownError(Str(StatusToError[StatusKey(resp)]), resp))
    ensures ResponseError(resp) == Some(UnknownError) <==>
      StatusKey(resp) !in StatusToError && StatusKey(resp) !in PrototypeKeys
    ensures forall kind :: ResponseError(resp) == Some(KnownError(Str(kind), resp)) ==>
      kind in ErrorToStatus && StatusKey(resp) == ErrorToStatus[kind]
  {
    var key := StatusKey(resp);
    forall kind | ResponseError(resp) == Some(KnownError(Str(kind), resp))
      ensures kind in ErrorToStatus && key == ErrorToStatus[kind]
    {
      assert StatusLookup(key) == Str(kind);
      assert key in StatusToError;
    }
  }

  /** A numeric code classifies like its decimal string. */
  lemma NumericCode(m: map<string, Value>, n: nat)
    ensures ResponseError(Obj(m["code" := Num(n)])).value.fields["error"] ==
            ResponseError(Obj(m["code" := Str(Decimal(n))])).value.fields["error"]
  {
    assert StatusKey(Obj(m["code" := Num(n)])) == StatusKey(Obj(m["code" := Str(Decimal(n))]));
  }

  /** The four tabled statuses, sent as numbers, find their errors. */
  lemma NumericStatusErrors(m: map<string, Value>)
    ensures ResponseError(Obj(m["code" := Num(401)])).value.fields["error"] == Str(Unauthorized)
    ensures ResponseError(Obj(m["code" := Num(408)])).value.fields["error"] == Str(Timeout)
    ensures ResponseError(Obj(m["code" := Num(500)])).value.fields["error"] == Str(Internal)
    ensures ResponseError(Obj(m["code" := Num(503)])).value.fields["error"] == Str(Unavailable)
  {
    KnownNumericCode(m, 401, "401");
    KnownNumericCode(m, 408, "408");
    KnownNumericCode(m, 500, "500");
    KnownNumericCode(m, 503, "503");
  }

  lemma KnownNumericCode(m: map<string, Value>, n: nat, key: string)
    requires Decimal(n) == key && key in StatusToError
    ensures ResponseError(Obj(m["code" := Num(n)])).value.fields["error"] == Str(StatusToError[key])
  {
    var resp := Obj(m["code" := Num(n)]);
    assert StatusKey(resp) == key;
    ResponseErrorKinds(resp);
  }

  // ---------------------------------------------------------------------
  // timeoutPromise: a settle-once race between the transport and the timer
  // ---------------------------------------------------------------------

  datatype Settlement = Pending | Resolved(value: Value) | Rejected(reason: Value)

  /** What reaches the race: fetch's value, fetch's failure, or the timer. */
  datatype Event = Delivered(response: Value) | Failed(resp: Value) | TimerFired

  /** The timer's rejection; the timer callback is called without arguments. */
  const TimeoutError: Value :=
    Obj(map["error" := Str(Timeout), "message" := Str("request_timeout"), "_resp" := Undefined])

  /**
   * The settlement an event asks for. A failure whose classification throws
   * never reaches the outer promise.
   */
  function Outcome(e: Event): (s: Settlement)
    ensures s.Pending? <==> e.Failed? && (e.resp.Undefined? || e.resp.Null?)
    ensures e.TimerFired? ==> s == Rejected(TimeoutError)
  {
    match e
    case Delivered(v) => Resolved(v)
    case Failed(resp) =>
      (match ResponseError(resp)
       case None => Pending
       case Some(err) => Rejected(err))
    case TimerFired => Rejected(TimeoutError)
  }

  /** A promise settles once: later calls to resolve or reject do nothing. */
  function Step(s: Settlement, e: Event): Settlement {
    if s.Pending? then Outcome(e) else s
  }

  /** The state after a sequence of events. */
  function Run(s: Settlement, es: seq<Event>): Settlement
    decreases |es|
  {
    if es == [] then s else Run(Step(s, es[0]), es[1..])
  }

  /** The promise timeoutPromise returns, as a state holder. */
  class TimeoutPromise {
    var state: Settlement
    /** The delay the timer was armed with. */
    const delay: Value

    constructor(delay: Value)
      ensures state == Pending && this.delay == delay
    {
      state := Pending;
      this.delay := delay;
    }

    method Deliver(e: Event)
      modifies this
      ensures state == Step(old(state), e)
    {
      if state.Pending? {
        state := Outcome(e);
      }
    }
  }

  /** Once settled, nothing changes the settlement. */
  lemma {:induction false} RunSettled(s: Settlement, es: seq<Event>)
    requires !s.Pending?
    ensures Run(s, es) == s
    decreases |es|
  {
    if es != [] {
      RunSettled(s, es[1..]);
    }
  }

  lemma {:induction false} RunAppend(s: Settlement, es: seq<Event>, more: seq<Event>)
    ensures Run(s, es + more) == Run(Run(s, es), more)
    decreases |es|
  {
    if es == [] {
      assert es + more == more;
    } else {
      assert (es + more)[0] == es[0] && (es + more)[1..] == es[1..] + more;
      assert Run(s, es + more) == Run(Step(s, es[0]), es[1..] + more);
      RunAppend(Step(s, es[0]), es[1..], more);
      assert Run(s, es) == Run(Step(s, es[0]), es[1..]);
    }
  }

  /** Events after the first settlement have no effect. */
  lemma SettleOnce(es: seq<Event>, more: seq<Event>)
    requires !Run(Pending, es).Pending?
    ensures Run(Pending, es + more) == Run(Pending, es)
  {
    RunAppend(Pending, es, more);
    RunSettled(Run(Pending, es), more);
  }

  /**
   * The first event that asks for a settlement decides it; if none does, the
   * promise stays pending.
   */
  lemma {:induction false} RunFirst(es: seq<Event>)
    ensures forall i :: (0 <= i < |es| && !Outcome(es[i]).Pending? &&
      (forall j :: 0 <= j < i ==> Outcome(es[j]).Pending?)) ==> Run(Pending, es) == Outcome(es[i])
    ensures (forall i :: 0 <= i < |es| ==> Outcome(es[i]).Pending?) ==> Run(Pending, es) == Pending
    decreases |es|
  {
    if es != [] {
      RunFirst(es[1..]);
      if !Outcome(es[0]).Pending? {
        RunSettled(Outcome(es[0]), es[1..]);
      } else {
        forall i | 1 <= i < |es| && !Outcome(es[i]).Pending? &&
          (forall j :: 0 <= j < i ==> Outcome(es[j]).Pending?)
          ensures Run(Pending, es) == Outcome(es[i])
        {
          assert es[1..][i - 1] == es[i];
          forall j | 0 <= j < i - 1 ensures Outcome(es[1..][j]).Pending? {
            assert es[1..][j] == es[j + 1];
          }
        }
        if forall i :: 0 <= i < |es| ==> Outcome(es[i]).Pending? {
          forall j | 0 <= j < |es| - 1 ensures Outcome(es[1..][j]).Pending? {
            assert es[1..][j] == es[j + 1];
          }
        }
      }
    }
  }

  /** The timer always settles the race, whatever the transport does. */
  lemma TimerSettles(es: seq<Event>)
    requires TimerFired in es
    ensures !Run(Pending, es).Pending?
  {
    var i :| 0 <= i < |es| && es[i] == TimerFired;
    var k := 0;
    while k < |es| && Outcome(es[k]).Pending?
      invariant 0 <= k <= i
      invariant forall j :: 0 <= j < k ==> Outcome(es[j]).Pending?
    {
      k := k + 1;
    }
    RunFirst(es);
  }

  /** The two orders in which a transport outcome and the timer can arrive. */
  lemma BothOrders(t: Event)
    requires !t.TimerFired?
    ensures Run(Pending, [t, TimerFired]) ==
      (if Outcome(t).Pending? then Rejected(TimeoutError) else Outcome(t))
    ensures Run(Pending, [TimerFired, t]) == Rejected(TimeoutError)
  {
    var first := [t, TimerFired];
    assert first[1..] == [TimerFired] && first[1..][1..] == [];
    assert Run(Pending, first) == Run(Step(Step(Pending, t), TimerFired), []);
    var second := [TimerFired, t];
    assert second[1..] == [t] && second[1..][1..] == [];
    assert Run(Pending, second) == Run(Step(Step(Pending, TimerFired), t), []);
  }

  // ---------------------------------------------------------------------
  // The request pipeline
  // ---------------------------------------------------------------------

  const DefaultScheme: string := "http"
  const DefaultHost: string := "localhost:9099"
  const DefaultTimeoutMs: int := 20000
  const Json: string := "application/json"

  /** `scheme + '://' + host`: `+` with a string converts the other side. */
  function UrlPrefix(scheme: Value, host: Value): string {
    JsString(scheme) + "://" + JsString(host)
  }

  /** With no scheme and no host the prefix is the local development server. */
  lemma UrlPrefixDefaults(scheme: Value, host: Value)
    requires !Truthy(scheme) && !Truthy(host)
    ensures UrlPrefix(Or(scheme, Str(DefaultScheme)), Or(host, Str(DefaultHost))) == "http://localhost:9099"
  {
  }

  /** The scheme is the prefix up to its first ':'. */
  lemma UrlPrefixScheme(s: string, host: Value)
    requires ':' !in s
    ensures Split(UrlPrefix(Str(s), host), ':')[0] == s
  {
    assert UrlPrefix(Str(s), host) == s + [':'] + ("//" + JsString(host));
    SplitAppend(s, "//" + JsString(host), ':');
  }

  const BaseHeaders: map<string, Value> := map["Accept" := Str(Json), "Content-Type" := Str(Json)]

  /** The configuration request starts from. */
  function BaseConfig(timeout: Value): map<string, Value> {
    map["timeout" := timeout, "headers" := Obj(BaseHeaders)]
  }

  /** The configuration after the optional merge with the caller's. */
  function MergedConfig(timeout: Value, config: Option<map<string, Value>>): (cfg: map<string, Value>)
    ensures "timeout" in cfg && "headers" in cfg
    ensures config.Some? ==> cfg.Keys == {"timeout", "headers"} + config.value.Keys
  {
    if config.None? then BaseConfig(timeout)
    else MergeDeepRight(Obj(BaseConfig(timeout)), Obj(config.value)).fields
  }

  /** Object.assign(cfg.headers, authHeader) when the auth header is truthy. */
  function WithAuth(cfg: map<string, Value>, auth: Value): (r: Result<map<string, Value>, JsError>)
    requires "headers" in cfg
    ensures r.Ok? ==> r.value.Keys == cfg.Keys
    ensures r.Ok? ==> forall k :: k in cfg && k != "headers" ==> r.value[k] == cfg[k]
    ensures !Truthy(auth) ==> r == Ok(cfg)
  {
    if !Truthy(auth) then Ok(cfg)
    else
      match Assign(cfg["headers"], auth)
      case Err(e) => Err(e)
      case Ok(h) => Ok(cfg["headers" := h])
  }

  /** What request hands to fetch and to the timer. */
  datatype Call = Call(url: string, init: map<string, Value>, delay: Value)

  /**
   * The call request makes for a client with the given URL prefix, default
   * timeout and auth header, and an optional caller configuration (a plain
   * object, read before request changes it).
   */
  function RequestCall(prefix: string, timeout: Value, auth: Value, path: string,
                       config: Option<map<string, Value>>): (r: Result<Call, JsError>)
    ensures r.Ok? ==> r.value.url == prefix + path
    ensures r.Ok? ==> "timeout" in r.value.init && r.value.delay == r.value.init["timeout"]
    ensures r.Err? <==> WithAuth(MergedConfig(timeout, config), auth).Err?
  {
    match WithAuth(MergedConfig(timeout, config), auth)
    case Err(e) => Err(e)
    case Ok(cfg) => Ok(Call(prefix + path, cfg, cfg["timeout"]))
  }

  /**
   * The caller's configuration after request: a truthy `data` is serialised
   * into `body` and `data` is set to undefined.
   */
  function BodyRewrite(props: map<string, Value>, stringify: Value -> Value): (r: map<string, Value>)
    ensures !Truthy(Lookup(props, "data")) ==> r == props
    ensures Truthy(Lookup(props, "data")) ==>
      r.Keys == props.Keys + {"body"} && r["body"] == stringify(props["data"]) && r["data"] == Undefined
    ensures forall k :: k in props && k != "body" && k != "data" ==> r[k] == props[k]
  {
    var data := Lookup(props, "data");
    if Truthy(data) then props["body" := stringify(data)]["data" := Undefined] else props
  }

  /** A caller configuration object, changed in place by request. */
  class Config {
    var props: map<string, Value>

    constructor(props: map<string, Value>)
      ensures this.props == props
    {
      this.props := props;
    }
  }

  class Client {
    var scheme: Value
    var host: Value
    var timeout: Value
    var authHeader: Value
    var urlPrefix: string

    /** Each falsy argument takes its default. */
    constructor(scheme: Value, host: Value, timeout: Value, authHeader: Value)
      ensures this.scheme == Or(scheme, Str(DefaultScheme))
      ensures this.host == Or(host, Str(DefaultHost))
      ensures this.timeout == Or(timeout, Num(DefaultTimeoutMs))
      ensures this.authHeader == Or(authHeader, Null)
      ensures urlPrefix == UrlPrefix(this.scheme, this.host)
    {
      var s := Or(scheme, Str(DefaultScheme));
      var h := Or(host, Str(DefaultHost));
      this.scheme := s;
      this.host := h;
      this.timeout := Or(timeout, Num(DefaultTimeoutMs));
      this.authHeader := Or(authHeader, Null);
      urlPrefix := UrlPrefix(s, h);
    }

    method SetAuthHeader(hdr: Value)
      modifies this
      ensures authHeader == hdr
      ensures scheme == old(scheme) && host == old(host) && timeout == old(timeout)
      ensures urlPrefix == old(urlPrefix)
    {
      authHeader := hdr;
    }

    method ResetAuthHeader()
      modifies this
      ensures authHeader == Null
      ensures scheme == old(scheme) && host == old(host) && timeout == old(timeout)
      ensures urlPrefix == old(urlPrefix)
    {
      authHeader := Null;
    }

    /**
     * request(path, config): the call it starts, or the TypeError it throws,
     * and what it does to the caller's configuration. JSON.stringify is the
     * parameter `stringify`.
     */
    method Request(path: string, config: Config?, stringify: Value -> Value) returns (r: Result<Call, JsError>)
      modifies config
      ensures r == RequestCall(urlPrefix, timeout, authHeader, path,
                               if config == null then None else Some(old(config.props)))
      ensures config != null ==> config.props == BodyRewrite(old(config.props), stringify)
    {
      var cfg := BaseConfig(timeout);
      if config != null {
        cfg := MergeDeepRight(Obj(cfg), Obj(config.props)).fields;
        var data := Lookup(config.props, "data");
        if Truthy(data) {
          config.props := config.props["body" := stringify(data)];
          config.props := config.props["data" := Undefined];
        }
      }
      if Truthy(authHeader) {
        var headers := Assign(cfg["headers"], authHeader);
        if headers.Err? {
          return Err(headers.error);
        }
        cfg := cfg["headers" := headers.value];
      }
      var url := urlPrefix + path;
      return Ok(Call(url, cfg, cfg["timeout"]));
    }

    /**
     * An action method: builds `{method[, data]}`, assigns the caller's
     * config over it and passes the result to request. Query arguments of
     * index actions are ignored; the caller's config is not changed.
     */
    method CallAction(e: Endpoint, path: string, data: Value, query: seq<Value>,
                      config: Value, stringify: Value -> Value) returns (r: Result<Call, JsError>)
      ensures r == RequestCall(urlPrefix, timeout, authHeader, path,
                               Some(ActionProps(e.verb, if e.withData then Some(data) else None, config)))
    {
      var cfg := new Config(ActionProps(e.verb, if e.withData then Some(data) else None, config));
      r := Request(path, cfg, stringify);
    }
  }

  // Properties of the pipeline

  /** Without a config and an auth header, the base configuration is sent as is. */
  lemma RequestWithoutConfig(prefix: string, timeout: Value, auth: Value, path: string)
    requires !Truthy(auth)
    ensures RequestCall(prefix, timeout, auth, path, None) == Ok(Call(prefix + path, BaseConfig(timeout), timeout))
  {
  }

  /**
   * Caller keys win over the base, except that two plain objects merge; base
   * keys the caller leaves out stay.
   */
  lemma MergedConfigKeys(timeout: Value, c: map<string, Value>)
    ensures forall k :: k in c && !(k in BaseConfig(timeout) && BaseConfig(timeout)[k].Obj? && c[k].Obj?) ==>
      MergedConfig(timeout, Some(c))[k] == c[k]
    ensures forall k :: k in BaseConfig(timeout) && k !in c ==>
      MergedConfig(timeout, Some(c))[k] == BaseConfig(timeout)[k]
  {
    MergeValuesKeys(BaseConfig(timeout), c);
  }

  /**
   * The headers pipeline end to end: caller headers merge key by key over
   * the JSON defaults, then a plain-object auth header overwrites same-named
   * entries.
   */
  lemma RequestHeaders(prefix: string, timeout: Value, auth: Value, path: string,
                       c: map<string, Value>, h: map<string, Value>)
    requires "headers" in c && c["headers"] == Obj(h)
    requires auth.Obj? || !Truthy(auth)
    ensures RequestCall(prefix, timeout, auth, path, Some(c)).Ok?
    ensures RequestCall(prefix, timeout, auth, path, Some(c)).value.init["headers"] ==
      Obj(BaseHeaders + h + (if auth.Obj? then auth.fields else map[]))
  {
    var merged := MergedConfig(timeout, Some(c));
    MergedHeaders(timeout, c, h);
    if auth.Obj? {
      assert OwnProperties(auth) == auth.fields;
      assert WithAuth(merged, auth) == Ok(merged["headers" := Obj(BaseHeaders + h + auth.fields)]);
    } else {
      assert BaseHeaders + h + map[] == BaseHeaders + h;
      assert WithAuth(merged, auth) == Ok(merged);
    }
  }

  /** Caller headers that are a plain object merge key by key over the defaults. */
  lemma MergedHeaders(timeout: Value, c: map<string, Value>, h: map<string, Value>)
    requires "headers" in c && c["headers"] == Obj(h)
    ensures MergedConfig(timeout, Some(c))["headers"] == Obj(BaseHeaders + h)
  {
    assert MergedConfig(timeout, Some(c))["headers"] == MergeValues(Obj(BaseHeaders), Obj(h)) by {
      MergeValuesKeys(BaseConfig(timeout), c);
    }
    var m := MergeValues(Obj(BaseHeaders), Obj(h));
    MergeValuesKeys(BaseHeaders, h);
    forall k | k in m.fields ensures m.fields[k] == (BaseHeaders + h)[k] {
      if k in BaseHeaders {
        assert BaseHeaders[k].Str?;
      }
    }
    assert m.fields == BaseHeaders + h;
  }

  /** Headers set to null or undefined by the caller make an auth overlay throw. */
  lemma RequestHeadersThrow(prefix: string, timeout: Value, auth: Value, path: string, c: map<string, Value>)
    requires "headers" in c && (c["headers"].Null? || c["headers"].Undefined?)
    requires Truthy(auth)
    ensures RequestCall(prefix, timeout, auth, path, Some(c)) == Err(TypeError)
  {
    MergedConfigKeys(timeout, c);
  }

  /** The timer runs with the caller's timeout when one is given. */
  lemma RequestTimeout(prefix: string, timeout: Value, auth: Value, path: string, c: map<string, Value>)
    requires RequestCall(prefix, timeout, auth, path, Some(c)).Ok?
    requires "timeout" in c && !(timeout.Obj? && c["timeout"].Obj?)
    ensures RequestCall(prefix, timeout, auth, path, Some(c)).value.delay == c["timeout"]
  {
    MergedConfigKeys(timeout, c);
  }

  /**
   * As written, the merged configuration handed to fetch keeps the caller's
   * `data` and has no `body`: the serialised body goes only to the caller's
   * object.
   */
  lemma RequestSendsNoBody(prefix: string, timeout: Value, auth: Value, path: string, c: map<string, Value>)
    requires Truthy(Lookup(c, "data")) && "body" !in c
    requires RequestCall(prefix, timeout, auth, path, Some(c)).Ok?
    ensures RequestCall(prefix, timeout, auth, path, Some(c)).value.init["data"] == c["data"]
    ensures "body" !in RequestCall(prefix, timeout, auth, path, Some(c)).value.init
  {
    var cfg := MergedConfig(timeout, Some(c));
    assert cfg["data"] == c["data"] && "body" !in cfg by {
      assert "data" !in BaseConfig(timeout);
      MergedConfigKeys(timeout, c);
    }
    var sent := WithAuth(cfg, auth);
    assert sent.Ok? && RequestCall(prefix, timeout, auth, path, Some(c)).value.init == sent.value;
  }

  /**
   * The same caller configuration used for a second request carries the
   * body the first one wrote, and no data.
   */
  lemma RequestReusedConfig(prefix: string, timeout: Value, auth: Value, path: string,
                            c: map<string, Value>, stringify: Value -> Value)
    requires Truthy(Lookup(c, "data"))
    requires RequestCall(prefix, timeout, auth, path, Some(BodyRewrite(c, stringify))).Ok?
    ensures RequestCall(prefix, timeout, auth, path, Some(BodyRewrite(c, stringify))).value.init["body"] ==
      stringify(c["data"])
    ensures RequestCall(prefix, timeout, auth, path, Some(BodyRewrite(c, stringify))).value.init["data"] == Undefined
  {
    MergedConfigKeys(timeout, BodyRewrite(c, stringify));
  }

  /**
   * The evidently intended request: the merged configuration itself gets the
   * serialised body and loses `data`.
   */
  function FixedRequestCall(prefix: string, timeout: Value, auth: Value, path: string,
                            config: Option<map<string, Value>>, stringify: Value -> Value): (r: Result<Call, JsError>)
    ensures r.Ok? ==> r.value.url == prefix + path
    ensures r.Err? <==> RequestCall(prefix, timeout, auth, path, config).Err?
  {
    var cfg := MergedConfig(timeout, config);
    var data := Lookup(cfg, "data");
    var moved := if Truthy(data) then (cfg - {"data"})["body" := stringify(data)] else cfg;
    assert "timeout" in moved && moved["headers"] == cfg["headers"];
    WithAuthFailsOnHeaders(moved, cfg, auth);
    match WithAuth(moved, auth)
    case Err(e) => Err(e)
    case Ok(c) => Ok(Call(prefix + path, c, c["timeout"]))
  }

  /** Whether the auth overlay throws depends on the headers alone. */
  lemma WithAuthFailsOnHeaders(a: map<string, Value>, b: map<string, Value>, auth: Value)
    requires "headers" in a && "headers" in b && a["headers"] == b["headers"]
    ensures WithAuth(a, auth).Err? <==> WithAuth(b, auth).Err?
  {
  }

  /** Corrected: a truthy `data` reaches fetch as `body`, and `data` does not. */
  lemma FixedRequestSendsBody(prefix: string, timeout: Value, auth: Value, path: string,
                              c: map<string, Value>, stringify: Value -> Value)
    requires Truthy(Lookup(c, "data"))
    requires FixedRequestCall(prefix, timeout, auth, path, Some(c), stringify).Ok?
    ensures FixedRequestCall(prefix, timeout, auth, path, Some(c), stringify).value.init["body"] == stringify(c["data"])
    ensures "data" !in FixedRequestCall(prefix, timeout, auth, path, Some(c), stringify).value.init
  {
    var cfg := MergedConfig(timeout, Some(c));
    assert Lookup(cfg, "data") == c["data"] by {
      MergedConfigKeys(timeout, c);
    }
    var moved := (cfg - {"data"})["body" := stringify(c["data"])];
    assert WithAuth(moved, auth).Ok?;
    assert FixedRequestCall(prefix, timeout, auth, path, Some(c), stringify).value.init == WithAuth(moved, auth).value;
  }

  /** Without data the corrected request is the request as written. */
  lemma FixedRequestWithoutData(prefix: string, timeout: Value, auth: Value, path: string,
                                config: Option<map<string, Value>>, stringify: Value -> Value)
    requires config.Some? ==> !Truthy(Lookup(config.value, "data"))
    ensures FixedRequestCall(prefix, timeout, auth, path, config, stringify) == RequestCall(prefix, timeout, auth, path, config)
  {
    if config.Some? {
      MergedConfigKeys(timeout, config.value);
    }
  }

  // ---------------------------------------------------------------------
  // Action methods
  // ---------------------------------------------------------------------

  datatype Verb = Get | Post | Patch

  function VerbName(v: Verb): string {
    match v
    case Get => "get"
    case Post => "post"
    case Patch => "patch"
  }

  /**
   * `{method: verb[, data]}` with a truthy caller config assigned over it:
   * the caller's keys win, the method and data fill the rest.
   */
  function ActionProps(verb: Verb, data: Option<Value>, config: Value): (r: map<string, Value>)
    ensures "method" in r && (data.Some? ==> "data" in r)
    ensures Truthy(config) ==> forall k :: k in OwnProperties(config) ==> k in r && r[k] == OwnProperties(config)[k]
    ensures !Truthy(config) || "method" !in OwnProperties(config) ==> r["method"] == Str(VerbName(verb))
    ensures data.Some? && (!Truthy(config) || "data" !in OwnProperties(config)) ==> r["data"] == data.value
    ensures forall k :: k in r ==> k == "method" || k == "data" || (Truthy(config) && k in OwnProperties(config))
  {
    var base := if data.Some? then map["method" := Str(VerbName(verb)), "data" := data.value]
                else map["method" := Str(VerbName(verb))];
    var own := if Truthy(config) then OwnProperties(config) else map[];
    base + own
  }

  /**
   * As written, an action's query arguments never reach the request: the URL
   * is the prefix and the path alone, so a path without '?' goes out without
   * a query string, whatever the arguments were.
   */
  lemma QueryNotSent(prefix: string, timeout: Value, auth: Value, path: string, verb: Verb, config: Value)
    requires '?' !in prefix && '?' !in path
    requires RequestCall(prefix, timeout, auth, path, Some(ActionProps(verb, None, config))).Ok?
    ensures '?' !in RequestCall(prefix, timeout, auth, path, Some(ActionProps(verb, None, config))).value.url
  {
    var url := RequestCall(prefix, timeout, auth, path, Some(ActionProps(verb, None, config))).value.url;
    assert url == prefix + path;
  }

  /**
   * The evidently intended index call: the query arguments, serialised by
   * `queryString` (the query-string package's stringify), follow the URL as
   * written after a '?'; the configuration sent and the failures are those
   * of the call as written.
   */
  function QueryActionCall(prefix: string, timeout: Value, auth: Value, path: string, verb: Verb,
                           query: seq<Value>, config: Value, queryString: seq<Value> -> string): (r: Result<Call, JsError>)
    ensures var w := RequestCall(prefix, timeout, auth, path, Some(ActionProps(verb, None, config)));
      && (r.Err? <==> w.Err?)
      && (r.Ok? ==> r.value.url == w.value.url + "?" + queryString(query) && r.value.init == w.value.init)
  {
    var c, u := Some(ActionProps(verb, None, config)), path + "?" + queryString(query);
    RequestCallPath(prefix, timeout, auth, u, path, c);
    AppendAssoc(prefix, path + "?", queryString(query));
    AppendAssoc(prefix, path, "?");
    RequestCall(prefix, timeout, auth, u, c)
  }

  /** The path only shows in the URL: the configuration and the failures do not depend on it. */
  lemma RequestCallPath(prefix: string, timeout: Value, auth: Value, p1: string, p2: string,
                        config: Option<map<string, Value>>)
    ensures RequestCall(prefix, timeout, auth, p1, config).Err? <==> RequestCall(prefix, timeout, auth, p2, config).Err?
    ensures RequestCall(prefix, timeout, auth, p1, config).Ok? ==>
      RequestCall(prefix, timeout, auth, p1, config).value.init == RequestCall(prefix, timeout, auth, p2, config).value.init
  {
  }

  /**
   * Corrected: the query string reads back from the URL. With a '?'-free
   * prefix and path, the URL's first '?' ends the URL as written, and what
   * follows it is exactly the serialised query.
   */
  lemma QueryActionCallReadBack(prefix: string, timeout: Value, auth: Value, path: string, verb: Verb,
                                query: seq<Value>, config: Value, queryString: seq<Value> -> string)
    requires '?' !in prefix && '?' !in path
    requires QueryActionCall(prefix, timeout, auth, path, verb, query, config, queryString).Ok?
    ensures var url := QueryActionCall(prefix, timeout, auth, path, verb, query, config, queryString).value.url;
      var w := RequestCall(prefix, timeout, auth, path, Some(ActionProps(verb, None, config))).value.url;
      && |w| < |url| && url[|w|] == '?' && (forall k :: 0 <= k < |w| ==> url[k] != '?')
      && url[..|w|] == w && url[|w| + 1..] == queryString(query)
  {
    var w := RequestCall(prefix, timeout, auth, path, Some(ActionProps(verb, None, config))).value.url;
    assert w == prefix + path;
    assert '?' !in w by {
      forall k | 0 <= k < |w| ensures w[k] != '?' {
        if k < |prefix| {
          assert w[k] == prefix[k];
        } else {
          assert w[k] == path[k - |prefix|];
        }
      }
    }
    QueryReadBack(w, queryString(query));
  }

  /** A '?'-free text, a '?' and a query: the query is what follows the first '?'. */
  lemma QueryReadBack(w: string, q: string)
    requires '?' !in w
    ensures var url := w + "?" + q;
      && |w| < |url| && url[|w|] == '?' && (forall k :: 0 <= k < |w| ==> url[k] != '?')
      && url[..|w|] == w && url[|w| + 1..] == q
  {
    var url := w + "?" + q;
    forall k | 0 <= k < |w| ensures url[k] != '?' {
      assert url[k] == w[k];
    }
  }

  // ---------------------------------------------------------------------
  // Path builders
  // ---------------------------------------------------------------------

  /** A path segment: a fixed word, or an id spliced in with `+`. */
  datatype Piece = Fixed(word: string) | Id

  /** One resource action: its method name, verb, payload and path template. */
  datatype Endpoint = Endpoint(name: string, verb: Verb, withData: bool, path: seq<Piece>)

  const Catalog: seq<Endpoint> := [
    Endpoint("createAircraft", Post, true, [Fixed("aircrafts")]),
    Endpoint("createDropzone", Post, true, [Fixed("dropzones")]),
    Endpoint("createGear", Post, true, [Fixed("gears")]),
    Endpoint("createJump", Post, true, [Fixed("users"), Id, Fixed("jumps")]),
    Endpoint("createJump_group", Post, true, [Fixed("jump_groups")]),
    Endpoint("createManufacturer", Post, true, [Fixed("manufacturers")]),
    Endpoint("createUser_gear", Post, true, [Fixed("users"), Id, Fixed("gear")]),
    Endpoint("indexAircraft", Get, false, [Fixed("aircrafts")]),
    Endpoint("indexDropzone", Get, false, [Fixed("dropzones")]),
    Endpoint("indexGear", Get, false, [Fixed("gears")]),
    Endpoint("indexJump", Get, false, [Fixed("users"), Id, Fixed("jumps")]),
    Endpoint("indexJump_group", Get, false, [Fixed("jump_groups")]),
    Endpoint("indexLocation", Get, false, [Fixed("locations")]),
    Endpoint("indexManufacturer", Get, false, [Fixed("manufacturers")]),
    Endpoint("indexUser", Get, false, [Fixed("users")]),
    Endpoint("indexUser_gear", Get, false, [Fixed("users"), Id, Fixed("gear")]),
    Endpoint("loginAuth", Post, false, [Fixed("auth"), Fixed("login")]),
    Endpoint("meUser", Get, false, [Fixed("users"), Fixed("_me")]),
    Endpoint("registerAuth", Post, true, [Fixed("auth"), Fixed("register")]),
    Endpoint("showAircraft", Get, false, [Fixed("aircrafts"), Id]),
    Endpoint("showDropzone", Get, false, [Fixed("dropzones"), Id]),
    Endpoint("showGear", Get, false, [Fixed("gears"), Id]),
    Endpoint("showJump", Get, false, [Fixed("users"), Id, Fixed("jumps"), Id]),
    Endpoint("showJump_group", Get, false, [Fixed("jump_groups"), Id]),
    Endpoint("showLocation", Get, false, [Fixed("locations"), Id]),
    Endpoint("showManufacturer", Get, false, [Fixed("manufacturers"), Id]),
    Endpoint("showUser", Get, false, [Fixed("users"), Id]),
    Endpoint("showUser_gear", Get, false, [Fixed("users"), Id, Fixed("gear"), Id]),
    Endpoint("statusApi_status", Get, false, []),
    Endpoint("updateAircraft", Patch, true, [Fixed("aircrafts"), Id]),
    Endpoint("updateDropzone", Patch, true, [Fixed("dropzones"), Id]),
    Endpoint("updateGear", Patch, true, [Fixed("gears"), Id]),
    Endpoint("updateJump", Patch, true, [Fixed("users"), Id, Fixed("jumps"), Id]),
    Endpoint("updateJump_group", Patch, true, [Fixed("jump_groups"), Id]),
    Endpoint("updateManufacturer", Patch, true, [Fixed("manufacturers"), Id]),
    Endpoint("updateUser", Patch, true, [Fixed("users"), Id]),
    Endpoint("updateUser_gear", Patch, true, [Fixed("users"), Id, Fixed("gear"), Id])
  ]

  function IdCount(t: seq<Piece>): nat {
    if t == [] then 0 else (if t[0].Id? then 1 else 0) + IdCount(t[1..])
  }

  /** The segments at the id positions of `t`, in order. */
  function IdSegments(t: seq<Piece>, segs: seq<string>): seq<string>
    requires |segs| == |t|
  {
    if t == [] then []
    else (if t[0].Id? then [segs[0]] else []) + IdSegments(t[1..], segs[1..])
  }

  function IdStrings(ids: seq<Value>): (r: seq<string>)
    ensures |r| == |ids|
  {
    seq(|ids|, i requires 0 <= i < |ids| => JsString(ids[i]))
  }

  /**
   * The path segments after the leading '/': fixed words where the template
   * has them, and the ids, as strings and in order, at the id positions.
   */
  function Segments(t: seq<Piece>, ids: seq<Value>): (r: seq<string>)
    ensures |r| == |t|
    ensures forall i :: 0 <= i < |t| && t[i].Fixed? ==> r[i] == t[i].word
    ensures |ids| == IdCount(t) ==> IdSegments(t, r) == IdStrings(ids)
  {
    if t == [] then []
    else if t[0].Fixed? then
      var rest := Segments(t[1..], ids);
      assert ([t[0].word] + rest)[1..] == rest;
      [t[0].word] + rest
    else if ids == [] then
      // a missing argument is undefined
      [JsString(Undefined)] + Segments(t[1..], [])
    else
      var rest := Segments(t[1..], ids[1..]);
      assert ([JsString(ids[0])] + rest)[1..] == rest;
      assert IdStrings(ids) == [JsString(ids[0])] + IdStrings(ids[1..]);
      [JsString(ids[0])] + rest
  }

  /**
   * A path builder: the ids spliced into the template with `+`, unescaped;
   * a missing id reads as undefined and an extra one is ignored.
   */
  function BuildPath(t: seq<Piece>, ids: seq<Value>): string
  {
    "/" + Join(Segments(t, ids), "/")
  }

  lemma {:induction false} SegmentsSlashFree(t: seq<Piece>, ids: seq<Value>)
    requires |ids| == IdCount(t)
    requires forall i :: 0 <= i < |t| && t[i].Fixed? ==> '/' !in t[i].word
    requires forall j :: 0 <= j < |ids| ==> '/' !in JsString(ids[j])
    ensures forall i :: 0 <= i < |t| ==> '/' !in Segments(t, ids)[i]
    decreases |t|
  {
    if t != [] {
      var ids' := if t[0].Id? then ids[1..] else ids;
      SegmentsSlashFree(t[1..], ids');
      forall i | 0 <= i < |t| ensures '/' !in Segments(t, ids)[i] {
        if i > 0 {
          assert Segments(t, ids)[i] == Segments(t[1..], ids')[i - 1];
        } else if t[0].Id? {
          assert Segments(t, ids)[0] == JsString(ids[0]);
        }
      }
    }
  }

  lemma JoinLeadingEmpty(xs: seq<string>, sep: string)
    requires |xs| > 0
    ensures Join([""] + xs, sep) == sep + Join(xs, sep)
  {
    assert ([""] + xs)[1..] == xs;
  }

  lemma SplitLeadingEmpty(xs: seq<string>)
    requires |xs| > 0
    requires forall i :: 0 <= i < |xs| ==> '/' !in xs[i]
    ensures Split(Join([""] + xs, "/"), '/') == [""] + xs
  {
    var ys := [""] + xs;
    var sep := "/";
    assert |sep| == 1 && sep[0] == '/' && sep[1..] == [];
    forall i | 0 <= i < |ys| ensures '/' !in ys[i] {
      if i > 0 { assert ys[i] == xs[i - 1]; }
    }
    assert ys[0] == "" && ys[1..] == xs;
    SplitJoin(ys, sep, '/');
    var pr := Prefixed(sep[1..], xs);
    forall i | 0 <= i < |xs| ensures pr[i] == xs[i] {
      assert pr[i] == [] + xs[i];
    }
    assert pr == xs;
  }

  /**
   * Splitting a built path at '/' gives back the segments, and so the ids,
   * as long as no id contains a '/'.
   */
  lemma PathReadBack(t: seq<Piece>, ids: seq<Value>)
    requires |ids| == IdCount(t) && |t| > 0
    requires forall i :: 0 <= i < |t| && t[i].Fixed? ==> '/' !in t[i].word
    requires forall j :: 0 <= j < |ids| ==> '/' !in JsString(ids[j])
    ensures Split(BuildPath(t, ids), '/') == [""] + Segments(t, ids)
    ensures IdSegments(t, Split(BuildPath(t, ids), '/')[1..]) == IdStrings(ids)
  {
    var xs := Segments(t, ids);
    SegmentsSlashFree(t, ids);
    JoinLeadingEmpty(xs, "/");
    SplitLeadingEmpty(xs);
  }

  /**
   * Ids are not escaped: an id holding a '/' splits into two segments of the
   * built path.
   */
  lemma PathNotEscaped(w: string, a: string, b: string)
    requires '/' !in w && '/' !in a && '/' !in b
    ensures Split(BuildPath([Fixed(w), Id], [Str(a + "/" + b)]), '/') == ["", w, a, b]
  {
    var t := [Fixed(w), Id];
    var ids := [Str(a + "/" + b)];
    assert t[1..] == [Id] && [Id][1..] == [] && ids[1..] == [];
    assert Segments([Id], ids) == [a + "/" + b] + Segments([], []);
    assert Segments(t, ids) == [w] + Segments([Id], ids);
    var x := a + "/" + b;
    var segs := [w, x];
    assert segs[1..] == [x];
    assert Join(segs, "/") == w + "/" + x;
    assert Segments([], []) == [];
    assert Segments(t, ids) == segs;
    var p := BuildPath(t, ids);
    assert p == "/" + (w + "/" + x);
    assert p == [] + ['/'] + (w + ['/'] + (a + ['/'] + b));
    SplitAppend([], w + ['/'] + (a + ['/'] + b), '/');
    SplitAppend(w, a + ['/'] + b, '/');
    SplitAppend(a, b, '/');
    SplitNone(b, '/');
  }

  /**
   * In the catalogue, actions with a payload are never GETs and every
   * PATCH carries one.
   */
  lemma CatalogShapes()
    ensures forall i :: 0 <= i < |Catalog| ==>
      (Catalog[i].withData ==> Catalog[i].verb != Get) && (Catalog[i].verb == Patch ==> Catalog[i].withData)
  {
  }
}
