/**
 * The JavaScript client generator (goagen/gen_js/generator.go): how Generate
 * settles its defaults, the timeout handed to the module template, the three
 * helpers the action template calls (params, pathParams, jspath), the order
 * in which generateJS emits the actions, and the types generateFlowTypes
 * writes a Flow definition for.
 */
module GenJs {
  import opened Wrappers
  import opened Text
  import opened Design
  import opened Identifiers
  import opened JsTypes

  /** design.ResourceDefinition, reduced to its actions in iteration order. */
  datatype Resource = Resource(name: string, actions: seq<Action>)

  /** design.APIDefinition, reduced to what the generator reads. */
  datatype Api = Api(
    schemes: seq<string>,
    host: string,
    resources: seq<Resource>,
    mediaTypes: seq<DataType>,
    userTypes: seq<DataType>)

  // ---------------------------------------------------------------------
  // Generate: defaults
  // ---------------------------------------------------------------------

  /** time.Duration counts nanoseconds. */
  const Millisecond: int := 1_000_000
  const Second: int := 1000 * Millisecond
  const DefaultTimeout: int := 20 * Second

  /** The three settings Generate fills in when the command line left them unset. */
  datatype Settings = Settings(timeout: int, scheme: string, host: string)

  /**
   * The settings after Generate's defaults: a zero timeout becomes 20s, an
   * empty scheme the API's first scheme and then "http", an empty host the
   * API's host (which may still be empty).
   */
  function Resolve(s: Settings, api: Api): (r: Settings)
    ensures r.timeout != 0 && r.scheme != ""
    ensures s.timeout != 0 ==> r.timeout == s.timeout
    ensures s.timeout == 0 ==> r.timeout == DefaultTimeout
    ensures s.scheme != "" ==> r.scheme == s.scheme
    ensures s.host != "" ==> r.host == s.host
    ensures s.host == "" ==> r.host == api.host
  {
    var timeout := if s.timeout == 0 then DefaultTimeout else s.timeout;
    var scheme := if s.scheme == "" && |api.schemes| > 0 then api.schemes[0] else s.scheme;
    var scheme := if scheme == "" then "http" else scheme;
    var host := if s.host == "" then api.host else s.host;
    Settings(timeout, scheme, host)
  }

  /** Defaults are only filled in once: resolving resolved settings changes nothing. */
  lemma ResolveIdempotent(s: Settings, api: Api)
    ensures Resolve(Resolve(s, api), api) == Resolve(s, api)
  {
  }

  /** With nothing set, the scheme is the API's first non-empty scheme or "http". */
  lemma ResolveScheme(s: Settings, api: Api)
    requires s.scheme == ""
    ensures |api.schemes| > 0 && api.schemes[0] != "" ==> Resolve(s, api).scheme == api.schemes[0]
    ensures (|api.schemes| == 0 || api.schemes[0] == "") ==> Resolve(s, api).scheme == "http"
  {
  }

  /**
   * int64(g.Timeout / time.Millisecond): Go's integer division truncates
   * toward zero, so the whole number of milliseconds is rounded toward zero.
   */
  function TimeoutMillis(ns: int): (ms: int)
    ensures 0 <= ns ==> 0 <= ms && ms * Millisecond <= ns < (ms + 1) * Millisecond
    ensures ns < 0 ==> ms <= 0 && (ms - 1) * Millisecond < ns <= ms * Millisecond
  {
    if ns >= 0 then ns / Millisecond else -((-ns) / Millisecond)
  }

  /** A whole number of milliseconds converts back exactly, whatever its sign. */
  lemma {:induction false} TimeoutMillisExact(ms: int)
    ensures TimeoutMillis(ms * Millisecond) == ms
  {
    var ns := ms * Millisecond;
    if ms >= 0 {
      assert ns / Millisecond == ms;
    } else {
      assert -ns == (-ms) * Millisecond;
      assert (-ns) / Millisecond == -ms;
    }
  }

  /** The default timeout reaches the client as 20000 ms, the client's own default. */
  lemma DefaultTimeoutMillis()
    ensures TimeoutMillis(DefaultTimeout) == 20000
  {
    TimeoutMillisExact(20000);
  }

  /** The data the "module" template receives: host, scheme and timeout in ms. */
  datatype ModuleData = ModuleData(host: string, scheme: string, timeoutMillis: int)

  datatype GenerateError = MissingApi | MissingHost

  /** The generator's settings, as the command line or the caller set them. */
  class Generator {
    var api: Option<Api>
    var timeout: int
    var scheme: string
    var host: string

    constructor (api: Option<Api>, timeout: int, scheme: string, host: string)
      ensures this.api == api && this.timeout == timeout
      ensures this.scheme == scheme && this.host == host
    {
      this.api := api;
      this.timeout := timeout;
      this.scheme := scheme;
      this.host := host;
    }

    /**
     * The part of Generate before any file is written. A missing API fails
     * and changes nothing; otherwise the defaults are stored in the fields,
     * also when the host is still missing and Generate fails.
     */
    method Generate() returns (r: Result<ModuleData, GenerateError>)
      modifies this
      ensures api == old(api)
      ensures old(api).None? ==> r == Err(MissingApi)
      ensures old(api).None? ==> timeout == old(timeout) && scheme == old(scheme) && host == old(host)
      ensures old(api).Some? ==>
        Settings(timeout, scheme, host) == Resolve(Settings(old(timeout), old(scheme), old(host)), api.value)
      ensures old(api).Some? && host == "" ==> r == Err(MissingHost)
      ensures old(api).Some? && host != "" ==> r == Ok(ModuleData(host, scheme, TimeoutMillis(timeout)))
    {
      if api.None? {
        return Err(MissingApi);
      }
      if timeout == 0 {
        timeout := DefaultTimeout;
      }
      if scheme == "" && |api.value.schemes| > 0 {
        scheme := api.value.schemes[0];
      }
      if scheme == "" {
        scheme := "http";
      }
      if host == "" {
        host := api.value.host;
      }
      if host == "" {
        return Err(MissingHost);
      }
      return Ok(ModuleData(host, scheme, TimeoutMillis(timeout)));
    }
  }

  // ---------------------------------------------------------------------
  // params
  // ---------------------------------------------------------------------

  /** One query parameter as the action's doc comment lists it. */
  function ParamEntry(name: string, att: Attribute): string {
    name + ": " + JsTypeName(att.typ, 1, false)
  }

  function ParamEntries(fields: map<string, Attribute>, names: seq<string>): (r: seq<string>)
    requires forall n :: n in names ==> n in fields
    ensures |r| == |names|
    ensures forall i :: 0 <= i < |names| ==> r[i] == ParamEntry(names[i], fields[names[i]])
  {
    if names == [] then [] else ParamEntries(fields, names[..|names| - 1]) + [ParamEntry(names[|names| - 1], fields[names[|names| - 1]])]
  }

  lemma {:induction false} ParamEntriesAppend(fields: map<string, Attribute>, u: seq<string>, v: seq<string>)
    requires forall n :: n in u ==> n in fields
    requires forall n :: n in v ==> n in fields
    ensures ParamEntries(fields, u + v) == ParamEntries(fields, u) + ParamEntries(fields, v)
  {
    var l, r := ParamEntries(fields, u + v), ParamEntries(fields, u) + ParamEntries(fields, v);
    forall i | 0 <= i < |l| ensures l[i] == r[i] {
      if i < |u| {
        assert (u + v)[i] == u[i];
      } else {
        assert (u + v)[i] == v[i - |u|];
      }
    }
  }

  lemma MultisetSwap<T>(x: multiset<T>, y: multiset<T>, z: multiset<T>)
    ensures x + y + z == x + z + y
  {
  }

  lemma PermutationStep(fields: map<string, Attribute>, a: seq<string>, x: string, u: seq<string>, v: seq<string>)
    requires forall n :: n in a ==> n in fields
    requires forall n :: n in u ==> n in fields
    requires forall n :: n in v ==> n in fields
    requires x in fields
    requires multiset(ParamEntries(fields, a)) == multiset(ParamEntries(fields, u + v))
    ensures multiset(ParamEntries(fields, a + [x])) == multiset(ParamEntries(fields, u + [x] + v))
  {
    ParamEntriesAppend(fields, a, [x]);
    ParamEntriesAppend(fields, u, v);
    ParamEntriesAppend(fields, u, [x]);
    ParamEntriesAppend(fields, u + [x], v);
    var pu, pv, px := ParamEntries(fields, u), ParamEntries(fields, v), ParamEntries(fields, [x]);
    calc {
      multiset(ParamEntries(fields, a + [x]));
      multiset(ParamEntries(fields, a)) + multiset(px);
      multiset(pu) + multiset(pv) + multiset(px);
      { MultisetSwap(multiset(pu), multiset(pv), multiset(px)); }
      multiset(pu) + multiset(px) + multiset(pv);
      multiset(ParamEntries(fields, u + [x] + v));
    }
  }

  /** The entries do not depend on the order the names are met in, up to order. */
  lemma {:induction false} ParamEntriesPermutation(fields: map<string, Attribute>, a: seq<string>, b: seq<string>)
    requires forall n :: n in a ==> n in fields
    requires forall n :: n in b ==> n in fields
    requires multiset(a) == multiset(b)
    ensures multiset(ParamEntries(fields, a)) == multiset(ParamEntries(fields, b))
    decreases |a|
  {
    if a != [] {
      var x := a[|a| - 1];
      var a' := a[..|a| - 1];
      assert a == a' + [x];
      assert multiset(a') == multiset(a) - multiset{x};
      var u, v := SplitAround(b, x);
      ParamEntriesPermutation(fields, a', u + v);
      PermutationStep(fields, a', x, u, v);
    }
  }

  /** A sequence holding `x` is the part before one occurrence, `x`, and the part after. */
  lemma SplitAround(b: seq<string>, x: string) returns (u: seq<string>, v: seq<string>)
    requires x in multiset(b)
    ensures b == u + [x] + v
    ensures multiset(u + v) == multiset(b) - multiset{x}
    ensures forall n :: n in u ==> n in b
    ensures forall n :: n in v ==> n in b
  {
    var i :| 0 <= i < |b| && b[i] == x;
    u, v := b[..i], b[i + 1..];
    assert b == u + [x] + v;
  }

  /** The query parameters of an action, in sorted order; none without a query. */
  function ActionParams(action: Action): (r: Option<seq<string>>)
    ensures action.queryParams.None? <==> r.None?
    ensures r.Some? ==> |r.value| == |ToObject(action.queryParams.value.typ)|
    ensures r.Some? ==> SortedStrings(r.value)
  {
    match action.queryParams
    case None => None
    case Some(q) =>
      var fields := ToObject(q.typ);
      SortStringsSorted(ParamEntries(fields, SortedSet(fields.Keys)));
      Some(SortStrings(ParamEntries(fields, SortedSet(fields.Keys))))
  }

  /** Each query parameter gives exactly one entry. */
  lemma ActionParamsEntries(action: Action)
    requires action.queryParams.Some?
    ensures var fields := ToObject(action.queryParams.value.typ);
      multiset(ActionParams(action).value) == multiset(ParamEntries(fields, SortedSet(fields.Keys)))
    ensures forall n :: n in ToObject(action.queryParams.value.typ) ==>
      ParamEntry(n, ToObject(action.queryParams.value.typ)[n]) in ActionParams(action).value
  {
    var fields := ToObject(action.queryParams.value.typ);
    var entries := ParamEntries(fields, SortedSet(fields.Keys));
    forall n | n in fields ensures ParamEntry(n, fields[n]) in ActionParams(action).value {
      var names := SortedSet(fields.Keys);
      assert n in names;
      var i :| 0 <= i < |names| && names[i] == n;
      assert entries[i] in multiset(entries);
    }
  }

  /**
   * params: ranges over the query object's fields in map order, writes one
   * entry per field, then sorts.
   */
  method Params(action: Action) returns (r: Option<seq<string>>)
    ensures r == ActionParams(action)
  {
    if action.queryParams.None? {
      return None;
    }
    var fields := ToObject(action.queryParams.value.typ);
    var keys := MapKeys(fields);
    forall n | n in keys ensures n in fields {
      assert n in multiset(keys);
    }
    var params: seq<string> := [];
    for i := 0 to |keys|
      invariant forall n :: n in keys ==> n in fields
      invariant params == ParamEntries(fields, keys[..i])
    {
      assert keys[..i + 1] == keys[..i] + [keys[i]];
      params := params + [ParamEntry(keys[i], fields[keys[i]])];
    }
    assert keys[..|keys|] == keys;
    var names := SortedSet(fields.Keys);
    SortedSetSorted(fields.Keys);
    ParamEntriesPermutation(fields, keys, names);
    var entries := ParamEntries(fields, names);
    SortStringsSorted(params);
    SortStringsSorted(entries);
    SortedUnique(SortStrings(params), SortStrings(entries));
    return Some(SortStrings(params));
  }

  // ---------------------------------------------------------------------
  // pathParams
  // ---------------------------------------------------------------------

  /** One path parameter as the action function declares it. */
  function PathParamEntry(p: string): string {
    Jsified(p, false) + ": number|string"
  }

  function PathParamEntries(ps: seq<string>): (r: seq<string>)
    ensures |r| == |ps|
    ensures forall i :: 0 <= i < |ps| ==> r[i] == PathParamEntry(ps[i])
  {
    seq(|ps|, i requires 0 <= i < |ps| => PathParamEntry(ps[i]))
  }

  /** The parameter list of the action's first route, ", "-separated; "" without routes. */
  function PathParamList(action: Action): string {
    if action.routes == [] then "" else Join(PathParamEntries(action.routes[0].params), ", ")
  }

  method PathParams(action: Action) returns (r: string)
    ensures r == PathParamList(action)
  {
    if |action.routes| == 0 {
      return "";
    }
    var p := action.routes[0].params;
    var ret: seq<string> := [];
    for i := 0 to |p|
      invariant ret == PathParamEntries(p[..i])
    {
      assert p[..i + 1] == p[..i] + [p[i]];
      ret := ret + [PathParamEntry(p[i])];
    }
    assert p[..|p|] == p;
    return Join(ret, ", ");
  }

  /** A Jsified name holds no comma. */
  lemma JsifiedNoComma(p: string)
    ensures ',' !in Jsified(p, false)
  {
    var j := Jsified(p, false);
    if p in NumericAliases {
      JsifiedNumeric(p, false);
    } else {
      JsifiedKeepsLetters(p, false);
      forall k | 0 <= k < |j| ensures j[k] != ',' {
        assert ValidIdentifier(j[k]);
      }
    }
  }

  /**
   * The declaration list reads back: split at the commas it is one entry per
   * route parameter, in order, each after the first behind one space.
   */
  lemma PathParamListReadBack(action: Action)
    requires action.routes != [] && action.routes[0].params != []
    ensures var entries := PathParamEntries(action.routes[0].params);
      Split(PathParamList(action), ',') == [entries[0]] + Prefixed(" ", entries[1..])
  {
    var ps := action.routes[0].params;
    var entries := PathParamEntries(ps);
    forall i | 0 <= i < |entries| ensures ',' !in entries[i] {
      JsifiedNoComma(ps[i]);
      assert entries[i] == Jsified(ps[i], false) + ": number|string";
    }
    assert ", "[1..] == " ";
    SplitJoin(entries, ", ", ',');
  }

  // ---------------------------------------------------------------------
  // jspath
  // ---------------------------------------------------------------------

  /** How a path parameter appears in a route path, and what jspath writes in its place. */
  function Marker(p: string): (r: string)
    ensures |r| > 0 && r[0] == ':'
  {
    ":" + p
  }

  function Splice(p: string): string {
    "'+" + Jsified(p, false) + "+'"
  }

  /** One strings.Replace per route parameter, in the order Params() lists them. */
  function Substituted(fp: string, ps: seq<string>): string
    decreases |ps|
  {
    if ps == [] then fp else Substituted(ReplaceAll(fp, Marker(ps[0]), Splice(ps[0])), ps[1..])
  }

  /** The quoted path of the action's first route with its parameters spliced in; "" without routes. */
  method JsPath(action: Action) returns (r: string)
    ensures action.routes == [] ==> r == ""
    ensures action.routes != [] ==>
      r == Substituted("'" + action.routes[0].fullPath + "'", action.routes[0].params)
  {
    if |action.routes| == 0 {
      return "";
    }
    var route := action.routes[0];
    var start := "'" + route.fullPath + "'";
    r := start;
    var ps := route.params;
    for i := 0 to |ps|
      invariant Substituted(r, ps[i..]) == Substituted(start, ps)
    {
      assert ps[i..][0] == ps[i] && ps[i..][1..] == ps[i + 1..];
      r := ReplaceAll(r, Marker(ps[i]), Splice(ps[i]));
    }
  }

  lemma {:induction false} ReplaceAllSkip(a: string, s: string, pat: string, rep: string)
    requires |pat| > 0 && pat[0] !in a
    ensures ReplaceAll(a + s, pat, rep) == a + ReplaceAll(s, pat, rep)
  {
    if a != [] {
      var t := a + s;
      assert t[0] == a[0] && t[1..] == a[1..] + s;
      assert a[0] in a;
      assert forall c :: c in a[1..] ==> c in a;
      ReplaceAllSkip(a[1..], s, pat, rep);
      if |t| < |pat| {
        assert ReplaceAll(s, pat, rep) == s;
      } else {
        assert t[..|pat|] != pat by {
          assert t[..|pat|][0] == a[0];
        }
        assert ReplaceAll(t, pat, rep) == [a[0]] + ReplaceAll(a[1..] + s, pat, rep);
      }
      assert [a[0]] + a[1..] == a;
    } else {
      assert a + s == s;
    }
  }

  lemma ReplaceAllHit(s: string, pat: string, rep: string)
    requires |pat| > 0
    ensures ReplaceAll(pat + s, pat, rep) == rep + ReplaceAll(s, pat, rep)
  {
    assert (pat + s)[..|pat|] == pat && (pat + s)[|pat|..] == s;
  }

  lemma ReplaceAllMiss(c: char, s: string, pat: string, rep: string)
    requires |pat| > 0 && !(pat <= [c] + s)
    ensures ReplaceAll([c] + s, pat, rep) == [c] + ReplaceAll(s, pat, rep)
  {
    var t := [c] + s;
    assert t[1..] == s;
    if |t| >= |pat| {
      assert t[..|pat|] != pat;
    }
  }

  lemma ReplaceAllNone(s: string, pat: string, rep: string)
    requires |pat| > 0 && pat[0] !in s
    ensures ReplaceAll(s, pat, rep) == s
  {
    ReplaceAllSkip(s, [], pat, rep);
    assert s + [] == s;
  }

  lemma SpliceNoColon(p: string)
    ensures ':' !in Splice(p)
    ensures |Splice(p)| == |Jsified(p, false)| + 4
  {
    var j := Jsified(p, false);
    assert ':' !in j by {
      if p in NumericAliases {
        JsifiedNumeric(p, false);
      } else {
        JsifiedKeepsLetters(p, false);
        forall k | 0 <= k < |j| ensures j[k] != ':' {
          assert ValidIdentifier(j[k]);
        }
      }
    }
    assert Splice(p) == "'+" + j + "+'";
  }

  /** A rune that may appear in a route parameter name. */
  predicate IsNameRune(c: char) {
    IsLetter(c) || IsDigit(c) || c == '_'
  }

  predicate IsName(p: string) {
    forall k :: 0 <= k < |p| ==> IsNameRune(p[k])
  }

  lemma NameNoColon(p: string)
    requires IsName(p)
    ensures ':' !in p
  {
    forall k | 0 <= k < |p| ensures p[k] != ':' {
      assert IsNameRune(p[k]);
    }
  }

  lemma NameAppend(p: string, t: string)
    requires IsName(p) && IsName(t)
    ensures IsName(p + t)
  {
    forall k | 0 <= k < |p + t| ensures IsNameRune((p + t)[k]) {
      if k < |p| {
        assert (p + t)[k] == p[k];
      } else {
        assert (p + t)[k] == t[k - |p|];
      }
    }
  }

  /**
   * A route "/a/:p/:q" whose second parameter q = p + t starts with the
   * first, quoted as jspath starts from it, e.g. "/a/:id/:idx".
   */
  function ClashPath(p: string, q: string): string {
    "'/a/" + (Marker(p) + ("/" + (Marker(q) + "'")))
  }

  /** The path jspath should give for ClashPath: each parameter spliced in once. */
  function ClashIntended(p: string, q: string): string {
    "'/a/" + (Splice(p) + ("/" + (Splice(q) + "'")))
  }

  /** What jspath gives for ClashPath(p, p + t) when p is listed first: p twice, then t. */
  function ClashCorrupted(p: string, t: string): string {
    "'/a/" + (Splice(p) + ("/" + (Splice(p) + (t + "'"))))
  }

  /** The marker of p + t is the marker of p followed by t. */
  lemma MarkerExtends(p: string, t: string, rest: string)
    ensures Marker(p + t) + rest == Marker(p) + (t + rest)
  {
    assert Marker(p + t) == Marker(p) + t;
  }

  /** A marker is a colon followed by the name. */
  lemma MarkerSplit(p: string, rest: string)
    ensures Marker(p) + rest == [':'] + (p + rest)
  {
  }

  lemma ReplaceShortInClash(p: string, t: string)
    requires IsName(p) && IsName(t)
    ensures ReplaceAll(ClashPath(p, p + t), Marker(p), Splice(p)) == ClashCorrupted(p, t)
  {
    var sp, m := Splice(p), Marker(p);
    var tail := t + "'";
    assert ReplaceAll(tail, m, sp) == tail by {
      NameNoColon(t);
      ReplaceAllNone(tail, m, sp);
    }
    assert ReplaceAll(m + tail, m, sp) == sp + tail by {
      ReplaceAllHit(tail, m, sp);
    }
    assert Marker(p + t) + "'" == m + tail by {
      MarkerExtends(p, t, "'");
    }
    assert ReplaceAll("/" + (m + tail), m, sp) == "/" + (sp + tail) by {
      ReplaceAllSkip("/", m + tail, m, sp);
    }
    assert ReplaceAll(m + ("/" + (m + tail)), m, sp) == sp + ("/" + (sp + tail)) by {
      ReplaceAllHit("/" + (m + tail), m, sp);
    }
    ReplaceAllSkip("'/a/", m + ("/" + (m + tail)), m, sp);
  }

  lemma ReplaceLongInClash(p: string, t: string)
    requires IsName(p) && IsName(t) && t != []
    ensures ReplaceAll(ClashPath(p, p + t), Marker(p + t), Splice(p + t))
      == "'/a/" + (Marker(p) + ("/" + (Splice(p + t) + "'")))
  {
    var q := p + t;
    var sq, m := Splice(q), Marker(q);
    var tail := "/" + (m + "'");
    assert ReplaceAll(m + "'", m, sq) == sq + "'" by {
      ReplaceAllHit("'", m, sq);
      ReplaceAllNone("'", m, sq);
    }
    assert ReplaceAll(tail, m, sq) == "/" + (sq + "'") by {
      ReplaceAllSkip("/", m + "'", m, sq);
    }
    assert ReplaceAll(p + tail, m, sq) == p + ("/" + (sq + "'")) by {
      NameNoColon(p);
      ReplaceAllSkip(p, tail, m, sq);
    }
    assert ReplaceAll(Marker(p) + tail, m, sq) == Marker(p) + ("/" + (sq + "'")) by {
      MarkerSplit(p, tail);
      MarkerSplit(p, "/" + (sq + "'"));
      MarkerMiss(p, t, m + "'", sq);
    }
    ReplaceAllSkip("'/a/", Marker(p) + tail, m, sq);
  }

  /** The marker of p + t does not start at the marker of p followed by '/'. */
  lemma MarkerMiss(p: string, t: string, tail: string, rep: string)
    requires IsName(t) && t != []
    ensures ReplaceAll([':'] + (p + ("/" + tail)), Marker(p + t), rep) == [':'] + ReplaceAll(p + ("/" + tail), Marker(p + t), rep)
  {
    var m, x := Marker(p + t), [':'] + (p + ("/" + tail));
    assert x[1 + |p|] == '/' && m[1 + |p|] == t[0];
    assert IsNameRune(t[0]);
    ReplaceAllMiss(':', p + ("/" + tail), m, rep);
  }

  /** Listing the shorter name first, its marker is also replaced inside the longer one. */
  lemma SubstitutedShortFirst(p: string, t: string)
    requires IsName(p) && IsName(t)
    ensures Substituted(ClashPath(p, p + t), [p, p + t]) == ClashCorrupted(p, t)
  {
    var c := ClashCorrupted(p, t);
    assert ReplaceAll(ClashPath(p, p + t), Marker(p), Splice(p)) == c by {
      ReplaceShortInClash(p, t);
    }
    assert ReplaceAll(c, Marker(p + t), Splice(p + t)) == c by {
      SpliceNoColon(p);
      NameNoColon(t);
      assert ':' !in c;
      ReplaceAllNone(c, Marker(p + t), Splice(p + t));
    }
    var ps, x := [p, p + t], ClashPath(p, p + t);
    assert ps[0] == p && ps[1..] == [p + t] && [p + t][1..] == [];
    assert Substituted(x, ps) == Substituted(c, [p + t]);
    assert Substituted(c, [p + t]) == Substituted(c, []);
  }

  /** Listing the longer name first gives the intended path. */
  lemma SubstitutedLongFirst(p: string, t: string)
    requires IsName(p) && IsName(t) && t != []
    ensures Substituted(ClashPath(p, p + t), [p + t, p]) == ClashIntended(p, p + t)
  {
    var q := p + t;
    var sp, sq, m := Splice(p), Splice(q), Marker(p);
    var tail := "/" + (sq + "'");
    var s2 := "'/a/" + (m + tail);
    assert ReplaceAll(ClashPath(p, q), Marker(q), sq) == s2 by {
      ReplaceLongInClash(p, t);
    }
    assert ReplaceAll(tail, m, sp) == tail by {
      SpliceNoColon(q);
      ReplaceAllNone(tail, m, sp);
    }
    assert ReplaceAll(m + tail, m, sp) == sp + tail by {
      ReplaceAllHit(tail, m, sp);
    }
    assert ReplaceAll(s2, m, sp) == ClashIntended(p, q) by {
      ReplaceAllSkip("'/a/", m + tail, m, sp);
    }
    var ps, x := [q, p], ClashPath(p, q);
    assert ps[0] == q && ps[1..] == [p] && [p][1..] == [];
    assert Substituted(x, ps) == Substituted(s2, [p]);
    assert Substituted(s2, [p]) == Substituted(ClashIntended(p, q), []);
  }

  /**
   * A parameter whose name starts another's is replaced inside it: on a
   * route "/a/:id/:idx" with the parameters listed as ["id", "idx"], jspath
   * replaces ":id" first, also inside ":idx", so the path uses id twice and
   * idx never. Listing the parameters the other way round happens to give
   * the intended path.
   */
  lemma JsPathPrefixClash(p: string, t: string)
    requires IsName(p) && IsName(t) && t != [] && ValidIdentifier(t[0])
    requires p !in NumericAliases && p + t !in NumericAliases
    ensures Substituted(ClashPath(p, p + t), [p, p + t]) != ClashIntended(p, p + t)
    ensures Substituted(ClashPath(p, p + t), [p + t, p]) == ClashIntended(p, p + t)
  {
    SubstitutedShortFirst(p, t);
    SubstitutedLongFirst(p, t);
    CorruptedDiffers(p, t);
  }

  /**
   * The corrupted path differs from the intended one: right after the
   * second splice of p, one has the closing "+'" where the other goes on
   * with the rest of the jsified longer name.
   */
  lemma CorruptedDiffers(p: string, t: string)
    requires t != [] && ValidIdentifier(t[0])
    requires p !in NumericAliases && p + t !in NumericAliases
    ensures ClashCorrupted(p, t) != ClashIntended(p, p + t)
  {
    JsifiedLonger(p, t);
    var jp, jq := Jsified(p, false), Jsified(p + t, false);
    SplicesDiffer("'/a/", jp, jq, t);
  }

  /**
   * Two splices side by side differ from one splice of a longer name: where
   * the shorter name is closed by "+'", the longer one goes on with a rune
   * other than '+'.
   */
  lemma SplicesDiffer(a: string, jp: string, jq: string, t: string)
    requires |jp| < |jq| && jq[|jp|] != '+'
    ensures a + (("'+" + jp + "+'") + ("/" + (("'+" + jp + "+'") + (t + "'"))))
         != a + (("'+" + jp + "+'") + ("/" + (("'+" + jq + "+'") + "'")))
  {
    var sp := "'+" + jp + "+'";
    var w1 := a + (sp + ("/" + (sp + (t + "'"))));
    var w2 := a + (sp + ("/" + (("'+" + jq + "+'") + "'")));
    var i := |a| + |sp| + 1 + 2 + |jp|;
    assert w1[i] == '+';
    assert w2[i] == jq[|jp|];
  }

  /** A name extended by a letter or digit has a longer Jsified form. */
  lemma JsifiedLonger(p: string, t: string)
    requires t != [] && ValidIdentifier(t[0])
    requires p !in NumericAliases && p + t !in NumericAliases
    ensures |Jsified(p, false)| < |Jsified(p + t, false)|
    ensures ValidIdentifier(Jsified(p + t, false)[|Jsified(p, false)|])
  {
    JsifiedKeepsLetters(p, false);
    JsifiedKeepsLetters(p + t, false);
    FilterValidAppend(p, t);
    FilterValidAppend([t[0]], t[1..]);
    assert [t[0]] + t[1..] == t;
  }

  /** The longest prefix of `s` made of name runes. */
  function NameRun(s: string): (w: string)
    ensures w <= s
    ensures IsName(w)
    ensures |w| < |s| ==> !IsNameRune(s[|w|])
  {
    if s != [] && IsNameRune(s[0]) then [s[0]] + NameRun(s[1..]) else []
  }

  /**
   * jspath with each marker replaced whole: at every ':' the full parameter
   * name that follows is read, and spliced in when it is a route parameter.
   */
  function SpliceMarkers(s: string, ps: seq<string>): string
    decreases |s|
  {
    if s == [] then []
    else if s[0] == ':' then
      var w := NameRun(s[1..]);
      (if w in ps then Splice(w) else Marker(w)) + SpliceMarkers(s[1 + |w|..], ps)
    else [s[0]] + SpliceMarkers(s[1..], ps)
  }

  /** The corrected jspath for the action's first route. */
  function JsPathFixed(action: Action): string {
    if action.routes == [] then ""
    else SpliceMarkers("'" + action.routes[0].fullPath + "'", action.routes[0].params)
  }

  lemma {:induction false} NameRunOf(p: string, rest: string)
    requires IsName(p)
    requires rest == [] || !IsNameRune(rest[0])
    ensures NameRun(p + rest) == p
  {
    if p != [] {
      assert (p + rest)[0] == p[0] && (p + rest)[1..] == p[1..] + rest;
      NameRunOf(p[1..], rest);
      assert [p[0]] + p[1..] == p;
    } else {
      assert p + rest == rest;
    }
  }

  /** Text without markers is copied as it is. */
  lemma {:induction false} SpliceMarkersPlain(a: string, s: string, ps: seq<string>)
    requires ':' !in a
    ensures SpliceMarkers(a + s, ps) == a + SpliceMarkers(s, ps)
  {
    if a != [] {
      assert (a + s)[0] == a[0] && (a + s)[1..] == a[1..] + s;
      SpliceMarkersPlain(a[1..], s, ps);
      assert [a[0]] + a[1..] == a;
    } else {
      assert a + s == s;
    }
  }

  /**
   * The intended behaviour: a marker is replaced by its own parameter and by
   * nothing else, whatever other parameters share its prefix.
   */
  lemma MarkerReplacedWhole(p: string, rest: string, ps: seq<string>)
    requires p in ps && IsName(p)
    requires rest == [] || !IsNameRune(rest[0])
    ensures SpliceMarkers(Marker(p) + rest, ps) == Splice(p) + SpliceMarkers(rest, ps)
  {
    var s := Marker(p) + rest;
    assert s[1..] == p + rest;
    NameRunOf(p, rest);
    assert s[1 + |p|..] == rest;
  }

  /** On the clashing route the corrected jspath gives the intended path, in any order. */
  lemma JsPathFixedPrefixClash(p: string, t: string, ps: seq<string>)
    requires IsName(p) && IsName(t) && p in ps && p + t in ps
    ensures SpliceMarkers(ClashPath(p, p + t), ps) == ClashIntended(p, p + t)
  {
    var q := p + t;
    var tail := Marker(q) + "'";
    calc {
      SpliceMarkers(ClashPath(p, q), ps);
      { SpliceMarkersPlain("'/a/", Marker(p) + ("/" + tail), ps); }
      "'/a/" + SpliceMarkers(Marker(p) + ("/" + tail), ps);
      { MarkerReplacedWhole(p, "/" + tail, ps); }
      "'/a/" + (Splice(p) + SpliceMarkers("/" + tail, ps));
      { SpliceMarkersPlain("/", tail, ps); }
      "'/a/" + (Splice(p) + ("/" + SpliceMarkers(tail, ps)));
      { NameAppend(p, t); MarkerReplacedWhole(q, "'", ps); }
      "'/a/" + (Splice(p) + ("/" + (Splice(q) + SpliceMarkers("'", ps))));
      { SpliceMarkersPlain("'", [], ps); assert "'" + [] == "'"; }
      ClashIntended(p, q);
    }
  }

  /**
   * Every ':' of `s` starts a marker whose whole name, up to the first rune
   * that cannot continue a name, is one of `ns`: a route path and the
   * wildcards goa reads from it.
   */
  predicate Marked(s: string, ns: seq<string>)
    decreases |s|
  {
    if s == [] then true
    else if s[0] == ':' then
      var w := NameRun(s[1..]);
      w in ns && Marked(s[1 + |w|..], ns)
    else Marked(s[1..], ns)
  }

  /** Non-empty names, none of them a proper prefix of another. */
  predicate PrefixFree(ns: seq<string>) {
    && (forall a :: a in ns ==> a != [] && IsName(a))
    && (forall a, b :: a in ns && b in ns && a <= b ==> a == b)
  }

  /** With nothing to splice, the corrected scan gives the path back. */
  lemma {:induction false} SpliceMarkersNone(s: string)
    ensures SpliceMarkers(s, []) == s
    decreases |s|, 1
  {
    if s != [] {
      if s[0] == ':' {
        MarkerKept(s);
      } else {
        RuneKept(s);
      }
    }
  }

  /** A marker whose name is not listed is kept, and so is what follows it. */
  lemma {:induction false} MarkerKept(s: string)
    requires s != [] && s[0] == ':'
    ensures SpliceMarkers(s, []) == s
    decreases |s|, 0
  {
    var w := NameRun(s[1..]);
    SpliceMarkersUnlisted(s, []);
    SpliceMarkersNone(s[1 + |w|..]);
    MarkerAtHead(s, w);
  }

  /** A rune other than ':' is kept, and so is what follows it. */
  lemma {:induction false} RuneKept(s: string)
    requires s != [] && s[0] != ':'
    ensures SpliceMarkers(s, []) == s
    decreases |s|, 0
  {
    SpliceMarkersCopied(s, []);
    SpliceMarkersNone(s[1..]);
    assert s == [s[0]] + s[1..];
  }

  /** A string opening with a marker is that marker followed by the rest. */
  lemma MarkerAtHead(s: string, w: string)
    requires s != [] && s[0] == ':' && w <= s[1..]
    ensures s == Marker(w) + s[1 + |w|..]
  {
    var t := s[1..];
    assert t == w + t[|w|..];
    assert s == [':'] + t;
    AppendAssoc([':'], w, t[|w|..]);
  }

  /** A rune other than ':' is copied as it is. */
  lemma SpliceMarkersCopied(s: string, ps: seq<string>)
    requires s != [] && s[0] != ':'
    ensures SpliceMarkers(s, ps) == [s[0]] + SpliceMarkers(s[1..], ps)
  {
  }

  /** A marker whose name is not listed is copied as it is. */
  lemma SpliceMarkersUnlisted(s: string, ps: seq<string>)
    requires s != [] && s[0] == ':' && NameRun(s[1..]) !in ps
    ensures SpliceMarkers(s, ps) == Marker(NameRun(s[1..])) + SpliceMarkers(s[1 + |NameRun(s[1..])|..], ps)
  {
  }

  /** What follows a marker's name cannot continue it, spliced or not. */
  lemma SpliceMarkersHead(s: string, ps: seq<string>)
    requires s == [] || !IsNameRune(s[0])
    ensures SpliceMarkers(s, ps) == [] || !IsNameRune(SpliceMarkers(s, ps)[0])
  {
    if s != [] && s[0] == ':' {
      var w := NameRun(s[1..]);
      var h := if w in ps then Splice(w) else Marker(w);
      assert h[0] == '\'' || h[0] == ':';
      assert SpliceMarkers(s, ps)[0] == h[0];
    }
  }

  /** The marker of p is not found at the marker of w when p is no prefix of w. */
  lemma MarkerMissAt(p: string, w: string, y: string, rep: string)
    requires IsName(p) && IsName(w) && !(p <= w)
    requires y == [] || !IsNameRune(y[0])
    ensures ReplaceAll(Marker(w) + y, Marker(p), rep) == Marker(w) + ReplaceAll(y, Marker(p), rep)
  {
    var m, x := Marker(p), [':'] + (w + y);
    assert !(m <= x) by {
      if |p| <= |w| {
        assert w[..|p|] != p;
        if |m| <= |x| {
          assert x[..|m|] == [':'] + w[..|p|];
          assert x[..|m|][1..] == w[..|p|];
        }
      } else if y != [] {
        assert IsNameRune(p[|w|]);
        assert x[1 + |w|] == y[0] && m[1 + |w|] == p[|w|];
      }
    }
    ReplaceAllMiss(':', w + y, m, rep);
    NameNoColon(w);
    ReplaceAllSkip(w, y, m, rep);
    assert Marker(w) + y == x;
  }

  /**
   * One strings.Replace of jspath, applied to a path whose markers named in
   * `done` are already spliced, splices exactly the markers of p, as long as
   * p starts no other marker's name.
   */
  lemma {:induction false} ReplaceStep(s: string, done: seq<string>, p: string, all: seq<string>)
    requires Marked(s, all) && PrefixFree(all) && p in all
    ensures ReplaceAll(SpliceMarkers(s, done), Marker(p), Splice(p)) == SpliceMarkers(s, done + [p])
    decreases |s|
  {
    var m, sp := Marker(p), Splice(p);
    if s != [] {
      if s[0] != ':' {
        var t := s[1..];
        assert SpliceMarkers(s, done) == [s[0]] + SpliceMarkers(t, done);
        assert SpliceMarkers(s, done + [p]) == [s[0]] + SpliceMarkers(t, done + [p]);
        assert Marked(t, all);
        ReplaceStep(t, done, p, all);
        assert !(m <= [s[0]] + SpliceMarkers(t, done)) by {
          assert m[0] == ':';
        }
        ReplaceAllMiss(s[0], SpliceMarkers(t, done), m, sp);
      } else {
        var w := NameRun(s[1..]);
        var rest := s[1 + |w|..];
        assert rest == [] || !IsNameRune(rest[0]);
        assert Marked(rest, all) && w in all;
        ReplaceStep(rest, done, p, all);
        SpliceMarkersHead(rest, done);
        ReplaceAtMarker(w, SpliceMarkers(rest, done), SpliceMarkers(rest, done + [p]), done, p, all);
      }
    }
  }

  /** The step of ReplaceStep at one marker, whose name w is one of `all`. */
  lemma ReplaceAtMarker(w: string, y: string, y': string, done: seq<string>, p: string, all: seq<string>)
    requires IsName(w) && w in all && PrefixFree(all) && p in all
    requires y == [] || !IsNameRune(y[0])
    requires ReplaceAll(y, Marker(p), Splice(p)) == y'
    ensures ReplaceAll((if w in done then Splice(w) else Marker(w)) + y, Marker(p), Splice(p))
         == (if w in done + [p] then Splice(w) else Marker(w)) + y'
  {
    var m, sp := Marker(p), Splice(p);
    if w in done {
      SpliceNoColon(w);
      ReplaceAllSkip(Splice(w), y, m, sp);
    } else if w == p {
      ReplaceAllHit(y, m, sp);
    } else {
      assert !(p <= w);
      MarkerMissAt(p, w, y, sp);
    }
  }

  /** The fold of strings.Replace over `ps` splices the markers of every name in `ps`. */
  lemma {:induction false} SubstitutedSplices(s: string, done: seq<string>, ps: seq<string>)
    requires Marked(s, done + ps) && PrefixFree(done + ps)
    ensures Substituted(SpliceMarkers(s, done), ps) == SpliceMarkers(s, done + ps)
    decreases |ps|
  {
    if ps == [] {
      assert done + ps == done;
    } else {
      ReplaceStep(s, done, ps[0], done + ps);
      assert done + [ps[0]] + ps[1..] == done + ps;
      SubstitutedSplices(s, done + [ps[0]], ps[1..]);
    }
  }

  /**
   * Outside the prefix clash jspath as written is right: when every ':' of
   * the route path starts the marker of one of the route's parameters and
   * no parameter's name starts another's, the per-parameter replacements
   * give the corrected path, in whatever order Params() lists them.
   */
  lemma JsPathAgrees(action: Action)
    requires action.routes != [] ==>
      PrefixFree(action.routes[0].params) && Marked("'" + action.routes[0].fullPath + "'", action.routes[0].params)
    ensures action.routes == [] ==> JsPathFixed(action) == ""
    ensures action.routes != [] ==>
      Substituted("'" + action.routes[0].fullPath + "'", action.routes[0].params) == JsPathFixed(action)
  {
    if action.routes != [] {
      var fp, ps := "'" + action.routes[0].fullPath + "'", action.routes[0].params;
      SpliceMarkersNone(fp);
      assert [] + ps == ps;
      SubstitutedSplices(fp, [], ps);
    }
  }

  // ---------------------------------------------------------------------
  // generateJS: the order actions are emitted in
  // ---------------------------------------------------------------------

  /** The actions of all resources, in iteration order. */
  function AllActions(resources: seq<Resource>): seq<Action> {
    if resources == [] then []
    else AllActions(resources[..|resources| - 1]) + resources[|resources| - 1].actions
  }

  /** The actions named `n`, in their order. */
  function Named(acts: seq<Action>, n: string): (r: seq<Action>)
    ensures forall i :: 0 <= i < |r| ==> r[i].name == n
    ensures |r| <= |acts|
  {
    if acts == [] then []
    else Named(acts[..|acts| - 1], n) + (if acts[|acts| - 1].name == n then [acts[|acts| - 1]] else [])
  }

  /** The actions whose names are in `names`, in their order. */
  function NamedIn(acts: seq<Action>, names: set<string>): seq<Action> {
    if acts == [] then []
    else NamedIn(acts[..|acts| - 1], names) + (if acts[|acts| - 1].name in names then [acts[|acts| - 1]] else [])
  }

  function Names(acts: seq<Action>): set<string> {
    set i | 0 <= i < |acts| :: acts[i].name
  }

  /** The groups of `keys`, one after the other. */
  function Groups(acts: seq<Action>, keys: seq<string>): seq<Action> {
    if keys == [] then []
    else Groups(acts, keys[..|keys| - 1]) + Named(acts, keys[|keys| - 1])
  }

  /** generateJS's order: the groups of same-named actions, by ascending name. */
  function EmitOrder(acts: seq<Action>): seq<Action> {
    Groups(acts, SortedSet(Names(acts)))
  }

  predicate Distinct(keys: seq<string>) {
    forall i, j :: 0 <= i < j < |keys| ==> keys[i] != keys[j]
  }

  predicate NamesAscending(acts: seq<Action>) {
    forall i, j :: 0 <= i < j < |acts| ==> LessEq(acts[i].name, acts[j].name)
  }

  lemma {:induction false} NamedAppend(a: seq<Action>, b: seq<Action>, n: string)
    ensures Named(a + b, n) == Named(a, n) + Named(b, n)
    decreases |b|
  {
    if b == [] {
      assert a + b == a;
    } else {
      var b' := b[..|b| - 1];
      assert (a + b)[..|a + b| - 1] == a + b';
      NamedAppend(a, b', n);
    }
  }

  lemma {:induction false} NamedOfNamed(acts: seq<Action>, k: string, n: string)
    ensures Named(Named(acts, k), n) == (if k == n then Named(acts, k) else [])
    decreases |acts|
  {
    if acts != [] {
      var x := acts[|acts| - 1];
      var a' := acts[..|acts| - 1];
      NamedOfNamed(a', k, n);
      var tail := if x.name == k then [x] else [];
      NamedAppend(Named(a', k), tail, n);
      assert tail != [] ==> tail[..0] == [];
    }
  }

  lemma {:induction false} NamedAbsent(acts: seq<Action>, n: string)
    requires n !in Names(acts)
    ensures Named(acts, n) == []
    decreases |acts|
  {
    if acts != [] {
      var a' := acts[..|acts| - 1];
      assert Names(a') <= Names(acts) by {
        forall m | m in Names(a') ensures m in Names(acts) {
          var i :| 0 <= i < |a'| && a'[i].name == m;
          assert acts[i] == a'[i];
        }
      }
      NamedAbsent(a', n);
      assert acts[|acts| - 1].name in Names(acts);
    }
  }

  lemma {:induction false} NamedInSplit(acts: seq<Action>, k: string, s: set<string>)
    requires k !in s
    ensures multiset(NamedIn(acts, s + {k})) == multiset(NamedIn(acts, s)) + multiset(Named(acts, k))
    decreases |acts|
  {
    if acts != [] {
      var a', x := acts[..|acts| - 1], acts[|acts| - 1];
      NamedInSplit(a', k, s);
      var ts := if x.name in s then [x] else [];
      var tk := if x.name == k then [x] else [];
      var tu := if x.name in s + {k} then [x] else [];
      assert multiset(tu) == multiset(ts) + multiset(tk);
      MultisetSplitExtend(NamedIn(a', s + {k}), NamedIn(a', s), Named(a', k), tu, ts, tk);
      assert NamedIn(acts, s + {k}) == NamedIn(a', s + {k}) + tu;
      assert NamedIn(acts, s) == NamedIn(a', s) + ts;
      assert Named(acts, k) == Named(a', k) + tk;
    }
  }

  lemma MultisetSplitExtend<T>(u: seq<T>, a: seq<T>, b: seq<T>, tu: seq<T>, ta: seq<T>, tb: seq<T>)
    requires multiset(u) == multiset(a) + multiset(b)
    requires multiset(tu) == multiset(ta) + multiset(tb)
    ensures multiset(u + tu) == multiset(a + ta) + multiset(b + tb)
  {
  }

  lemma {:induction false} NamedInAll(acts: seq<Action>, s: set<string>)
    requires Names(acts) <= s
    ensures NamedIn(acts, s) == acts
    decreases |acts|
  {
    if acts != [] {
      var a' := acts[..|acts| - 1];
      assert Names(a') <= Names(acts) by {
        forall m | m in Names(a') ensures m in Names(acts) {
          var i :| 0 <= i < |a'| && a'[i].name == m;
          assert acts[i] == a'[i];
        }
      }
      NamedInAll(a', s);
      assert acts[|acts| - 1].name in Names(acts);
      assert a' + [acts[|acts| - 1]] == acts;
    }
  }

  lemma {:induction false} GroupsPermutation(acts: seq<Action>, keys: seq<string>)
    requires Distinct(keys)
    ensures multiset(Groups(acts, keys)) == multiset(NamedIn(acts, set k | k in keys))
    decreases |keys|
  {
    if keys == [] {
      assert (set k | k in keys) == {};
      NamedInEmpty(acts);
    } else {
      var k := keys[|keys| - 1];
      var ks := keys[..|keys| - 1];
      var s := set x | x in ks;
      assert keys == ks + [k];
      DistinctLast(ks, k);
      GroupsPermutation(acts, ks);
      NamedInSplit(acts, k, s);
      assert Groups(acts, keys) == Groups(acts, ks) + Named(acts, k);
    }
  }

  /** The last of distinct keys is new to the others, which are distinct too. */
  lemma DistinctLast(ks: seq<string>, k: string)
    requires Distinct(ks + [k])
    ensures Distinct(ks)
    ensures k !in (set x | x in ks)
    ensures (set x | x in ks + [k]) == (set x | x in ks) + {k}
  {
    var keys := ks + [k];
    forall i, j | 0 <= i < j < |ks| ensures ks[i] != ks[j] {
      assert ks[i] == keys[i] && ks[j] == keys[j];
    }
    forall i | 0 <= i < |ks| ensures ks[i] != k {
      assert ks[i] == keys[i] && keys[|ks|] == k;
    }
  }

  lemma {:induction false} NamedInEmpty(acts: seq<Action>)
    ensures NamedIn(acts, {}) == []
    decreases |acts|
  {
    if acts != [] {
      NamedInEmpty(acts[..|acts| - 1]);
    }
  }

  lemma {:induction false} GroupsNames(acts: seq<Action>, keys: seq<string>)
    ensures forall i :: 0 <= i < |Groups(acts, keys)| ==> Groups(acts, keys)[i].name in keys
    decreases |keys|
  {
    if keys != [] {
      var ks := keys[..|keys| - 1];
      GroupsNames(acts, ks);
      var g: seq<Action>, h: seq<Action> := Groups(acts, ks), Named(acts, keys[|keys| - 1]);
      forall i | 0 <= i < |g + h| ensures (g + h)[i].name in keys {
        if i < |g| {
          assert (g + h)[i] == g[i] && g[i].name in ks;
        } else {
          assert (g + h)[i] == h[i - |g|];
        }
      }
    }
  }

  lemma {:induction false} GroupsAscending(acts: seq<Action>, keys: seq<string>)
    requires SortedStrings(keys)
    ensures NamesAscending(Groups(acts, keys))
    decreases |keys|
  {
    if keys != [] {
      var k := keys[|keys| - 1];
      var ks := keys[..|keys| - 1];
      GroupsAscending(acts, ks);
      GroupsNames(acts, ks);
      var g: seq<Action>, h: seq<Action> := Groups(acts, ks), Named(acts, k);
      var r := g + h;
      forall i, j | 0 <= i < j < |r| ensures LessEq(r[i].name, r[j].name) {
        if j < |g| {
          assert r[i] == g[i] && r[j] == g[j];
        } else if i >= |g| {
          assert r[i] == h[i - |g|] && r[j] == h[j - |g|];
          LessEqReflexive(k);
        } else {
          assert r[i] == g[i] && r[j] == h[j - |g|];
          var m :| 0 <= m < |ks| && ks[m] == g[i].name;
          assert keys[m] == ks[m];
        }
      }
    }
  }

  lemma {:induction false} GroupsStable(acts: seq<Action>, keys: seq<string>, n: string)
    requires Distinct(keys)
    ensures Named(Groups(acts, keys), n) == (if n in keys then Named(acts, n) else [])
    decreases |keys|
  {
    if keys != [] {
      var k := keys[|keys| - 1];
      var ks := keys[..|keys| - 1];
      GroupsStable(acts, ks, n);
      NamedAppend(Groups(acts, ks), Named(acts, k), n);
      NamedOfNamed(acts, k, n);
      assert n == k ==> n !in ks;
    }
  }

  /** Every action is emitted exactly once: the order is a permutation. */
  lemma EmitOrderPermutation(acts: seq<Action>)
    ensures multiset(EmitOrder(acts)) == multiset(acts)
  {
    var keys := SortedSet(Names(acts));
    SortedSetDistinct(Names(acts));
    GroupsPermutation(acts, keys);
    assert (set k | k in keys) == Names(acts);
    NamedInAll(acts, Names(acts));
  }

  /** Actions are emitted by ascending name. */
  lemma EmitOrderAscending(acts: seq<Action>)
    ensures NamesAscending(EmitOrder(acts))
  {
    SortedSetSorted(Names(acts));
    GroupsAscending(acts, SortedSet(Names(acts)));
  }

  /** Actions of the same name keep the order the resources list them in. */
  lemma EmitOrderStable(acts: seq<Action>, n: string)
    ensures Named(EmitOrder(acts), n) == Named(acts, n)
  {
    SortedSetDistinct(Names(acts));
    GroupsStable(acts, SortedSet(Names(acts)), n);
    if n !in Names(acts) {
      NamedAbsent(acts, n);
    }
  }

  /** The map from action name to its actions, as generateJS builds it. */
  ghost predicate Grouping(groups: map<string, seq<Action>>, seen: seq<Action>) {
    groups.Keys == Names(seen) && forall n :: n in groups ==> groups[n] == Named(seen, n)
  }

  /** Appends `a` to the group of its name, creating the group if needed. */
  method AddAction(groups: map<string, seq<Action>>, a: Action, ghost seen: seq<Action>) returns (r: map<string, seq<Action>>)
    requires Grouping(groups, seen)
    ensures Grouping(r, seen + [a])
  {
    if a.name in groups {
      r := groups[a.name := groups[a.name] + [a]];
    } else {
      r := groups[a.name := [a]];
      NamedAbsent(seen, a.name);
    }
    var s := seen + [a];
    assert s[..|s| - 1] == seen;
    assert Names(s) == Names(seen) + {a.name} by {
      forall m | m in Names(s) ensures m in Names(seen) + {a.name} {
        var i :| 0 <= i < |s| && s[i].name == m;
        if i < |seen| { assert seen[i] == s[i]; }
      }
      forall m | m in Names(seen) ensures m in Names(s) {
        var i :| 0 <= i < |seen| && seen[i].name == m;
        assert s[i] == seen[i];
      }
      assert s[|s| - 1] == a;
    }
  }

  lemma AllActionsSnoc(resources: seq<Resource>, i: nat)
    requires i < |resources|
    ensures AllActions(resources[..i + 1]) == AllActions(resources[..i]) + resources[i].actions
  {
    assert resources[..i + 1][..i] == resources[..i];
  }

  /** The first loop of generateJS: the actions of every resource, grouped by name. */
  method GroupByName(resources: seq<Resource>) returns (groups: map<string, seq<Action>>, ghost seen: seq<Action>)
    ensures Grouping(groups, AllActions(resources))
    ensures seen == AllActions(resources)
  {
    groups := map[];
    seen := [];
    for i := 0 to |resources|
      invariant seen == AllActions(resources[..i])
      invariant Grouping(groups, seen)
    {
      var actions := resources[i].actions;
      AllActionsSnoc(resources, i);
      for j := 0 to |actions|
        invariant seen == AllActions(resources[..i]) + actions[..j]
        invariant Grouping(groups, seen)
      {
        groups := AddAction(groups, actions[j], seen);
        seen := seen + [actions[j]];
        assert actions[..j + 1] == actions[..j] + [actions[j]];
      }
      assert actions[..|actions|] == actions;
    }
    assert resources[..|resources|] == resources;
  }

  /** The names of the groups, collected from the map and sorted. */
  method SortedKeys(groups: map<string, seq<Action>>) returns (keys: seq<string>)
    ensures keys == SortedSet(groups.Keys)
  {
    var names := MapKeys(groups);
    keys := SortStrings(names);
    SortStringsSorted(names);
    SortedSetSorted(groups.Keys);
    SortedUnique(keys, SortedSet(groups.Keys));
  }

  lemma EmitStep(groups: map<string, seq<Action>>, seen: seq<Action>, keys: seq<string>, k: nat)
    requires forall n :: n in groups ==> groups[n] == Named(seen, n)
    requires (forall n :: n in keys ==> n in groups) && k < |keys|
    ensures keys[k] in groups
    ensures Groups(seen, keys[..k + 1]) == Groups(seen, keys[..k]) + groups[keys[k]]
  {
    assert keys[k] in keys;
    var ks := keys[..k + 1];
    assert ks[..|ks| - 1] == keys[..k] && ks[|ks| - 1] == keys[k];
    assert Groups(seen, ks) == Groups(seen, keys[..k]) + Named(seen, keys[k]);
  }

  /** The second loop of generateJS: the groups by ascending name. */
  method EmitGroups(groups: map<string, seq<Action>>, ghost seen: seq<Action>) returns (r: seq<Action>)
    requires Grouping(groups, seen)
    ensures r == EmitOrder(seen)
  {
    var keys := SortedKeys(groups);
    assert forall n :: n in keys ==> n in groups;
    r := [];
    for k := 0 to |keys|
      invariant r == Groups(seen, keys[..k])
    {
      EmitStep(groups, seen, keys, k);
      r := r + groups[keys[k]];
    }
    assert keys[..|keys|] == keys;
  }

  /**
   * The action loop of generateJS: groups the actions by name over all
   * resources, sorts the names, and emits each group in turn.
   */
  method EmitActions(resources: seq<Resource>) returns (r: seq<Action>)
    ensures r == EmitOrder(AllActions(resources))
  {
    var groups, seen := GroupByName(resources);
    r := EmitGroups(groups, seen);
  }

  // ---------------------------------------------------------------------
  // generateFlowTypes
  // ---------------------------------------------------------------------

  /** A type gets a Flow definition when it is an object or an array. */
  predicate HasFlowType(t: DataType) {
    IsObject(t) || IsArray(t)
  }

  /** The media types written after the error media type: not errors, and with a Flow type. */
  function FlowMediaTypes(mts: seq<DataType>): (r: seq<DataType>)
    ensures forall t :: t in r <==> t in mts && !IsErrorMedia(t) && HasFlowType(t)
  {
    if mts == [] then []
    else
      var t := mts[|mts| - 1];
      FlowMediaTypes(mts[..|mts| - 1]) + (if !IsErrorMedia(t) && HasFlowType(t) then [t] else [])
  }

  function FlowUserTypes(uts: seq<DataType>): (r: seq<DataType>)
    ensures forall t :: t in r <==> t in uts && HasFlowType(t)
  {
    if uts == [] then []
    else
      var t := uts[|uts| - 1];
      FlowUserTypes(uts[..|uts| - 1]) + (if HasFlowType(t) then [t] else [])
  }

  lemma FlowMediaTypesSnoc(mts: seq<DataType>, i: nat)
    requires i < |mts|
    ensures FlowMediaTypes(mts[..i + 1])
      == FlowMediaTypes(mts[..i]) + (if !IsErrorMedia(mts[i]) && HasFlowType(mts[i]) then [mts[i]] else [])
  {
    assert mts[..i + 1][..i] == mts[..i];
  }

  lemma FlowUserTypesSnoc(uts: seq<DataType>, i: nat)
    requires i < |uts|
    ensures FlowUserTypes(uts[..i + 1]) == FlowUserTypes(uts[..i]) + (if HasFlowType(uts[i]) then [uts[i]] else [])
  {
    assert uts[..i + 1][..i] == uts[..i];
  }

  /**
   * generateFlowTypes: the types handed to the media type and user type
   * writers, in order: the error media type first, then the qualifying
   * media types, then the qualifying user types.
   */
  method FlowTypes(errorMedia: DataType, api: Api) returns (written: seq<DataType>)
    ensures written == [errorMedia] + FlowMediaTypes(api.mediaTypes) + FlowUserTypes(api.userTypes)
  {
    written := [errorMedia];
    var mts := api.mediaTypes;
    for i := 0 to |mts|
      invariant written == [errorMedia] + FlowMediaTypes(mts[..i])
    {
      ghost var before := FlowMediaTypes(mts[..i]);
      FlowMediaTypesSnoc(mts, i);
      if IsErrorMedia(mts[i]) {
        assert before + [] == before;
        continue;
      }
      if HasFlowType(mts[i]) {
        AppendAssoc([errorMedia], before, [mts[i]]);
        written := written + [mts[i]];
      } else {
        assert before + [] == before;
      }
    }
    assert mts[..|mts|] == mts;
    ghost var head := written;
    var uts := api.userTypes;
    for i := 0 to |uts|
      invariant written == head + FlowUserTypes(uts[..i])
    {
      ghost var before := FlowUserTypes(uts[..i]);
      FlowUserTypesSnoc(uts, i);
      if HasFlowType(uts[i]) {
        AppendAssoc(head, before, [uts[i]]);
        written := written + [uts[i]];
      } else {
        assert before + [] == before;
      }
    }
    assert uts[..|uts|] == uts;
  }
}
