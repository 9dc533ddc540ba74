# goa JavaScript client generator and client, modelled in Dafny

This project models three parts of goa's JavaScript client support.

- The generated JavaScript client (`js/client.js`). It covers:
  - how an error response is classified into an `ApiError`;
  - the timeout race in which the request and a timer each try to settle one promise;
  - the `Client` class: its defaults, its auth header, and the `request` pipeline (mergeDeepRight, body rewrite, Object.assign of the auth header, URL);
  - the action methods and the path builders emitted for every endpoint.
- The type-mapping helpers of the `jsgen` package (`goagen/jsgen/types.go`):
  - Go/goa design types rendered as Flow type names, definitions and descriptions;
  - identifiers converted to JavaScript camel case (`Jsify`);
  - the indenting buffer and the temporary-name counter;
  - the transform functions that pair the fields of two user types.
- The generator driver (`goagen/gen_js/generator.go`):
  - how settings are resolved;
  - the timeout passed to the module template;
  - the order in which actions are emitted;
  - the `params`, `pathParams` and `jspath` template helpers;
  - which media and user types get Flow declarations.

## Dafny layout

- **`Wrappers`** (`wrappers.dfy`): `Option` and `Result`.
- **`Text`** (`text.dfy`): character classes, `Upper`/`Lower`, `ReplaceAll` (Go's `strings.Replace` with `n = -1`), `Join`/`Split`, byte-wise string order, sorting, and decimal printing.
- **`Design`** (`design.dfy`): the goa design types the generator reads.
  - Types are primitives, arrays, hashes, objects, user types and media types.
  - An attribute is a type plus a description and metadata.
  - Actions, routes and resources.
- **`Identifiers`** (`identifiers.dfy`): `Jsify` as a loop over a rune buffer (`Identifiers.Jsify`), proved equal to the word-splitting definition `Jsified`.
- **`JsTypes`** (`jstypes.dfy`):
  - `JsNativeType`, `JsTypeName`, `JsTypeRef`, `JsTypeDef`, `JsTypeDesc` and `JsifyAtt`;
  - the `Buffer` class (a `bytes.Buffer` of generated text);
  - the `TempCounter` class behind `Tempvar`.
- **`Transform`** (`transform.dfy`): `JsTypeTransform` and the mutually recursive attribute transforms. Each makes its check, then runs the nested transforms its template calls; an error there is a panic, as `RunTemplate` makes it. A success returns the template data the Go code would render. The predicate `Renders(source, target, everyPairing)` states when the whole nest yields code: the kinds agree, arrays and hashes exist on both sides with keys and elements that render, both sides' transform keys are usable, and the fields paired by key render. Fields of one side that share a key are paired in map order, so `Renders` is stated for every pairing and for some pairing.
- **`GenJs`** (`generator.dfy`):
  - the `Generator` class and its `Generate` method;
  - the template helpers;
  - action grouping and ordering;
  - Flow type selection.
- **`Js`** (`js.dfy`): the JavaScript values the client handles, and the language and library operations it uses: truthiness, `String(v)`, property reads, `Object.assign` and ramda's `mergeDeepRight`.
- **`Client`** (`client.dfy`):
  - the error classifier;
  - the settle-once race, a `TimeoutPromise` class with a `Deliver` method over a sequence of events;
  - the `Client` class with `Request` and `CallAction`;
  - the endpoint catalog with its path builders.

## Where the model follows the code rather than the prose description

- **The timer is never cleared.** `timeoutPromise` does not clear its timer. The `TimeoutPromise` model therefore lets `TimerFired` arrive after the request settled, and it is ignored (`Client.SettleOnce`).
- **`_resp` is undefined on a timeout.** The timeout error's `_resp` is the argument `setTimeout` passes to its callback, which is undefined. It is not the transport's response (`Client.TimeoutError`).
- **The unknown-error object has no `_resp`.** `getResponseError` returns `{error: 'unknown_error'}` with no `_resp` for a status it does not know.
- **The status key comes from `String(resp.code)`.** A code such as `"toString"` finds an inherited property. Such a response is classified as a known error whose `error` is a built-in function (`Client.StatusLookup`).
- **A network error is never classified as such.** `Error.Network` is defined but never produced (`Client.ResponseError` ensures it).
- **The body goes onto the caller's config.** When `config.data` is truthy, `request` writes `body` onto the caller's `config`, not onto the merged `cfg` it passes to `fetch` (see Findings).

## Model

| member | source | states |
|---|---|---|
| Client.StatusTablesInverse | js/client.js:10-24 | The status-to-error table and the error-to-status table are inverse bijections. `network_error` and `unknown_error` have no status. |
| Client.ResponseError | js/client.js:26-38 | An error object exists iff the response is not undefined or null (reading `resp.code` otherwise throws). `_resp` is present iff the error is not the unknown error, and it is then the response itself. The error is never `network_error`. |
| Client.ResponseErrorKinds | js/client.js:19-38 | A tabled status yields that table's error with `_resp`. The unknown error is returned iff the status key is neither tabled nor inherited. A known error maps back to its status through the inverse table. |
| Client.NumericCode | js/client.js:19-27 | A numeric code `n` is classified like its decimal string. |
| Client.NumericStatusErrors | js/client.js:19-27 | The numeric codes 401, 408, 500 and 503 find `invalid_credentials`, `timeout_error`, `internal_error` and `service_unavailable_error`. |
| Client.Outcome | js/client.js:40-48 | An event leaves the promise pending only when it is a rejection whose classification throws. A timer firing rejects with the timeout error. |
| Client.TimeoutPromise.constructor | js/client.js:40-41 | A new race promise is pending and remembers its delay. |
| Client.TimeoutPromise.Deliver | js/client.js:42-46 | Each event moves the promise by the settle-once step. |
| Client.RunSettled | js/client.js:40-48 | Once settled, no later event changes the promise. |
| Client.RunAppend | js/client.js:40-48 | Delivering `es` then `more` equals delivering `es + more`. |
| Client.SettleOnce | js/client.js:40-48 | Events after the first settlement are ignored. |
| Client.RunFirst | js/client.js:40-48 | The first event whose outcome is not pending decides the promise. If every event is pending, the promise stays pending. |
| Client.TimerSettles | js/client.js:43-45 | Once the timer fires, the promise is settled. |
| Client.BothOrders | js/client.js:42-46 | A response before the timer wins. The timer before a response rejects with the timeout error. |
| Client.UrlPrefixDefaults | js/client.js:69-73 | With falsy scheme and host, the prefix is `http://localhost:9099`. |
| Client.UrlPrefixScheme | js/client.js:73 | The scheme is read back from the prefix as the text before the first colon. |
| Client.Client.constructor | js/client.js:62-77 | Every field is its argument or its default when the argument is falsy, and `urlPrefix` is `scheme://host`. |
| Client.Client.SetAuthHeader | js/client.js:79-81 | The auth header is replaced and nothing else changes. |
| Client.Client.ResetAuthHeader | js/client.js:83-85 | The auth header becomes null and nothing else changes. |
| Client.MergedConfig | js/client.js:88-96 | The merged config always has `timeout` and `headers`, and its keys are those of the base config and the caller's config. |
| Client.MergedConfigKeys | js/client.js:88-96 | A caller's key wins unless both sides hold objects. A base key the caller lacks keeps its value. |
| Client.WithAuth | js/client.js:102-104 | With a falsy auth header the config is unchanged. Otherwise only `headers` may change. |
| Client.RequestCall | js/client.js:87-113 | The URL is prefix plus path. The race delay is the merged config's `timeout`. The call throws iff assigning the auth header throws. |
| Client.BodyRewrite | js/client.js:97-100 | A config without truthy `data` is unchanged. Otherwise `body` becomes the stringified data, `data` becomes undefined, and every other key is kept. |
| Client.Config.constructor | js/client.js:129-132 | A config object holds exactly the given properties. |
| Client.Client.Request | js/client.js:87-113 | Returns the call determined by the client's fields and the caller's config as it was before the call, and rewrites the caller's config in place. |
| Client.Client.CallAction | js/client.js:128-138 | An action method calls `request` with `{method, data}` over which the caller's config has been assigned. |
| Client.RequestWithoutConfig | js/client.js:88-106 | Without a config or auth header, fetch receives the base config and the delay is the client's timeout. |
| Client.RequestHeaders | js/client.js:88-105 | The headers sent are the JSON defaults, then the caller's headers, then the auth header's properties, each overriding the previous. |
| Client.MergedHeaders | js/client.js:88-97 | Caller headers that are a plain object are merged key by key over the two JSON defaults, caller values winning. |
| Client.RequestHeadersThrow | js/client.js:96-105 | A caller whose `headers` is null or undefined, combined with an auth header, makes `request` throw. |
| Client.RequestTimeout | js/client.js:96-112 | A caller-supplied `timeout` is the delay of the race. |
| Client.RequestSendsNoBody | js/client.js:96-101 | As written, the config sent to fetch keeps `data` and has no `body`. |
| Client.RequestReusedConfig | js/client.js:96-101 | Passing the same config again sends the body from the earlier call, with `data` undefined. |
| Client.FixedRequestCall | js/client.js:87-113 | The corrected pipeline has the same URL and fails in the same cases. |
| Client.FixedRequestSendsBody | js/client.js:96-101 | With the correction, fetch receives the stringified data as `body` and no `data`. |
| Client.FixedRequestWithoutData | js/client.js:96-101 | Without truthy `data`, the corrected pipeline equals the original. |
| Client.QueryNotSent | js/client.js:305-318 | As written, an index action's query arguments never reach the URL: with a `?`-free prefix and path, the URL has no `?`. |
| Client.QueryActionCall | js/client.js:305-318 | The corrected index call sends the same config and fails in the same cases as the call as written. Its URL is the URL as written followed by `?` and the serialised query. |
| Client.QueryActionCallReadBack | js/client.js:305-318 | In the corrected call, the URL's first `?` ends the as-written URL, and what follows it is exactly the serialised query. |
| Client.ActionProps | js/client.js:128-138 | The caller's own properties win. `method` is the verb and `data` is the payload unless the caller overrides them. No other keys appear. |
| Client.Segments | js/client.js:671-673 | One segment per piece. Fixed pieces are their words, and the id pieces read back as `String(id)` of the arguments in order. |
| Client.SegmentsSlashFree | js/client.js:671-673 | With slash-free words and ids, no segment contains a slash. |
| Client.PathReadBack | js/client.js:671-673 | Splitting a built path on `/` gives the empty string and then the segments, so the ids read back. |
| Client.PathNotEscaped | js/client.js:671-673 | An id containing `/` is not escaped and adds a path segment. |
| Client.CatalogShapes | js/client.js:118-1041 | No `get` action sends a payload, and every `patch` action sends one. A `post` may go without one (`loginAuth`). |
| Js.OwnProperties | js/client.js:96 | A plain object's own properties are its fields. A string or array contributes one index property per element. Other values contribute none. |
| Js.IndexProperties | js/client.js:96 | The keys are exactly the decimal indices, each bound to its element. |
| Js.Assign | js/client.js:102-104 | Throws on an undefined or null target. A plain object takes the source's own properties. A string target throws iff a read-only index or `length` would be written. |
| Js.MergeDeepRight | js/client.js:96 | The result is a plain object whose keys are the union of both arguments' own keys. |
| Js.MergeValuesKeys | js/client.js:96 | Key by key: right wins unless both are objects (which merge), and left-only keys are kept. |
| Js.MergeValuesIdempotent | js/client.js:96 | Merging a value with itself returns it. |
| Js.MergeDeepRightAbsorbs | js/client.js:96 | Merging the same right side again changes nothing. |
| Identifiers.Jsify | goagen/jsgen/types.go:347-414 | The in-place rune loop computes exactly `Jsified`. |
| Identifiers.CamelCase | goagen/jsgen/types.go:358-411 | The word loop equals casing the words and joining them, with common initialisms in upper case. |
| Identifiers.RemoveTrailingInvalid | goagen/jsgen/types.go:314-320 | Drops exactly the trailing invalid runes. |
| Identifiers.TrimTrailingIsPrefix | goagen/jsgen/types.go:314-320 | The result is a prefix, only invalid runes were dropped, and the valid runes are unchanged. |
| Identifiers.RemoveInvalidAtIndex | goagen/jsgen/types.go:323-329 | The prefix before `i` is kept and the invalid runes at `i` are dropped. |
| Identifiers.CaseWordInPlace | goagen/jsgen/types.go:389-408 | Only the word's runes change, and they are cased as initialism, capitalised or lowered. |
| Identifiers.InitialismUpper | goagen/jsgen/types.go:390 | A word counts as an initialism exactly when its upper-case form is one of the common initialisms; the model tests this rune by rune. |
| Identifiers.JsifiedKeepsLetters | goagen/jsgen/types.go:347-414 | Apart from the numeric aliases, the result is the input's valid runes with only their case changed, and every rune is a valid identifier rune. |
| Identifiers.JsifiedNumeric | goagen/jsgen/types.go:348-351 | Numeric Go type names become `number`. |
| Identifiers.JsifiedLowerCamel | goagen/jsgen/types.go:347-414 | With `firstUpper` false, the result never starts with a capital. |
| Identifiers.WordsLowerLed | goagen/jsgen/types.go:358-388 | A word split out that starts with a lower-case letter is lower case throughout, because a word ends where a lower-case rune meets one that is not. |
| Identifiers.CaseWordCapital | goagen/jsgen/types.go:389-408 | A cased word that starts with a letter starts upper case, except as the first word of a lower-camel identifier. |
| Identifiers.CasedJoinWordStart | goagen/jsgen/types.go:389-411 | The rune where word k starts in the joined identifier is that word's first rune as cased for its position. |
| Identifiers.JsifiedWordsCapitalised | goagen/jsgen/types.go:347-414 | Every word after the first starts upper case when it starts with a letter, and so does the first word in upper camel case. |
| Identifiers.JsifiedUpperCamel | goagen/jsgen/types.go:347-414 | With `firstUpper` true, a result that starts with a letter starts with a capital. |
| Identifiers.JsifiedIdentifier | goagen/jsgen/types.go:347-414 | A Go numeric name gives `number`. Any other input gives letters and digits spelling the input's own up to case, with the camel-case rule on the first rune for both settings of `firstUpper`. |
| Identifiers.JsifiedUserId | goagen/jsgen/types.go:389-408 | `user_id` becomes `userID`. |
| Identifiers.WordsConcat | goagen/jsgen/types.go:358-388 | The words split out concatenate back to the input's valid runes. |
| JsTypes.JsNativeTypeShape | goagen/jsgen/types.go:201-235 | Objects render as `Object`, arrays as `Array<…>` and hashes as `{[…]}`. Primitives render as built-in Flow names, in both directions. |
| JsTypes.JsNativeTypePrimitives | goagen/jsgen/types.go:201-219 | The primitive mapping: boolean, number (also for integers and UUIDs), string (also for date-time), and any. |
| JsTypes.JsNativeTypeUnderlying | goagen/jsgen/types.go:201-235 | A user or media type renders as its underlying type. |
| JsTypes.JsTypeNameObject | goagen/jsgen/types.go:169-198 | An inline object's name is its full type definition. |
| JsTypes.JsTypeDefOverride | goagen/jsgen/types.go:86-113 | The struct-field-type metadata overrides the generated definition. |
| JsTypes.JsTypeRefStar | goagen/jsgen/types.go:150-161 | Object references are pointers (`*` prefix) and others are the plain name. |
| JsTypes.JsTypeDescDescription | goagen/jsgen/types.go:239-269 | A named type's description reads back from its comment lines. |
| JsTypes.JsTypeDescUnnamed | goagen/jsgen/types.go:239-269 | Unnamed types have no description. |
| JsTypes.TypeName | goagen/jsgen/types.go:629-636 | A user or media type gives an identifier spelling its name's letters and digits up to case, with only letters and digits, starting upper case when it starts with a letter (`number` for a Go numeric name). Any other type gives the empty string. |
| JsTypes.JsifyAtt | goagen/jsgen/types.go:333-340 | The identifier spells, up to case, the letters and digits of the struct-field-name metadata when present, else of the name. It has only letters and digits, and its first rune is upper case in upper camel case (when a letter) and never upper case in lower camel case. |
| JsTypes.Buffer.WriteTabs | goagen/jsgen/types.go:475-479 | Appends two spaces per tab, and nothing for a negative count. |
| JsTypes.WriteFields | goagen/jsgen/types.go:116-141 | Writing the fields in order appends exactly their field lines. |
| JsTypes.GoTypeDefObject | goagen/jsgen/types.go:116-141 | The buffer-built object definition equals the declarative `ObjectDef`. |
| JsTypes.MapKeys | goagen/jsgen/types.go:118-124 | The collected keys are a permutation of the map's keys. |
| JsTypes.TempCounter.Tempvar | goagen/jsgen/types.go:482-485 | Increments the counter and returns the name for the new count. |
| JsTypes.TempNameInjective | goagen/jsgen/types.go:482-485 | Distinct counts give distinct temporary names. |
| Transform.KeyIndex | goagen/jsgen/types.go:587-617 | Succeeds iff every attribute is well formed. On success it indexes the attributes by their transform key. |
| Transform.ComputeMapping | goagen/jsgen/types.go:587-617 | Fails iff either side has an attribute without a usable key, reporting the source first. On success every pair links a source and a target attribute with the same key, no two pairs share a key, and every key found on both sides is paired once. |
| Transform.EveryPairingRenders | goagen/jsgen/types.go:587-617 | What renders however fields sharing a key are paired also renders for some pairing. |
| Transform.ArrayCheck | goagen/jsgen/types.go:546-559 | The check before the template: a missing array (Go's nil) panics, and elements of different kinds fail. Otherwise it yields the array template over both elements. |
| Transform.TransformArray | goagen/jsgen/types.go:653-657 | The outcome is ArrayCheck's, except that the template's transform of the element, one level deeper, may still fail and make RunTemplate (types.go:489-495) panic. It is Done whenever the elements render for every pairing, and only when they render for some pairing. |
| Transform.HashCheck | goagen/jsgen/types.go:562-579 | A missing hash panics. A kind mismatch of elements, or else of keys, fails with the matching error. |
| Transform.TransformHash | goagen/jsgen/types.go:659-667 | The outcome is HashCheck's, except that the template's transform of the keys and then of the elements may still fail and panic. It is Done whenever both render for every pairing, and only when both render for some pairing. |
| Transform.ObjectCheck | goagen/jsgen/types.go:515-544 | The check before the template never panics. A malformed side fails with a missing-key error. Otherwise a failure names a key-matched pair of different kinds, and success yields the object template over a mapping whose pairs agree in kind. It succeeds whenever the fields render for every pairing. |
| Transform.TransformObject | goagen/jsgen/types.go:643-651 | The check's errors, then the template transforms each pair and panics when one fails. It is Done whenever the fields render for every pairing, and only when they render for some pairing. |
| Transform.TransformFields | goagen/jsgen/types.go:644-651 | Either every pair of the mapping renders for some pairing, or one pair does not render for every pairing. |
| Transform.FirstMismatch | goagen/jsgen/types.go:523-530 | Either every paired field has the same kind on both sides, or the field returned is paired and its kinds differ. |
| Transform.TransformAttribute | goagen/jsgen/types.go:498-513 | A kind mismatch fails. Arrays and hashes end as their checks do, except for a panic in a nested transform. An object that succeeds carries the target's type name and a mapping. Any other kind is one assignment. It is Done whenever the types render for every pairing, and only when they render for some pairing. |
| Transform.JsTypeTransform | goagen/jsgen/types.go:426-465 | A container mismatch fails. Non-container user types panic. It is Done whenever the containers match and render for every pairing, and only when they match and render for some pairing. Success yields the function template under the given name. |
| Transform.NestedMismatchPanics | goagen/jsgen/types.go:643-657 | Objects whose one field is an array on both sides, with elements of different kinds (say `tags`, strings against integers), return no error, and the transform panics. |
| Transform.TargetRefQualified | goagen/jsgen/types.go:451-454 | An object target in another package is referenced as `*pkg.Name`. |
| Transform.ContainersPresent | goagen/jsgen/types.go:546-580 | Array and hash views exist exactly for array and hash types. |
| GenJs.Generator.constructor | goagen/gen_js/generator.go:31-39 | A generator holds the given API and settings. |
| GenJs.Generator.Generate | goagen/gen_js/generator.go:72-117 | Fails without an API, and without a host after defaults. Otherwise it resolves the scheme and host and passes the timeout in milliseconds. |
| GenJs.Resolve | goagen/gen_js/generator.go:85-99 | Explicit settings are kept and the zero ones take their defaults. |
| GenJs.ResolveIdempotent | goagen/gen_js/generator.go:85-99 | Resolving twice is resolving once. |
| GenJs.ResolveScheme | goagen/gen_js/generator.go:88-93 | An empty scheme takes the API's first scheme, else `http`. |
| GenJs.TimeoutMillis | goagen/gen_js/generator.go:279 | Duration to milliseconds truncates toward zero. |
| GenJs.TimeoutMillisExact | goagen/gen_js/generator.go:279 | A whole number of milliseconds converts back exactly. |
| GenJs.DefaultTimeoutMillis | goagen/gen_js/generator.go:85-87 | The default timeout is 20000 ms. |
| GenJs.ActionParams | goagen/gen_js/generator.go:340-352 | None iff there are no query parameters. Otherwise there is one sorted entry per parameter. |
| GenJs.ActionParamsEntries | goagen/gen_js/generator.go:340-352 | The entries are a permutation of `name: type` for each query parameter. |
| GenJs.Params | goagen/gen_js/generator.go:340-352 | The loop builds exactly `ActionParams`. |
| GenJs.ParamEntriesPermutation | goagen/gen_js/generator.go:344-350 | The entries do not depend on map iteration order, up to permutation. |
| GenJs.PathParams | goagen/gen_js/generator.go:354-364 | The loop builds exactly `PathParamList`. |
| GenJs.PathParamListReadBack | goagen/gen_js/generator.go:354-364 | Splitting the list on `, ` gives one `name: number\|string` entry per route parameter. |
| GenJs.JsPath | goagen/gen_js/generator.go:366-378 | Empty without routes. Otherwise it is the quoted full path with each `:param` replaced in order. |
| GenJs.JsPathPrefixClash | goagen/gen_js/generator.go:366-378 | As written, a parameter that is a prefix of a later one corrupts it. In the other order the path is right. |
| GenJs.JsPathFixedPrefixClash | goagen/gen_js/generator.go:366-378 | On the clashing route `/a/:p/:pt`, whole-name substitution splices both parameters correctly in any order. |
| GenJs.MarkerReplacedWhole | goagen/gen_js/generator.go:366-378 | In the corrected scan, a parameter's marker is replaced by its own splice, whatever other parameters share its prefix. |
| GenJs.SpliceMarkersNone | goagen/gen_js/generator.go:366-378 | With no parameter to splice, the corrected scan returns the path unchanged. |
| GenJs.ReplaceStep | goagen/gen_js/generator.go:373-375 | One replacement of `:p` splices exactly the markers named `p`, provided `p` starts no other marker's name. |
| GenJs.SubstitutedSplices | goagen/gen_js/generator.go:372-376 | The loop of replacements splices the markers of every listed parameter. |
| GenJs.JsPathAgrees | goagen/gen_js/generator.go:366-378 | Suppose every `:` of the route path starts the marker of a route parameter, and no parameter name starts another. Then `jspath` as written equals the corrected path, whatever order the parameters come in. |
| GenJs.GroupByName | goagen/gen_js/generator.go:284-294 | The map built holds, per action name, that name's actions in resource order. |
| GenJs.EmitActions | goagen/gen_js/generator.go:284-314 | The emitted sequence is the grouped-then-sorted order of all actions. |
| GenJs.EmitOrderPermutation | goagen/gen_js/generator.go:284-314 | Every action is emitted exactly once. |
| GenJs.EmitOrderAscending | goagen/gen_js/generator.go:296-300 | Action names are emitted in ascending order. |
| GenJs.EmitOrderStable | goagen/gen_js/generator.go:284-314 | Actions with the same name keep their resource order. |
| GenJs.FlowMediaTypes | goagen/gen_js/generator.go:219-265 | The media types declared are exactly the non-error ones with a Flow type. |
| GenJs.FlowUserTypes | goagen/gen_js/generator.go:219-265 | The user types declared are exactly those with a Flow type. |
| GenJs.FlowTypes | goagen/gen_js/generator.go:219-265 | Writes the error media type, then the media types, then the user types. |

## Left out

- `autobind` (js/client.js:50-60) rebinds methods to the instance. It has no observable effect on values in this model and is not modelled.
- `tron.log` (js/client.js:95): `tron` is neither defined nor imported in js/client.js. The model assumes a global `tron` whose `log` returns normally. If that global is missing, every `request` throws a ReferenceError before the merge, and the model does not capture this.
- `fetch` and Promise scheduling: the network is an event parameter (`Client.Event`), and the microtask ordering of `then`/`catch` is not modelled.
- `JSON.stringify` is a parameter of `Request`. Its throwing, and its returning undefined for some values, are not modelled.
- JavaScript numbers are modelled as integers. Floating point, NaN and -0 are not modelled.
- Objects with their own `toString`/`valueOf`, getters and setters, and prototype chains other than Object.prototype are not modelled.
- Js.Assign: onto an array or function target the value is returned unchanged, although JavaScript would add properties to it.
- Client.Client.Request: a `config` that is not a plain object is not modelled (`Config` holds a property map).
- Aliasing between the caller's nested objects and the merged config is not modelled: values are immutable.
- Client.CallAction: the query-string parameters are accepted and ignored, as in the source (see Findings).
- The per-action path builders are modelled once, as `BuildPath` over the endpoint catalog `Client.Catalog`, not as 37 separate functions.
- Client.CatalogShapes states only each endpoint's verb and whether it sends a payload. Its path words are not restated, to keep the proof small.
- Identifiers.Jsify works on ASCII. Go's `unicode.IsLetter` and `unicode.IsDigit` accept non-ASCII letters and digits. The model counts those as invalid and deletes them: `café` gives `caf` in the model, but `café` in Go.
- Go map iteration order is not modelled. Where the source iterates a map, the model takes an arbitrary order and proves the result up to permutation or after sorting.
- Template text is not rendered: `moduleT`, `jsFuncsT` and the transform templates yield the data they receive. The nested transforms the transform templates call, and `RunTemplate`'s panic when one fails, are modelled.
- The object template renders `new(...)` for a target without a type name (an inline object field) through `jstyperef .Target.Type`, where `.Target` is the field map. How Go's template engine evaluates that is not modelled; the model treats it as rendering.
- Transform.TransformObject: when two fields of one side share a transform key, which one Go pairs depends on map order. The contract bounds the outcome between "renders for every pairing" (then Done) and "renders for some pairing" (needed for Done) rather than naming the pair Go picks. With unique keys there is only one pairing.
- Transform.TransformAttribute: the same bound as TransformObject, for the objects nested in the attribute.
- Transform.JsTypeTransform: the same bound as TransformObject, for the objects nested in the types.
- File creation and writing are not modelled: `NewMediaTypesWriter`, `NewUserTypesWriter`, `SourceFileFor`, `Cleanup`, and the output directory.
- The package-level `Generate`, which parses flags and checks the goa version, is not modelled.
- The design package's own code (`FullPath`, `Params`, `IterateResources`, `ToObject`, validations) is not part of this model. Its results are fields of the `Design` datatypes.
- The `File` primitive kind is not modelled.
- JsTypes.TempCounter.Tempvar: the counter is unbounded. The 64-bit wrap-around of `TempCount` is not modelled, since it needs 2^63 calls.
- The `init` registration of transform templates (types.go:51-77) and `toSlice` are template plumbing and are not modelled.
- The Flow type declarations at the end of js/client.js are type annotations only. They have no run-time behaviour and are not modelled.

## Findings

| source | as written | input that shows it | evidently intended | confidence | as-written member | corrected member |
|---|---|---|---|---|---|---|
| goagen/gen_js/generator.go:366-378 | `jspath` replaces `":" + p` everywhere for each parameter in turn, so a parameter that is a prefix of a later one also matches inside it. | Route `/a/:id/:idx` with parameters `["id", "idx"]`: the second placeholder becomes `'+id+'x`. | Every `:param` is replaced by its own jsified name, as a whole name. | not executed | GenJs.JsPathPrefixClash | GenJs.JsPathFixedPrefixClash |
| js/client.js:96-101 | `request` writes `body` and clears `data` on the caller's `config`, after it has already merged `config` into `cfg`, and it passes `cfg` to `fetch`. | `request('/x', {data: {name: 'x'}})`: fetch receives `data` and no `body`. | The merged config sent to fetch carries the JSON body and no `data`. | not executed | Client.RequestSendsNoBody | Client.FixedRequestSendsBody |
| js/client.js:305-318 | The comment on every index action says its query arguments (`limit`, `name`, `offset`, `view`, …) build the request query string. The body builds `{method: 'get'}` and never reads them. | `indexAircraft('/aircrafts', 10, 'x', 0, 'default')` requests `/aircrafts` with no query string. | The query arguments are serialised after `?` in the path, as generator.go:421 does for the generator's current template. | not executed | Client.Client.CallAction | Client.QueryActionCallReadBack |
