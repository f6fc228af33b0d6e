# A verified model of the adapter framework's JSON alignment, XML validator bookkeeping and HTTP sender logic

This Dafny project models five classes of the Java adapter framework (`nl.nn.adapterframework`) and proves what they promise:

- **Json2Xml** (`Json2XmlAlign`): the hooks that steer the schema-guided walk over a JSON tree.
  - Root resolution: exactly one top-level name, and the shape of the "too many names" message.
  - Leaf text, with `{}` read as empty.
  - Which input values are occurrences of a schema child: an array kept whole as a container, or unwrapped.
  - `processArray`, which moves names between the unprocessed and processed child sets.

  The JSON input is a closed `Json.Node` datatype. The calls into the `Tree2Xml` superclass are recorded in a ghost event log.
- **The core `AbstractXmlValidator`** (`CoreValidation`):
  - lazy initialisation;
  - clearing the failure-reason session keys before each validation;
  - the three-way classification of the outcome;
  - `handleFailures`, which stores the reasons and then throws or returns the event.

  The parser is an input value: the issues it reports and the exception it throws. `Validate` is proved to leave exactly this call's reasons under the reason key.
- **The legacy `AbstractXmlValidator`** (`UtilValidation`):
  - `init`, which checks and resolves the schema sources;
  - the setters that re-arm `needsInit`;
  - the default for `ignoreUnknownNamespaces`;
  - the single-leaf validations;
  - `MyErrorHandler`, which decides per callback whether to record a configuration warning, rethrow, request a retry or escalate.
- **`HttpSenderBase`** (`HttpSender`):
  - the `configure` guards;
  - `appendParameters`, proved against a step function and then stated declaratively: `?`/`&` separators, `name=value` pairs in order, header parameters routed to the header map, failure iff a value cannot be encoded;
  - the header-parameter tokenising;
  - the retry loop and what follows it;
  - `retrieveTymeout` with Java's truncating division;
  - `getMethodType` and `getProxyRealm`.
- **`HttpResponseHandler`** (`HttpResponse`):
  - the read-once content cache, keyed on `statusCode`;
  - the charset choice;
  - `getHeaderFields`. Its values are grouped under the lower-cased names in header order; no value is lost or duplicated.

`ValidationSupport` holds what both validators share: the pipeline session, the reason-collecting error handler and `handleFailures`. `Wrappers`, `Strings` and `Json` hold the library stand-ins.

A Java `null` String is modelled as `""` wherever the code only tests it with `StringUtils.isEmpty`/`isNotEmpty`. Elsewhere it is an `Option`.

## Model

| member | source | states |
|---|---|---|
| Json.Opt | core/src/main/java/nl/nn/adapterframework/align/Json2Xml.java:144-145 | `opt` finds nothing iff the name is not a key; otherwise it finds a member stored under that name |
| Json.OptUnique | core/src/main/java/nl/nn/adapterframework/align/Json2Xml.java:144 | with unique keys, `opt(name)` is the value of the member holding `name` |
| Json2XmlAlign.BuildNamesList | core/src/main/java/nl/nn/adapterframework/align/Json2Xml.java:83-92 | the loop builds the first min(n,7) names joined by "," followed by ", ..." iff n ≥ 7 |
| Json2XmlAlign.NamesListTokens | core/src/main/java/nl/nn/adapterframework/align/Json2Xml.java:84-92 | splitting the message list at "," gives back exactly the listed names (and " ..." when cut off) |
| Json2XmlAlign.Json2Xml.StartParse | core/src/main/java/nl/nn/adapterframework/align/Json2Xml.java:77-100 | zero names: "no names found"; several: "too many names [list]"; both leave the state alone. One name: it becomes the root element and only its value goes to the superclass |
| Json2XmlAlign.GetText | core/src/main/java/nl/nn/adapterframework/align/Json2Xml.java:104-116 | the text is the node's string form or empty |
| Json2XmlAlign.GetTextEmpty | core/src/main/java/nl/nn/adapterframework/align/Json2Xml.java:104-116 | the text is empty iff the node is the string "", the string "{}" or the empty object |
| Json2XmlAlign.Json2Xml.GetChildrenByName | core/src/main/java/nl/nn/adapterframework/align/Json2Xml.java:119-179 | the imperative method returns exactly `ChildrenByName`: LinkedList rejected under strict syntax, else returned; array elements under container insertion; null for non-objects and absent names; array child kept whole or unwrapped; other child as a singleton |
| Json2XmlAlign.Json2Xml.CopyElements | core/src/main/java/nl/nn/adapterframework/align/Json2Xml.java:131-137 | the index loop copies the array's elements, in order and of the same count |
| Json2XmlAlign.ChildrenOfObjectReassemble | core/src/main/java/nl/nn/adapterframework/align/Json2Xml.java:143-175 | for an object, occurrences exist iff the name is a key. They are the child as one occurrence, or exactly the elements of the array child |
| Json2XmlAlign.ArrayChildKeptWhole | core/src/main/java/nl/nn/adapterframework/align/Json2Xml.java:156-171 | an array child is returned whole iff (insert or not strict) and the name is not multiply occurring; it is unwrapped iff not |
| Json2XmlAlign.Json2Xml.GetAllChildNames | core/src/main/java/nl/nn/adapterframework/align/Json2Xml.java:182-209 | the method returns `AllChildNames`: the multiple-occurring set for an array under the heuristics, an object's key set (empty for no names), null otherwise |
| Json2XmlAlign.AllChildNamesHaveChildren | core/src/main/java/nl/nn/adapterframework/align/Json2Xml.java:129-200 | with container insertion, every name reported for an object or a parent array has occurrences |
| Json2XmlAlign.LenientArrayNamesWithoutChildren | core/src/main/java/nl/nn/adapterframework/align/Json2Xml.java:129-188 | lenient without insertion, a parent array reports the repeating names but yields no occurrences for them |
| Json2XmlAlign.Json2Xml.HandleNodeHook | core/src/main/java/nl/nn/adapterframework/align/Json2Xml.java:232 | a `handleNode` call is recorded in order |
| Json2XmlAlign.Json2Xml.ProcessArray | core/src/main/java/nl/nn/adapterframework/align/Json2Xml.java:213-271 | every branch is covered. Strict without insertion delegates. With nothing unprocessed, the child name is added for an array, then it delegates. With an array, each element is handled once in order, and the name moves from unprocessed to processed. An object lacking the child is handled once, unprocessed is cleared and the parent name marked processed; an object holding the child passes the compacted list. Other nodes: ClassCastException. Disjointness of the two sets is kept, given that the `Tree2Xml` hooks leave the sets alone (see Left out) |
| Json2XmlAlign.Json2Xml.constructor | core/src/main/java/nl/nn/adapterframework/align/Json2Xml.java:70-74 | the two flags are stored |
| ValidationSupport.ClearReasons | core/src/main/java/nl/nn/adapterframework/validation/AbstractXmlValidator.java:182-190 | exactly the configured (non-empty) reason keys are removed; every other entry is kept |
| ValidationSupport.StoreReasons | core/src/main/java/nl/nn/adapterframework/validation/AbstractXmlValidator.java:163-171 | flat reasons under the reason key and XML reasons under the XML key, each only if configured; nothing else changes |
| ValidationSupport.StoreAfterClearIsFresh | core/src/main/java/nl/nn/adapterframework/validation/AbstractXmlValidator.java:163-190 | after clearing and storing, the reason key holds this call's report |
| ValidationSupport.HandleFailures | core/src/main/java/nl/nn/adapterframework/validation/AbstractXmlValidator.java:154-177 | the throwable is added as a reason iff non-null and not a SAXParseException; the reports are stored; it throws with the full reasons iff throwException, else returns the event |
| CoreValidation.Classify | core/src/main/java/nl/nn/adapterframework/validation/AbstractXmlValidator.java:256-264 | parser error iff a throwable; not valid iff none but an error occurred; valid iff neither |
| CoreValidation.FinalResult | core/src/main/java/nl/nn/adapterframework/validation/AbstractXmlValidator.java:172-264 | it fails iff throwException and the outcome is not valid, with the full reasons and the cause; otherwise it returns the classified event |
| CoreValidation.AbstractXmlValidator.constructor | core/src/main/java/nl/nn/adapterframework/validation/AbstractXmlValidator.java:75-84 | the defaults: no throwing, keys "failureReason"/"xmlFailureReason", needsInit, lazyInit from the property |
| CoreValidation.AbstractXmlValidator.Configure | core/src/main/java/nl/nn/adapterframework/validation/AbstractXmlValidator.java:135-140 | the prefix is stored; needsInit is cleared iff initialisation is not lazy |
| CoreValidation.AbstractXmlValidator.Init | core/src/main/java/nl/nn/adapterframework/validation/AbstractXmlValidator.java:142-146 | leaves needsInit false (idempotent) |
| CoreValidation.AbstractXmlValidator.Reset | core/src/main/java/nl/nn/adapterframework/validation/AbstractXmlValidator.java:148-152 | leaves needsInit true (idempotent) |
| CoreValidation.AbstractXmlValidator.CreateValidationContext | core/src/main/java/nl/nn/adapterframework/validation/AbstractXmlValidator.java:179-192 | the session becomes `ClearReasons` of the old session |
| CoreValidation.AbstractXmlValidator.GetValidatingParser | core/src/main/java/nl/nn/adapterframework/validation/AbstractXmlValidator.java:200-206 | external entities are blocked iff they are not to be resolved (or already were) |
| CoreValidation.AbstractXmlValidator.HandleFailures | core/src/main/java/nl/nn/adapterframework/validation/AbstractXmlValidator.java:154-177 | as `ValidationSupport.HandleFailures` with this validator's keys and flag |
| CoreValidation.AbstractXmlValidator.FinalizeValidation | core/src/main/java/nl/nn/adapterframework/validation/AbstractXmlValidator.java:256-264 | the result is `FinalResult`. A valid outcome writes nothing; any other outcome goes through handleFailures |
| CoreValidation.AbstractXmlValidator.ValidateWith | core/src/main/java/nl/nn/adapterframework/validation/AbstractXmlValidator.java:227-245 | every reported issue reaches the error handler in order, and the parser's exception, or null, goes to finalisation |
| CoreValidation.AbstractXmlValidator.Validate | core/src/main/java/nl/nn/adapterframework/validation/AbstractXmlValidator.java:221-225 | with a fresh handler, the reason key is present afterwards iff the outcome is not valid, holding exactly this call's flat report; likewise the xml reason key holds this call's XML report iff the outcome is not valid; other keys are untouched |
| UtilValidation.InitRun | JavaSource/nl/nn/adapterframework/util/AbstractXmlValidator.java:149-177 | it rejects a session key combined with a location, an unfindable no-namespace schema and all-empty sources. Each failure carries its own message (conflict, not found, missing). It succeeds iff none of these applies after resolution, with the resolved locations |
| UtilValidation.InitSuccessNamesOneKindOfSchema | JavaSource/nl/nn/adapterframework/util/AbstractXmlValidator.java:151-174 | after success the schema is named either by session key or by location, never both or neither |
| UtilValidation.AbstractXmlValidator.constructor | JavaSource/nl/nn/adapterframework/util/AbstractXmlValidator.java:105-122 | the defaults: null schema sources, reason keys, needsInit, no single-leaf set, no explicit ignoreUnknownNamespaces |
| UtilValidation.AbstractXmlValidator.Init | JavaSource/nl/nn/adapterframework/util/AbstractXmlValidator.java:149-177 | it does nothing unless needsInit. Otherwise it runs `InitRun` with the prefixed message, and only success clears needsInit |
| UtilValidation.AbstractXmlValidator.Configure | JavaSource/nl/nn/adapterframework/util/AbstractXmlValidator.java:142-147 | it stores the prefix and runs init iff not lazy |
| UtilValidation.InitTwice | JavaSource/nl/nn/adapterframework/util/AbstractXmlValidator.java:149-150 | a second init after a successful one passes and changes nothing |
| UtilValidation.AbstractXmlValidator.SetFullSchemaChecking | JavaSource/nl/nn/adapterframework/util/AbstractXmlValidator.java:221-224 | sets the flag and re-arms needsInit |
| UtilValidation.AbstractXmlValidator.SetSchema | JavaSource/nl/nn/adapterframework/util/AbstractXmlValidator.java:239-242 | sets the no-namespace location and re-arms needsInit |
| UtilValidation.AbstractXmlValidator.SetSchemaLocation | JavaSource/nl/nn/adapterframework/util/AbstractXmlValidator.java:260-263 | sets the location and re-arms needsInit |
| UtilValidation.AbstractXmlValidator.SetNoNamespaceSchemaLocation | JavaSource/nl/nn/adapterframework/util/AbstractXmlValidator.java:272-275 | sets the location and re-arms needsInit |
| UtilValidation.AbstractXmlValidator.SetSchemaSessionKey | JavaSource/nl/nn/adapterframework/util/AbstractXmlValidator.java:283-285 | sets the key and leaves needsInit alone |
| UtilValidation.AbstractXmlValidator.SetSchemaSession | JavaSource/nl/nn/adapterframework/util/AbstractXmlValidator.java:293-299 | the deprecated setter sets the key and re-arms needsInit |
| UtilValidation.AbstractXmlValidator.SetRoot | JavaSource/nl/nn/adapterframework/util/AbstractXmlValidator.java:341-346 | the root is set and [root] is added to the single-leaf validations |
| UtilValidation.AbstractXmlValidator.AddSingleLeafValidation | JavaSource/nl/nn/adapterframework/util/AbstractXmlValidator.java:386-391 | the set is created on first use and gains the path |
| UtilValidation.AbstractXmlValidator.SetIgnoreUnknownNamespaces | JavaSource/nl/nn/adapterframework/util/AbstractXmlValidator.java:393-395 | the explicit setting is stored |
| UtilValidation.AbstractXmlValidator.GetIgnoreUnknownNamespaces | JavaSource/nl/nn/adapterframework/util/AbstractXmlValidator.java:397-407 | an explicit value wins; without one the result is true iff schemaLocation is empty |
| UtilValidation.AbstractXmlValidator.HandleFailures | JavaSource/nl/nn/adapterframework/util/AbstractXmlValidator.java:179-202 | as `ValidationSupport.HandleFailures` with this validator's keys and flag |
| UtilValidation.XmlXsdReferenceIsSchemaReference | JavaSource/nl/nn/adapterframework/util/AbstractXmlValidator.java:428-438 | a message with the xml.xsd prefix also has the general schema_reference.4 prefix |
| UtilValidation.MyErrorHandler.constructor | JavaSource/nl/nn/adapterframework/util/AbstractXmlValidator.java:421-422 | no retry exceptions, warnings on |
| UtilValidation.MyErrorHandler.OnWarning | JavaSource/nl/nn/adapterframework/util/AbstractXmlValidator.java:424-432 | never throws; records nothing iff warn is off or the message is the xml.xsd case, otherwise records the message |
| UtilValidation.MyErrorHandler.OnError | JavaSource/nl/nn/adapterframework/util/AbstractXmlValidator.java:434-447 | a schema_reference.4 message is rethrown; otherwise RetryException if configured; it throws nothing iff neither applies, and then records iff warn is on |
| UtilValidation.MyErrorHandler.OnFatalError | JavaSource/nl/nn/adapterframework/util/AbstractXmlValidator.java:449-454 | always throws an XNIException with the message, recording it first iff warn is on |
| UtilValidation.MyErrorHandler.Warning | JavaSource/nl/nn/adapterframework/util/AbstractXmlValidator.java:424-432 | appends to the configuration warnings what `OnWarning` records |
| UtilValidation.MyErrorHandler.Error | JavaSource/nl/nn/adapterframework/util/AbstractXmlValidator.java:434-447 | appends and throws as `OnError` says |
| UtilValidation.MyErrorHandler.FatalError | JavaSource/nl/nn/adapterframework/util/AbstractXmlValidator.java:449-454 | appends and throws as `OnFatalError` says |
| UtilValidation.MyErrorHandler.XmlXsdErrorIsRethrown | JavaSource/nl/nn/adapterframework/util/AbstractXmlValidator.java:424-441 | the xml.xsd case is silent as a warning but still rethrown as an error |
| HttpSender.FindParameter | akamai/src/main/java/nl/nn/adapterframework/http/HttpSenderBase.java:338 | it finds nothing iff no parameter has the name; otherwise it finds the parameter at some index i with that name, and no parameter before i has it |
| HttpSender.MethodViolation | akamai/src/main/java/nl/nn/adapterframework/http/HttpSenderBase.java:321-328 | it passes iff the method is POST or (paramsInUrl and no inputMessageParam). The paramsInUrl message applies iff the method is not POST and paramsInUrl is false |
| HttpSender.ResourceViolation | akamai/src/main/java/nl/nn/adapterframework/http/HttpSenderBase.java:342-349 | it passes iff maxConnections > 0 and (a url parameter was found or the url is non-empty); maxConnections ≤ 0 gives its own message |
| HttpSender.ConfigureViolation | akamai/src/main/java/nl/nn/adapterframework/http/HttpSenderBase.java:318-349 | configure passes iff all four guards hold; a failure carries one of the four messages |
| HttpSender.HttpSenderBase.constructor | akamai/src/main/java/nl/nn/adapterframework/http/HttpSenderBase.java:211-284 | the defaults: GET, paramsInUrl, 10 connections, url parameter "url", timeout 10000, one retry, nothing to skip |
| HttpSender.HttpSenderBase.GetMethodType | akamai/src/main/java/nl/nn/adapterframework/http/HttpSenderBase.java:704-706 | the upper-cased method: same length, no lower-case letter, a fixed point of upper-casing, and equal to the method ignoring case |
| HttpSender.HttpSenderBase.ConfiguredUrlParameter | akamai/src/main/java/nl/nn/adapterframework/http/HttpSenderBase.java:335-340 | with a parameter list and a url parameter name, it is found iff some parameter has that name; otherwise the old value |
| HttpSender.HttpSenderBase.Configure | akamai/src/main/java/nl/nn/adapterframework/http/HttpSenderBase.java:318-349 | it fails with the prefixed message iff `ConfigureViolation` finds one among the guards at 321-349 (the later failures are under Left out). A method failure leaves the state alone; otherwise the url parameter is looked up and, if found, added to the skipped parameters |
| HttpSender.HttpSenderBase.AddParameterToSkip | akamai/src/main/java/nl/nn/adapterframework/http/HttpSenderBase.java:286-290 | a non-null parameter is added; null is ignored |
| HttpSender.AppendUpTo | akamai/src/main/java/nl/nn/adapterframework/http/HttpSenderBase.java:501-531 | the header names never change |
| HttpSender.AppendStepEffect | akamai/src/main/java/nl/nn/adapterframework/http/HttpSenderBase.java:505-528 | a skipped or header parameter leaves path and flag alone. Any other parameter sets the flag, fails iff it cannot be encoded, and otherwise adds the separator and `name=value` |
| HttpSender.AppendUpToFails | akamai/src/main/java/nl/nn/adapterframework/http/HttpSenderBase.java:515-527 | appendParameters fails iff some parameter bound for the path cannot be encoded |
| HttpSender.AppendUpToQuery | akamai/src/main/java/nl/nn/adapterframework/http/HttpSenderBase.java:501-531 | without failure, the path gains '?' (or '&' if already appended) plus the pairs joined by '&', in parameter order; the result is true iff it was true or a pair was appended |
| HttpSender.AppendUpToHeaders | akamai/src/main/java/nl/nn/adapterframework/http/HttpSenderBase.java:509-511 | each header keeps its value or takes the value of a non-skipped parameter of that name; when no parameter fails to encode, it holds the value of the last non-skipped parameter of that name, or its old value if there is none |
| HttpSender.LastNamed | akamai/src/main/java/nl/nn/adapterframework/http/HttpSenderBase.java:505-512 | the parameter that sets a header last: none iff no non-skipped parameter among the first n has the name, otherwise one that has it with no later non-skipped parameter of that name |
| HttpSender.AppendUpToStops | akamai/src/main/java/nl/nn/adapterframework/http/HttpSenderBase.java:525-527 | after an encoding failure nothing further happens |
| HttpSender.HttpSenderBase.AppendParameters | akamai/src/main/java/nl/nn/adapterframework/http/HttpSenderBase.java:501-531 | the loop leaves path, header map and result exactly as `AppendUpTo` over all parameters says, with the prefixed encoding-error message on failure |
| HttpSender.HeadersParamsMap | akamai/src/main/java/nl/nn/adapterframework/http/HttpSenderBase.java:558-564 | the keys are exactly the comma-separated tokens, each non-empty and comma-free, all mapped to null |
| HttpSender.HeaderNamesListed | akamai/src/main/java/nl/nn/adapterframework/http/HttpSenderBase.java:558-564 | comma-joined names read back as exactly those names |
| HttpSender.RunFromShape | akamai/src/main/java/nl/nn/adapterframework/http/HttpSenderBase.java:601-640 | the loop makes at most count+1 attempts. All but the last are protocol failures, and it stops at the first status or other I/O failure. It runs out only after count+1 protocol failures, keeping the last message |
| HttpSender.RetryLoopBound | akamai/src/main/java/nl/nn/adapterframework/http/HttpSenderBase.java:598-601 | at most maxExecuteRetries+1 attempts (none if negative), all of them used when it runs out |
| HttpSender.Recover | akamai/src/main/java/nl/nn/adapterframework/http/HttpSenderBase.java:646-652 | never a NullPointerException. A timeout error iff the last message upper-cased contains "TIMEOUTEXCEPTION", else a sender error. It agrees with the code whenever there is a message |
| HttpSender.NegativeRetriesDereferenceNull | akamai/src/main/java/nl/nn/adapterframework/http/HttpSenderBase.java:598-647 | maxExecuteRetries = -1 makes no attempt and the code as written dereferences the null message |
| HttpSender.NullProtocolMessageDereferenced | akamai/src/main/java/nl/nn/adapterframework/http/HttpSenderBase.java:624-647 | a ClientProtocolException without a message on the only attempt leads to the same null dereference |
| HttpSender.HttpSenderBase.ExecuteWithRetries | akamai/src/main/java/nl/nn/adapterframework/http/HttpSenderBase.java:597-652 | the loop's outcome and attempt count are those of `RetryLoop`, followed by the corrected recovery |
| HttpSender.HttpSenderBase.RetrieveTymeout | akamai/src/main/java/nl/nn/adapterframework/http/HttpSenderBase.java:732-736 | for a non-negative timeout the result r satisfies (r-1)·1000 ≤ timeout < r·1000; for a negative timeout, r ≤ 1 and (r-1)·1000 ≥ timeout > (r-2)·1000, i.e. the quotient truncates toward zero |
| HttpSender.HttpSenderBase.GetProxyRealm | akamai/src/main/java/nl/nn/adapterframework/http/HttpSenderBase.java:816-820 | null iff the realm is empty, the realm otherwise |
| HttpSender.JavaDiv | akamai/src/main/java/nl/nn/adapterframework/http/HttpSenderBase.java:735 | Java int division: for a ≥ 0, q·b ≤ a < (q+1)·b; for a < 0, q ≤ 0 and q·b ≥ a > (q-1)·b, so the quotient truncates toward zero |
| HttpResponse.FirstHeader | akamai/src/main/java/nl/nn/adapterframework/http/HttpResponseHandler.java:101-103 | it finds nothing iff no header has the name (ignoring case); otherwise the header at some index i with that name, and no header before i has it |
| HttpResponse.DistinctNames | akamai/src/main/java/nl/nn/adapterframework/http/HttpResponseHandler.java:108-119 | the lower-cased names, without duplicates, are exactly those of the headers |
| HttpResponse.GroupingKeepsEveryValue | akamai/src/main/java/nl/nn/adapterframework/http/HttpResponseHandler.java:107-121 | over all distinct names there are exactly as many values as headers |
| HttpResponse.HeaderFieldsComplete | akamai/src/main/java/nl/nn/adapterframework/http/HttpResponseHandler.java:105-122 | the map's keys are the distinct lower-cased names, and its value count equals the header count |
| HttpResponse.HttpResponseHandler.constructor | akamai/src/main/java/nl/nn/adapterframework/http/HttpResponseHandler.java:39-46 | no cached content, statusCode -1, nothing read yet |
| HttpResponse.HttpResponseHandler.GetContentType | akamai/src/main/java/nl/nn/adapterframework/http/HttpResponseHandler.java:82-94 | the charset of the Content-Type header's type, else of the entity's type, else the default encoding |
| HttpResponse.HttpResponseHandler.GetContent | akamai/src/main/java/nl/nn/adapterframework/http/HttpResponseHandler.java:56-59 | notes the status code |
| HttpResponse.HttpResponseHandler.GetContentAsString | akamai/src/main/java/nl/nn/adapterframework/http/HttpResponseHandler.java:65-72 | the stream is read once, while statusCode < 0, in the content type's charset. A read that throws IOException fails the call but leaves the status code noted and the cached string unchanged, so the stream is never read again. Afterwards the cached string is returned, or "" for status 500 when asked |
| HttpResponse.HttpResponseHandler.GetHeaderFields | akamai/src/main/java/nl/nn/adapterframework/http/HttpResponseHandler.java:105-122 | keys are the lower-cased header names. Each list holds the values of the headers with that name, ignoring case, in header order, and is non-empty |

## Left out

- `Json2Xml.translate`: schema loading, the `ValidatorHandler` and the XSLT transformer are library calls.
- `Tree2Xml` (`handleNode`, `processChildElement`, `super.startParse`, `super.processArray`) is not part of this model. Its calls are recorded as events, and `isParentOfSingleMultipleOccurringChildElement()` and `multipleOccurringChildElements` are inputs.
- Json2XmlAlign.Json2Xml.ProcessArray: assumes that the `Tree2Xml` hooks it calls (`super.processArray`, `handleNode`, `processChildElement`) leave both child-name sets unchanged. Java passes the sets to them, and `Tree2Xml` is not part of this model. The set equalities in the delegating branches, and the kept disjointness, rest on that assumption.
- Json2Xml.java:146-151: the `node instanceof JSONArray` branch under an object node cannot be reached, so it is not modelled.
- JSON key order: `JSONObject` iteration order is left to the member sequence. String escaping covers only `"` and `\`. The other escapes of `JSONObject.quote` are not modelled: the short escapes `\b \t \n \f \r`, `</` written as `<\/`, and the `\uXXXX` escapes of control characters.
- `XmlValidatorErrorHandler` is not part of this model. Its reasons are a list of messages, and the flat (newline-joined) and XML (`<reasons><reason>…`) reports are stand-in formats.
- Validation parsing: the validating parser, `getInputSource` (file and charset I/O), the `ValidatorHandler`, the content handlers and the XMLFilter variant of `validate` are inputs or left out. The parser is given as the issues it reports and the exception it throws.
- `XmlUtils.resolveSchemaLocations` and `ClassUtils.getResourceURL` are function parameters. A lookup that finds nothing is `None`.
- The configuration-warnings singleton is a `ConfigurationWarnings` object passed in. The deprecation warning of `setSchemaSession`, logging and `getLogPrefix` formatting are left out.
- HttpSenderBase plumbing is left out because it is network and library code:
  - SSL and socket-factory setup, credentials, proxy and auth cache, the connection pool (`open`/`close`);
  - `httpClient.execute` (an `Attempt` input), `extractResult` (its result is part of the attempt), `getMethod`;
  - HtmlCleaner/XHTML conversion and the transformer pool;
  - `URLEncoder.encode` (an `encode` parameter, `None` when the charset is unsupported);
  - `findParameter` of the parameter list, which is not shown; it is modelled as the first parameter with that name.
- HttpSender.HttpSenderBase.Configure: `Pass` means only that the guards at HttpSenderBase.java:321-349 hold. The Java configure can still fail after them, and the model does not capture these failures:
  - `super.configure()` and `paramList.configure()`;
  - a url that `getURI` cannot interpret ("cannot interpret uri", line 444);
  - a certificate or truststore resource that cannot be found (lines 359 and 366);
  - the socket factory setup (line 400);
  - a stylesheet that cannot be found or compiled (lines 451-457).
- HttpSender.HttpSenderBase.ExecuteWithRetries: uses the corrected, null-safe recovery (see Findings), and assumes `extractResult` does not throw. Status codes are limited to 100..999.
- `StringTokenizer` is modelled by `Strings.Tokens`: the maximal non-empty runs between delimiters.
- HttpSender.HttpSenderBase.GetMethodType: upper-cases ASCII letters only. Java's locale-aware `toUpperCase` is not modelled.
- HttpResponse.HttpResponseHandler.GetHeaderFields: lower-cases header names in ASCII only (`Strings.ToLower`). Java's locale-aware `toLowerCase` is not modelled; the same holds for the case-insensitive name match of `FirstHeader`.
- `HttpResponseHandler`:
  - reading and decoding the stream (`Misc.streamToString`) is a `readContent` parameter, `None` when it throws an IOException;
  - `ContentType.parse` is a `parse` parameter, and `ContentType.getOrDefault` is the response's `entityContentType`;
  - `close`, `getHeader` and `getEntity` are left out;
  - the constructor's own failures are not modelled: the IOException from `getContent()` on the entity, and the NullPointerException for a response without an entity (HttpResponseHandler.java:42-46). The model's constructor always succeeds;
  - `ContentType.parse` is taken to succeed. Only the stream read (`readContent`) can fail with an IOException;
  - the default encoding is taken to be "UTF-8".
- Concurrency: the unsynchronised lazy `needsInit` handling is modelled for single-threaded calls only.

## Findings

| source | as written | input that shows it | evidently intended | confidence | as-written member | corrected member |
|---|---|---|---|---|---|---|
| akamai/src/main/java/nl/nn/adapterframework/http/HttpSenderBase.java:646-652 | after the retry loop ends without a status code, `msg.toUpperCase()` is called on a message that may be null | `maxExecuteRetries = -1`: no attempt is made and `msg` stays null. Or one attempt ends in a `ClientProtocolException` whose message is null | null-safe recovery (the surrounding `StringUtils.contains` is null-safe): no message means "Failed to recover from exception" | not executed; the null dereference follows directly from the code | HttpSender.RecoverAsWritten, HttpSender.NegativeRetriesDereferenceNull | HttpSender.Recover |
