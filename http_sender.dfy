/** The local logic of the base class of the HTTP senders: the configuration checks, the
    query string built from the parameters, the header parameter names, the retry loop
    around the call of the HTTP client, and a few derived settings. The HTTP client, the
    URL encoder and the parameter resolution are parameters of the operations. */
module HttpSender {
  import opened Wrappers
  import opened Strings
  import HttpResponse

  type StatusCode = HttpResponse.StatusCode

  /** A configured parameter; the id stands for the object's identity, which is what the
      set of parameters to skip compares. */
  datatype Parameter = Parameter(id: nat, name: string)

  /** A resolved parameter: its definition and its value, which may be null. */
  datatype ParameterValue = ParameterValue(definition: Parameter, value: Option<string>)

  /** asStringValue(""): the value, or the empty string for null. */
  function StringValue(pv: ParameterValue): string {
    pv.value.GetOr("")
  }

  datatype ConfigurationException = ConfigurationException(message: string)

  /** The first parameter of the list with the given name, as the parameter list's
      findParameter returns it. */
  function FindParameter(params: seq<Parameter>, name: string): (r: Option<Parameter>)
    ensures r.None? <==> forall p :: p in params ==> p.name != name
    ensures r.Some? ==> r.value in params && r.value.name == name
    ensures r.Some? ==> exists i :: 0 <= i < |params| && params[i] == r.value
                                    && forall j :: 0 <= j < i ==> params[j].name != name
  {
    if params == [] then None
    else if params[0].name == name then Some(params[0])
    else FindParameter(params[1..], name)
  }

  // ---- configure ----

  const NotPostParamsInUrlMessage := "paramsInUrl can only be set to false for methodType POST"
  const NotPostInputMessageParamMessage := "inputMessageParam can only be set for methodType POST"
  const UrlMissingMessage := "url must be specified, either as attribute, or as parameter"

  function MaxConnectionsMessage(maxConnections: int): string {
    "maxConnections is set to [" + DecimalString(maxConnections) + "], which is not enough for adequate operation"
  }

  /** The checks configure makes before it looks at the parameters: only POST may send the
      parameters in the body or the message as a parameter. */
  function MethodViolation(methodType: string, paramsInUrl: bool, inputMessageParam: string): (r: Option<string>)
    ensures r.None? <==> methodType == "POST" || (paramsInUrl && IsEmpty(inputMessageParam))
    ensures r == Some(NotPostParamsInUrlMessage) <==> methodType != "POST" && !paramsInUrl
  {
    if methodType != "POST" then
      if !paramsInUrl then Some(NotPostParamsInUrlMessage)
      else if !IsEmpty(inputMessageParam) then Some(NotPostInputMessageParamMessage)
      else None
    else None
  }

  /** The checks configure makes after it has looked for the url parameter. */
  function ResourceViolation(maxConnections: int, urlParameterFound: bool, url: string): (r: Option<string>)
    ensures r.None? <==> maxConnections > 0 && (urlParameterFound || !IsEmpty(url))
    ensures maxConnections <= 0 ==> r == Some(MaxConnectionsMessage(maxConnections))
  {
    if maxConnections <= 0 then Some(MaxConnectionsMessage(maxConnections))
    else if !urlParameterFound && IsEmpty(url) then Some(UrlMissingMessage)
    else None
  }

  /** All of configure's checks, in their order: the first that fails gives the message. */
  function ConfigureViolation(methodType: string, paramsInUrl: bool, inputMessageParam: string,
                              maxConnections: int, urlParameterFound: bool, url: string): (r: Option<string>)
    ensures r.None? <==>
      (methodType == "POST" || (paramsInUrl && IsEmpty(inputMessageParam)))
      && maxConnections > 0 && (urlParameterFound || !IsEmpty(url))
    ensures r.Some? ==> r.value in {NotPostParamsInUrlMessage, NotPostInputMessageParamMessage,
                                    MaxConnectionsMessage(maxConnections), UrlMissingMessage}
  {
    var early := MethodViolation(methodType, paramsInUrl, inputMessageParam);
    if early.Some? then early else ResourceViolation(maxConnections, urlParameterFound, url)
  }

  // ---- appendParameters ----

  /** What appendParameters has built so far: whether a parameter is in the path, the
      path, and the header parameters. */
  datatype AppendState = AppendState(appended: bool, path: string, headers: map<string, Option<string>>)

  /** One parameter: skipped, stored as a header, or appended to the path after '?' (the
      first) or '&' (the others). An encoder that rejects the character set fails after
      the separator is written; the name of the failing parameter is returned. */
  function AppendStep(st: AppendState, skipped: bool, pv: ParameterValue, encode: string -> Option<string>)
    : (AppendState, Option<string>)
  {
    var name := pv.definition.name;
    if skipped then (st, None)
    else if name in st.headers then (st.(headers := st.headers[name := Some(StringValue(pv))]), None)
    else
      var separated := st.(appended := true, path := st.path + (if st.appended then "&" else "?"));
      match encode(StringValue(pv))
      case None => (separated, Some(name))
      case Some(encoded) => (separated.(path := separated.path + name + "=" + encoded), None)
  }

  /** The first n parameters, stopping at the first encoding failure. The i-th parameter
      is skipped when the i-th entry of the parameter list is to be skipped. The header
      names never change. */
  function AppendUpTo(toSkip: set<Parameter>, paramList: seq<Parameter>, parameters: seq<ParameterValue>,
                      n: nat, init: AppendState, encode: string -> Option<string>): (r: (AppendState, Option<string>))
    requires n <= |parameters| <= |paramList|
    ensures r.0.headers.Keys == init.headers.Keys
  {
    if n == 0 then (init, None)
    else
      var prev := AppendUpTo(toSkip, paramList, parameters, n - 1, init, encode);
      if prev.1.Some? then prev
      else AppendStep(prev.0, paramList[n - 1] in toSkip, parameters[n - 1], encode)
  }

  /** Once a parameter fails to encode, the later ones are not looked at. */
  lemma {:induction false} AppendUpToStops(toSkip: set<Parameter>, paramList: seq<Parameter>,
                                           parameters: seq<ParameterValue>, n: nat, m: nat, init: AppendState,
                                           encode: string -> Option<string>)
    requires n <= m <= |parameters| <= |paramList|
    requires AppendUpTo(toSkip, paramList, parameters, n, init, encode).1.Some?
    ensures AppendUpTo(toSkip, paramList, parameters, m, init, encode)
            == AppendUpTo(toSkip, paramList, parameters, n, init, encode)
    decreases m
  {
    if m > n {
      AppendUpToStops(toSkip, paramList, parameters, n, m - 1, init, encode);
    }
  }

  /** Whether the j-th parameter goes into the path: not skipped and not a header. */
  predicate Appendable(toSkip: set<Parameter>, paramList: seq<Parameter>, parameters: seq<ParameterValue>,
                       headerNames: set<string>, j: int)
    requires 0 <= j < |parameters| <= |paramList|
  {
    paramList[j] !in toSkip && parameters[j].definition.name !in headerNames
  }

  /** The name=value pairs of the parameters among the first n that go into the path. */
  function QueryPairs(toSkip: set<Parameter>, paramList: seq<Parameter>, parameters: seq<ParameterValue>,
                      headerNames: set<string>, n: nat, encode: string -> Option<string>): seq<string>
    requires n <= |parameters| <= |paramList|
  {
    if n == 0 then []
    else
      QueryPairs(toSkip, paramList, parameters, headerNames, n - 1, encode)
      + (if Appendable(toSkip, paramList, parameters, headerNames, n - 1)
         then [parameters[n - 1].definition.name + "=" + encode(StringValue(parameters[n - 1])).GetOr("")]
         else [])
  }

  /** Whether a parameter among the first n that goes into the path cannot be encoded. */
  predicate EncodingFails(toSkip: set<Parameter>, paramList: seq<Parameter>, parameters: seq<ParameterValue>,
                          headerNames: set<string>, n: nat, encode: string -> Option<string>)
    requires n <= |parameters| <= |paramList|
  {
    exists j :: 0 <= j < n && Appendable(toSkip, paramList, parameters, headerNames, j)
                && encode(StringValue(parameters[j])).None?
  }

  /** What one parameter does to the path and the flag. */
  lemma AppendStepEffect(st: AppendState, skipped: bool, pv: ParameterValue, encode: string -> Option<string>)
    ensures var next := AppendStep(st, skipped, pv, encode);
      next.0.headers.Keys == st.headers.Keys
      && (skipped || pv.definition.name in st.headers ==>
            next.1.None? && next.0.appended == st.appended && next.0.path == st.path)
      && (!skipped && pv.definition.name !in st.headers ==>
            (next.1.Some? <==> encode(StringValue(pv)).None?)
            && (next.1.None? ==>
                  next.0.appended
                  && next.0.path == st.path + (if st.appended then "&" else "?")
                                    + (pv.definition.name + "=" + encode(StringValue(pv)).value)))
  {
  }

  /** appendParameters fails iff some parameter for the path cannot be encoded. */
  lemma {:induction false} AppendUpToFails(toSkip: set<Parameter>, paramList: seq<Parameter>,
                                           parameters: seq<ParameterValue>, n: nat, init: AppendState,
                                           encode: string -> Option<string>)
    requires n <= |parameters| <= |paramList|
    ensures AppendUpTo(toSkip, paramList, parameters, n, init, encode).1.Some?
            <==> EncodingFails(toSkip, paramList, parameters, init.headers.Keys, n, encode)
  {
    var keys := init.headers.Keys;
    if n > 0 {
      AppendUpToFails(toSkip, paramList, parameters, n - 1, init, encode);
      var prev := AppendUpTo(toSkip, paramList, parameters, n - 1, init, encode);
      var pv := parameters[n - 1];
      if prev.1.Some? {
        var j :| 0 <= j < n - 1 && Appendable(toSkip, paramList, parameters, keys, j)
                 && encode(StringValue(parameters[j])).None?;
        assert EncodingFails(toSkip, paramList, parameters, keys, n, encode);
      } else {
        AppendStepEffect(prev.0, paramList[n - 1] in toSkip, pv, encode);
        if EncodingFails(toSkip, paramList, parameters, keys, n, encode) {
          var j :| 0 <= j < n && Appendable(toSkip, paramList, parameters, keys, j)
                   && encode(StringValue(parameters[j])).None?;
          assert j == n - 1;
        }
        if Appendable(toSkip, paramList, parameters, keys, n - 1) && encode(StringValue(pv)).None? {
          assert EncodingFails(toSkip, paramList, parameters, keys, n, encode);
        }
      }
    }
  }

  /** appendParameters, said declaratively: when nothing fails, the path gets the pairs
      joined by '&', after '?' when nothing was appended before and after '&' when
      something was, and the result is true iff it was true already or some parameter went
      into the path. */
  lemma {:induction false} AppendUpToQuery(toSkip: set<Parameter>, paramList: seq<Parameter>,
                                           parameters: seq<ParameterValue>, n: nat, init: AppendState,
                                           encode: string -> Option<string>)
    requires n <= |parameters| <= |paramList|
    requires AppendUpTo(toSkip, paramList, parameters, n, init, encode).1.None?
    ensures var run := AppendUpTo(toSkip, paramList, parameters, n, init, encode);
      var pairs := QueryPairs(toSkip, paramList, parameters, init.headers.Keys, n, encode);
      run.0.appended == (init.appended || |pairs| > 0)
      && run.0.path == init.path + (if pairs == [] then "" else (if init.appended then "&" else "?") + Join(pairs, "&"))
  {
    var keys := init.headers.Keys;
    if n > 0 {
      var prev := AppendUpTo(toSkip, paramList, parameters, n - 1, init, encode);
      assert prev.1.None?;
      AppendUpToQuery(toSkip, paramList, parameters, n - 1, init, encode);
      var run := AppendUpTo(toSkip, paramList, parameters, n, init, encode);
      var pairs0 := QueryPairs(toSkip, paramList, parameters, keys, n - 1, encode);
      var pv := parameters[n - 1];
      AppendStepEffect(prev.0, paramList[n - 1] in toSkip, pv, encode);
      var sep0 := if init.appended then "&" else "?";
      if Appendable(toSkip, paramList, parameters, keys, n - 1) {
        var pair := pv.definition.name + "=" + encode(StringValue(pv)).value;
        assert QueryPairs(toSkip, paramList, parameters, keys, n, encode) == pairs0 + [pair];
        if pairs0 != [] {
          JoinSnoc(pairs0, pair, "&");
          calc {
            run.0.path;
            (init.path + (sep0 + Join(pairs0, "&"))) + "&" + pair;
            init.path + (sep0 + (Join(pairs0, "&") + "&" + pair));
            init.path + (sep0 + Join(pairs0 + [pair], "&"));
          }
        } else {
          assert Join(pairs0 + [pair], "&") == pair;
          assert run.0.path == init.path + (sep0 + pair);
        }
      } else {
        assert QueryPairs(toSkip, paramList, parameters, keys, n, encode) == pairs0;
      }
    }
  }

  /** A step changes the headers only by storing a header parameter that is not skipped. */
  lemma AppendStepHeaders(st: AppendState, skipped: bool, pv: ParameterValue, encode: string -> Option<string>)
    ensures AppendStep(st, skipped, pv, encode).0.headers
            == if !skipped && pv.definition.name in st.headers
               then st.headers[pv.definition.name := Some(StringValue(pv))] else st.headers
  {
  }

  /** The last of the first n parameters that has name k and is not skipped, if any. */
  function LastNamed(toSkip: set<Parameter>, paramList: seq<Parameter>, parameters: seq<ParameterValue>,
                     n: nat, k: string): (r: Option<ParameterValue>)
    requires n <= |parameters| <= |paramList|
    ensures r.None? <==> forall j :: 0 <= j < n ==> paramList[j] in toSkip || parameters[j].definition.name != k
    ensures r.Some? ==> exists j :: 0 <= j < n && parameters[j] == r.value
                                  && paramList[j] !in toSkip && parameters[j].definition.name == k
                                  && forall j' :: j < j' < n ==> paramList[j'] in toSkip || parameters[j'].definition.name != k
  {
    if n == 0 then None
    else if paramList[n - 1] !in toSkip && parameters[n - 1].definition.name == k then Some(parameters[n - 1])
    else LastNamed(toSkip, paramList, parameters, n - 1, k)
  }

  /** A parameter named like a header parameter sets that header and nothing else. Every
      header afterwards holds its old value or the value of a parameter of that name that
      was not skipped; when no parameter failed to encode, it holds the value of the last
      such parameter, and its old value only when there is none. */
  lemma {:induction false} AppendUpToHeaders(toSkip: set<Parameter>, paramList: seq<Parameter>,
                                             parameters: seq<ParameterValue>, n: nat, init: AppendState,
                                             encode: string -> Option<string>)
    requires n <= |parameters| <= |paramList|
    ensures var run := AppendUpTo(toSkip, paramList, parameters, n, init, encode);
      forall k :: k in run.0.headers ==>
        run.0.headers[k] == init.headers[k]
        || exists j :: 0 <= j < n && paramList[j] !in toSkip && parameters[j].definition.name == k
                       && run.0.headers[k] == Some(StringValue(parameters[j]))
    ensures var run := AppendUpTo(toSkip, paramList, parameters, n, init, encode);
      run.1.None? ==>
        forall k :: k in run.0.headers ==>
          run.0.headers[k] == match LastNamed(toSkip, paramList, parameters, n, k)
                              case Some(pv) => Some(StringValue(pv))
                              case None => init.headers[k]
  {
    if n > 0 {
      AppendUpToHeaders(toSkip, paramList, parameters, n - 1, init, encode);
      var prev := AppendUpTo(toSkip, paramList, parameters, n - 1, init, encode);
      var run := AppendUpTo(toSkip, paramList, parameters, n, init, encode);
      var pv := parameters[n - 1];
      assert prev.1.None? ==> run == AppendStep(prev.0, paramList[n - 1] in toSkip, pv, encode);
      AppendStepHeaders(prev.0, paramList[n - 1] in toSkip, pv, encode);
      if prev.1.None? && paramList[n - 1] !in toSkip && pv.definition.name in prev.0.headers {
        assert run.0.headers == prev.0.headers[pv.definition.name := Some(StringValue(pv))];
        forall k | k in run.0.headers
          ensures run.0.headers[k] == init.headers[k]
                  || exists j :: 0 <= j < n && paramList[j] !in toSkip && parameters[j].definition.name == k
                                 && run.0.headers[k] == Some(StringValue(parameters[j]))
        {
          if k == pv.definition.name {
            assert parameters[n - 1].definition.name == k;
          } else if run.0.headers[k] != init.headers[k] {
            var j :| 0 <= j < n - 1 && paramList[j] !in toSkip && parameters[j].definition.name == k
                     && prev.0.headers[k] == Some(StringValue(parameters[j]));
          }
        }
        forall k | k in run.0.headers
          ensures run.0.headers[k] == match LastNamed(toSkip, paramList, parameters, n, k)
                                      case Some(pv) => Some(StringValue(pv))
                                      case None => init.headers[k]
        {
          if k != pv.definition.name {
            assert LastNamed(toSkip, paramList, parameters, n, k) == LastNamed(toSkip, paramList, parameters, n - 1, k);
          }
        }
      } else {
        assert run.0.headers == prev.0.headers;
        if run.1.None? {
          assert prev.1.None?;
          forall k | k in run.0.headers
            ensures run.0.headers[k] == match LastNamed(toSkip, paramList, parameters, n, k)
                                        case Some(pv) => Some(StringValue(pv))
                                        case None => init.headers[k]
          {
            assert k in prev.0.headers;
            assert LastNamed(toSkip, paramList, parameters, n, k) == LastNamed(toSkip, paramList, parameters, n - 1, k);
          }
        }
      }
    }
  }

  /** The header parameter names: the non-empty comma-free runs of headersParams, each
      mapped to null. */
  method HeadersParamsMap(headersParams: string) returns (m: map<string, Option<string>>)
    ensures m.Keys == set t | t in Tokens(headersParams, ',')
    ensures forall k :: k in m ==> m[k] == None && IsToken(k, ',')
  {
    TokensAreTokens(headersParams, ',');
    var tokens := Tokens(headersParams, ',');
    m := map[];
    var i := 0;
    while i < |tokens|
      invariant 0 <= i <= |tokens|
      invariant m.Keys == set t | t in tokens[..i]
      invariant forall k :: k in m ==> m[k] == None
    {
      m := m[tokens[i] := None];
      assert tokens[..i + 1] == tokens[..i] + [tokens[i]];
      i := i + 1;
    }
    assert tokens[..i] == tokens;
  }

  /** Names listed with commas, none of them empty or holding a comma, are exactly the
      header parameters. */
  lemma HeaderNamesListed(names: seq<string>)
    requires forall n :: n in names ==> IsToken(n, ',')
    ensures (set t | t in Tokens(Join(names, ","), ',')) == set n | n in names
  {
    TokensOfJoin(names, ',');
  }

  // ---- the retry loop of sendMessageWithTimeoutGuarded ----

  /** One execution of the request: a status line and the extracted result, a
      ClientProtocolException with its (possibly null) message, or another IOException,
      which may be a SocketTimeoutException. */
  datatype Attempt =
    | Status(code: StatusCode, result: string)
    | ProtocolFailure(message: Option<string>)
    | IoFailure(socketTimeout: bool, description: string)

  /** How the loop ends, and after how many attempts. */
  datatype LoopExit =
    | Obtained(statusCode: StatusCode, result: string, attempts: nat)
    | Aborted(socketTimeout: bool, message: string, attempts: nat)
    | Exhausted(lastMessage: Option<string>, attempts: nat)

  /** The loop from attempt i on, with count retries left and msg the last protocol
      failure's message. */
  function RunFrom(i: nat, count: int, msg: Option<string>, execute: nat -> Attempt): LoopExit
    decreases if count < 0 then 0 else count + 1
  {
    if count < 0 then Exhausted(msg, i)
    else match execute(i)
      case Status(c, res) => Obtained(c, res, i + 1)
      case ProtocolFailure(m) => RunFrom(i + 1, count - 1, m, execute)
      case IoFailure(t, m) => Aborted(t, m, i + 1)
  }

  function RetryLoop(maxExecuteRetries: int, execute: nat -> Attempt): LoopExit {
    RunFrom(0, maxExecuteRetries, None, execute)
  }

  function AttemptBudget(count: int): nat {
    if count < 0 then 0 else count + 1
  }

  /** The loop makes at most count+1 attempts and stops at the first status line or the
      first other I/O failure; it runs out only after count+1 protocol failures, and then
      keeps the last failure's message. */
  lemma {:induction false} RunFromShape(i: nat, count: int, msg: Option<string>, execute: nat -> Attempt)
    decreases if count < 0 then 0 else count + 1
    ensures var r := RunFrom(i, count, msg, execute);
      i <= r.attempts <= i + AttemptBudget(count)
    ensures var r := RunFrom(i, count, msg, execute);
      forall j :: i <= j < r.attempts - 1 ==> execute(j).ProtocolFailure?
    ensures var r := RunFrom(i, count, msg, execute);
      r.Obtained? ==> r.attempts > i && execute(r.attempts - 1) == Status(r.statusCode, r.result)
    ensures var r := RunFrom(i, count, msg, execute);
      r.Aborted? ==> r.attempts > i && execute(r.attempts - 1) == IoFailure(r.socketTimeout, r.message)
    ensures var r := RunFrom(i, count, msg, execute);
      r.Exhausted? ==>
        r.attempts == i + AttemptBudget(count)
        && (r.attempts == i ==> r.lastMessage == msg)
        && (r.attempts > i ==> execute(r.attempts - 1) == ProtocolFailure(r.lastMessage))
  {
    if count >= 0 && execute(i).ProtocolFailure? {
      RunFromShape(i + 1, count - 1, execute(i).message, execute);
    }
  }

  /** At most maxExecuteRetries+1 attempts, none for a negative maximum. */
  lemma RetryLoopBound(maxExecuteRetries: int, execute: nat -> Attempt)
    ensures RetryLoop(maxExecuteRetries, execute).attempts <= AttemptBudget(maxExecuteRetries)
    ensures RetryLoop(maxExecuteRetries, execute).Exhausted? ==>
      RetryLoop(maxExecuteRetries, execute).attempts == AttemptBudget(maxExecuteRetries)
  {
    RunFromShape(0, maxExecuteRetries, None, execute);
  }

  /** What sendMessageWithTimeoutGuarded makes of the loop's end. */
  datatype SendOutcome =
    | Sent(statusCode: StatusCode, result: string)
    | TimeOutError(message: string)
    | SenderError(message: string)
    | NullPointerError

  const TimeoutRecoveryMessage := "Failed to recover from timeout exception"
  const RecoveryMessage := "Failed to recover from exception"

  /** The code as written: upper-casing the last message fails when there is none. */
  function RecoverAsWritten(exit: LoopExit): SendOutcome {
    match exit
    case Obtained(c, res, _) => Sent(c, res)
    case Aborted(t, m, _) => if t then TimeOutError(m) else SenderError(m)
    case Exhausted(msg, _) =>
      if msg.None? then NullPointerError
      else if Contains(ToUpper(msg.value), "TIMEOUTEXCEPTION") then TimeOutError(TimeoutRecoveryMessage)
      else SenderError(RecoveryMessage)
  }

  /** The evidently intended recovery, null-safe like the StringUtils.contains it calls: a
      missing message is no timeout. */
  function Recover(exit: LoopExit): (r: SendOutcome)
    ensures r != NullPointerError
    ensures exit.Exhausted? ==>
      (r == TimeOutError(TimeoutRecoveryMessage) <==>
         exit.lastMessage.Some? && Contains(ToUpper(exit.lastMessage.value), "TIMEOUTEXCEPTION"))
      && (r.TimeOutError? || r == SenderError(RecoveryMessage))
    ensures !exit.Exhausted? || exit.lastMessage.Some? ==> r == RecoverAsWritten(exit)
  {
    match exit
    case Obtained(c, res, _) => Sent(c, res)
    case Aborted(t, m, _) => if t then TimeOutError(m) else SenderError(m)
    case Exhausted(msg, _) =>
      if msg.Some? && Contains(ToUpper(msg.value), "TIMEOUTEXCEPTION") then TimeOutError(TimeoutRecoveryMessage)
      else SenderError(RecoveryMessage)
  }

  /** With a negative maxExecuteRetries the loop never runs, the message stays null and
      the code as written dereferences it. */
  lemma NegativeRetriesDereferenceNull(execute: nat -> Attempt)
    ensures RetryLoop(-1, execute) == Exhausted(None, 0)
    ensures RecoverAsWritten(RetryLoop(-1, execute)) == NullPointerError
    ensures Recover(RetryLoop(-1, execute)) == SenderError(RecoveryMessage)
  {
  }

  /** A ClientProtocolException without a message on the last attempt does the same. */
  lemma NullProtocolMessageDereferenced(execute: nat -> Attempt)
    requires execute(0) == ProtocolFailure(None)
    ensures RetryLoop(0, execute) == Exhausted(None, 1)
    ensures RecoverAsWritten(RetryLoop(0, execute)) == NullPointerError
  {
    assert RunFrom(1, -1, None, execute) == Exhausted(None, 1);
  }

  // ---- the sender ----

  class HttpSenderBase {
    var methodType: string
    var paramsInUrl: bool
    var inputMessageParam: string
    var maxConnections: int
    var url: string
    var urlParam: string
    var paramList: Option<seq<Parameter>>
    var urlParameter: Option<Parameter>
    var parametersToSkip: set<Parameter>
    var timeout: int
    var maxExecuteRetries: int
    var proxyRealm: string
    var charSet: string
    var headersParams: string
    var logPrefix: string

    /** The defaults; the character set is the default input stream encoding. */
    constructor (defaultCharSet: string)
      ensures methodType == "GET" && paramsInUrl && inputMessageParam == "" && maxConnections == 10
      ensures url == "" && urlParam == "url" && paramList == None && urlParameter == None
      ensures parametersToSkip == {} && timeout == 10000 && maxExecuteRetries == 1
      ensures proxyRealm == "" && charSet == defaultCharSet && headersParams == "" && logPrefix == ""
    {
      methodType := "GET";
      paramsInUrl := true;
      inputMessageParam := "";
      maxConnections := 10;
      url := "";
      urlParam := "url";
      paramList := None;
      urlParameter := None;
      parametersToSkip := {};
      timeout := 10000;
      maxExecuteRetries := 1;
      proxyRealm := "";
      charSet := defaultCharSet;
      headersParams := "";
      logPrefix := "";
    }

    /** getMethodType: the configured method, upper-cased, so the checks ignore case. */
    function GetMethodType(): (r: string)
      reads this
      ensures |r| == |methodType|
      ensures forall i :: 0 <= i < |r| ==> !('a' <= r[i] <= 'z')
      ensures ToUpper(r) == r
      ensures ToLower(r) == ToLower(methodType)
    {
      ToUpperProperties(methodType);
      LowerOfUpper(methodType);
      ToUpper(methodType)
    }

    /** The url parameter configure looks up: only with a parameter list and a url
        parameter name. */
    function ConfiguredUrlParameter(): (r: Option<Parameter>)
      reads this
      ensures paramList.Some? && !IsEmpty(urlParam) ==>
        (r.Some? <==> exists p :: p in paramList.value && p.name == urlParam)
      ensures paramList.None? || IsEmpty(urlParam) ==> r == urlParameter
    {
      if paramList.Some? && !IsEmpty(urlParam) then FindParameter(paramList.value, urlParam) else urlParameter
    }

    /** configure's checks; a url parameter that is found is skipped in the query. */
    method Configure() returns (r: Outcome<ConfigurationException>)
      modifies this`urlParameter, this`parametersToSkip
      ensures var early := MethodViolation(GetMethodType(), paramsInUrl, inputMessageParam);
        early.Some? ==>
          r == Fail(ConfigurationException(logPrefix + early.value))
          && urlParameter == old(urlParameter) && parametersToSkip == old(parametersToSkip)
      ensures MethodViolation(GetMethodType(), paramsInUrl, inputMessageParam).None? ==>
        urlParameter == old(ConfiguredUrlParameter())
        && parametersToSkip == old(parametersToSkip)
             + (if paramList.Some? && !IsEmpty(urlParam) && urlParameter.Some? then {urlParameter.value} else {})
      ensures var v := ConfigureViolation(GetMethodType(), paramsInUrl, inputMessageParam, maxConnections,
                                          urlParameter.Some?, url);
        r == if v.None? then Pass else Fail(ConfigurationException(logPrefix + v.value))
    {
      var method_ := GetMethodType();
      ghost var early := MethodViolation(method_, paramsInUrl, inputMessageParam);
      if method_ != "POST" {
        if !paramsInUrl {
          return Fail(ConfigurationException(logPrefix + NotPostParamsInUrlMessage));
        }
        if !IsEmpty(inputMessageParam) {
          return Fail(ConfigurationException(logPrefix + NotPostInputMessageParamMessage));
        }
      }
      assert early.None?;
      if paramList.Some? {
        if !IsEmpty(urlParam) {
          urlParameter := FindParameter(paramList.value, urlParam);
          AddParameterToSkip(urlParameter);
        }
      }
      assert GetMethodType() == method_;
      if maxConnections <= 0 {
        return Fail(ConfigurationException(logPrefix + MaxConnectionsMessage(maxConnections)));
      }
      if urlParameter.None? {
        if IsEmpty(url) {
          return Fail(ConfigurationException(logPrefix + UrlMissingMessage));
        }
      }
      r := Pass;
    }

    method AddParameterToSkip(param: Option<Parameter>)
      modifies this`parametersToSkip
      ensures parametersToSkip == old(parametersToSkip) + (if param.Some? then {param.value} else {})
    {
      if param.Some? {
        parametersToSkip := parametersToSkip + {param.value};
      }
    }

    /** appendParameters over the resolved parameters; a parameter list is needed for
        every parameter, since the i-th parameter is skipped by the i-th list entry.
        encode stands for URLEncoder.encode with the configured character set, None when
        that character set is not supported. */
    method AppendParameters(parametersAppended: bool, path: StringBuffer, parameters: seq<ParameterValue>,
                            headersParamsMap: HeaderParameters, encode: string -> Option<string>)
      returns (r: Result<bool, string>)
      requires |parameters| <= |paramList.GetOr([])|
      modifies path, headersParamsMap
      ensures var run := AppendUpTo(parametersToSkip, paramList.GetOr([]), parameters, |parameters|,
                                    AppendState(parametersAppended, old(path.contents), old(headersParamsMap.entries)),
                                    encode);
        path.contents == run.0.path && headersParamsMap.entries == run.0.headers
        && r == if run.1.None? then Success(run.0.appended)
                else Failure(logPrefix + "[" + charSet + "] encoding error. Failed to add parameter [" + run.1.value + "]")
    {
      var list := paramList.GetOr([]);
      var appended := parametersAppended;
      ghost var init := AppendState(parametersAppended, path.contents, headersParamsMap.entries);
      var i := 0;
      while i < |parameters|
        invariant 0 <= i <= |parameters|
        invariant AppendUpTo(parametersToSkip, list, parameters, i, init, encode)
                  == (AppendState(appended, path.contents, headersParamsMap.entries), None)
      {
        ghost var step := AppendStep(AppendState(appended, path.contents, headersParamsMap.entries),
                                     list[i] in parametersToSkip, parameters[i], encode);
        assert AppendUpTo(parametersToSkip, list, parameters, i + 1, init, encode) == step;
        AppendStepEffect(AppendState(appended, path.contents, headersParamsMap.entries),
                         list[i] in parametersToSkip, parameters[i], encode);
        if list[i] in parametersToSkip {
          i := i + 1;
          continue;
        }
        var pv := parameters[i];
        var name := pv.definition.name;
        if name in headersParamsMap.entries {
          headersParamsMap.entries := headersParamsMap.entries[name := Some(StringValue(pv))];
        } else {
          if appended {
            path.contents := path.contents + "&";
          } else {
            path.contents := path.contents + "?";
            appended := true;
          }
          var encoded := encode(StringValue(pv));
          if encoded.None? {
            AppendUpToStops(parametersToSkip, list, parameters, i + 1, |parameters|, init, encode);
            return Failure(logPrefix + "[" + charSet + "] encoding error. Failed to add parameter [" + name + "]");
          }
          path.contents := path.contents + (name + "=" + encoded.value);
          assert path.contents == step.0.path;
        }
        i := i + 1;
      }
      r := Success(appended);
    }

    /** The retry loop: execute until a status line is obtained or the retries run out; a
        protocol failure is retried, any other I/O failure ends the call. Recovery follows
        the corrected, null-safe reading. */
    method ExecuteWithRetries(execute: nat -> Attempt) returns (r: SendOutcome, attempts: nat)
      ensures r == Recover(RetryLoop(maxExecuteRetries, execute))
      ensures attempts == RetryLoop(maxExecuteRetries, execute).attempts
    {
      var statusCode: int := -1;
      var result := "";
      var count := maxExecuteRetries;
      var msg: Option<string> := None;
      attempts := 0;
      while count >= 0 && statusCode == -1
        invariant statusCode == -1 || 100 <= statusCode <= 999
        invariant statusCode == -1 ==> RunFrom(attempts, count, msg, execute) == RetryLoop(maxExecuteRetries, execute)
        invariant statusCode != -1 ==> RetryLoop(maxExecuteRetries, execute) == Obtained(statusCode, result, attempts)
        decreases count
      {
        assert RunFrom(attempts, count, msg, execute) == match execute(attempts)
          case Status(c, res) => Obtained(c, res, attempts + 1)
          case ProtocolFailure(m) => RunFrom(attempts + 1, count - 1, m, execute)
          case IoFailure(t, m) => Aborted(t, m, attempts + 1);
        count := count - 1;
        match execute(attempts) {
          case Status(c, res) =>
            statusCode := c;
            result := res;
          case ProtocolFailure(m) =>
            msg := m;
          case IoFailure(t, m) =>
            attempts := attempts + 1;
            r := if t then TimeOutError(m) else SenderError(m);
            return;
        }
        attempts := attempts + 1;
      }
      if statusCode == -1 {
        if msg.Some? && Contains(ToUpper(msg.value), "TIMEOUTEXCEPTION") {
          r := TimeOutError(TimeoutRecoveryMessage);
        } else {
          r := SenderError(RecoveryMessage);
        }
        return;
      }
      r := Sent(statusCode, result);
    }

    /** retrieveTymeout: the timeout in whole seconds (Java's division truncates toward
        zero), plus one, so the guard never fires before the HTTP client's own timeout. */
    function RetrieveTymeout(): (r: int)
      reads this
      ensures timeout >= 0 ==> (r - 1) * 1000 <= timeout < r * 1000
      ensures timeout < 0 ==> r <= 1 && (r - 1) * 1000 >= timeout > (r - 2) * 1000
    {
      JavaDiv(timeout, 1000) + 1
    }

    /** getProxyRealm: an empty realm is no realm. */
    function GetProxyRealm(): (r: Option<string>)
      reads this
      ensures r.None? <==> IsEmpty(proxyRealm)
      ensures r.Some? ==> r.value == proxyRealm
    {
      if IsEmpty(proxyRealm) then None else Some(proxyRealm)
    }
  }

  /** Java's int division, which truncates toward zero. */
  function JavaDiv(a: int, b: int): (q: int)
    requires b > 0
    ensures a >= 0 ==> q * b <= a < (q + 1) * b
    ensures a < 0 ==> q <= 0 && q * b >= a > (q - 1) * b
  {
    if a >= 0 then a / b else -((-a) / b)
  }

  /** The StringBuffer the path is built in. */
  class StringBuffer {
    var contents: string

    constructor (s: string)
      ensures contents == s
    {
      contents := s;
    }
  }

  /** The map from header parameter names to their values. */
  class HeaderParameters {
    var entries: map<string, Option<string>>

    constructor (entries: map<string, Option<string>>)
      ensures this.entries == entries
    {
      this.entries := entries;
    }
  }
}
