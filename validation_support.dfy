/** What both XML validators share: the pipeline session they write diagnostics to, the
    error handler that collects reasons during one validation, and handleFailures, which
    both classes implement with the same code. */
module ValidationSupport {
  import opened Wrappers
  import opened Strings

  /** A Java throwable as far as the validators look at it: whether it is a
      SAXParseException, which the parser has already reported to the error handler. */
  datatype ThrowableKind = SaxParseException | OtherException
  datatype Throwable = Throwable(kind: ThrowableKind, message: string)

  /** One call of the error handler's warning, error or fatalError callback. */
  datatype Severity = Warning | Error | Fatal
  datatype Issue = Issue(severity: Severity, message: string)

  datatype XmlValidatorException = XmlValidatorException(message: string, cause: Option<Throwable>)

  /** The key/value store of one pipeline run (IPipeLineSession), restricted to string values. */
  class PipeLineSession {
    var values: map<string, string>

    constructor (initial: map<string, string>)
      ensures values == initial
    {
      values := initial;
    }
  }

  /** The flat reason report: the reasons one per line. */
  function FlatReport(reasons: seq<string>): string {
    Join(reasons, "\n")
  }

  /** The structured reason report: each reason in its own element. */
  function XmlReport(reasons: seq<string>): string {
    "<reasons>" + XmlReasonElements(reasons) + "</reasons>"
  }

  function XmlReasonElements(reasons: seq<string>): string {
    if reasons == [] then "" else "<reason>" + reasons[0] + "</reason>" + XmlReasonElements(reasons[1..])
  }

  /** XmlValidatorErrorHandler: the reasons reported during one validation, in order, and
      whether any of them was an error or a fatal error. */
  class XmlValidatorErrorHandler {
    var reasons: seq<string>
    var errorOccurred: bool

    constructor ()
      ensures reasons == [] && !errorOccurred
    {
      reasons := [];
      errorOccurred := false;
    }

    /** A callback from the validating parser. Warnings are recorded but are no error. */
    method Report(issue: Issue)
      modifies this
      ensures reasons == old(reasons) + [issue.message]
      ensures errorOccurred == (old(errorOccurred) || issue.severity != Warning)
    {
      reasons := reasons + [issue.message];
      errorOccurred := errorOccurred || issue.severity != Warning;
    }

    /** addReason: an exception thrown out of the parser becomes one more reason. */
    method AddReason(t: Throwable)
      modifies this`reasons
      ensures reasons == old(reasons) + [t.message]
    {
      reasons := reasons + [t.message];
    }

    function GetReasons(): string
      reads this
    {
      FlatReport(reasons)
    }

    function GetXmlReasons(): string
      reads this
    {
      XmlReport(reasons)
    }
  }

  /** The messages of the issues a parser reports. */
  function Messages(issues: seq<Issue>): (r: seq<string>)
    ensures |r| == |issues|
    ensures forall i :: 0 <= i < |issues| ==> r[i] == issues[i].message
  {
    seq(|issues|, i requires 0 <= i < |issues| => issues[i].message)
  }

  /** Whether any reported issue is an error or a fatal error. */
  predicate AnyError(issues: seq<Issue>) {
    exists i :: 0 <= i < |issues| && issues[i].severity != Warning
  }

  /** The reason handleFailures adds for a throwable: none for null or for a
      SAXParseException, which the parser has already reported. */
  function ExtraReason(t: Option<Throwable>): seq<string> {
    if t.Some? && t.value.kind != SaxParseException then [t.value.message] else []
  }

  /** The session after the reason keys are cleared at the start of a validation: the
      configured (non-empty) keys are gone and nothing else changed. */
  function ClearReasons(m: map<string, string>, reasonKey: string, xmlReasonKey: string): (r: map<string, string>)
    ensures r.Keys == m.Keys - (if IsEmpty(reasonKey) then {} else {reasonKey})
                             - (if IsEmpty(xmlReasonKey) then {} else {xmlReasonKey})
    ensures forall k :: k in r ==> r[k] == m[k]
  {
    var m1 := if IsEmpty(reasonKey) then m else m - {reasonKey};
    if IsEmpty(xmlReasonKey) then m1 else m1 - {xmlReasonKey}
  }

  /** The session after a failure is reported: the flat report under the reason key and
      the structured one under the xml reason key, each only when that key is configured;
      the structured report wins when both keys are the same. */
  function StoreReasons(m: map<string, string>, reasonKey: string, xmlReasonKey: string,
                        flat: string, xml: string): (r: map<string, string>)
    ensures r.Keys == m.Keys + (if IsEmpty(reasonKey) then {} else {reasonKey})
                             + (if IsEmpty(xmlReasonKey) then {} else {xmlReasonKey})
    ensures !IsEmpty(xmlReasonKey) ==> r[xmlReasonKey] == xml
    ensures !IsEmpty(reasonKey) && reasonKey != xmlReasonKey ==> r[reasonKey] == flat
    ensures forall k :: k in m && k != reasonKey && k != xmlReasonKey ==> r[k] == m[k]
  {
    var m1 := if IsEmpty(reasonKey) then m else m[reasonKey := flat];
    if IsEmpty(xmlReasonKey) then m1 else m1[xmlReasonKey := xml]
  }

  /** Storing after clearing leaves no value from an earlier call under a configured key:
      each configured key holds the report of this call. */
  lemma StoreAfterClearIsFresh(m: map<string, string>, reasonKey: string, xmlReasonKey: string,
                               flat: string, xml: string)
    requires !IsEmpty(reasonKey) && reasonKey != xmlReasonKey
    ensures StoreReasons(ClearReasons(m, reasonKey, xmlReasonKey), reasonKey, xmlReasonKey, flat, xml)[reasonKey] == flat
  {
  }

  /** handleFailures: add a throwable that the parser did not report, store the reports
      under the configured keys, then throw or return the event. */
  method HandleFailures(errorHandler: XmlValidatorErrorHandler, session: PipeLineSession,
                        reasonSessionKey: string, xmlReasonSessionKey: string, throwException: bool,
                        event: string, t: Option<Throwable>)
    returns (r: Result<string, XmlValidatorException>)
    modifies errorHandler`reasons, session
    ensures errorHandler.reasons == old(errorHandler.reasons) + ExtraReason(t)
    ensures session.values == StoreReasons(old(session.values), reasonSessionKey, xmlReasonSessionKey,
                                           FlatReport(errorHandler.reasons), XmlReport(errorHandler.reasons))
    ensures r == if throwException then Failure(XmlValidatorException(FlatReport(errorHandler.reasons), t))
                 else Success(event)
  {
    if t.Some? && t.value.kind != SaxParseException {
      errorHandler.AddReason(t.value);
    }
    var fullReasons := errorHandler.GetReasons();
    if !IsEmpty(reasonSessionKey) {
      session.values := session.values[reasonSessionKey := fullReasons];
    }
    if !IsEmpty(xmlReasonSessionKey) {
      session.values := session.values[xmlReasonSessionKey := errorHandler.GetXmlReasons()];
    }
    if throwException {
      return Failure(XmlValidatorException(fullReasons, t));
    }
    r := Success(event);
  }
}
