/** The base class of the XML validators of the core package: lazy initialisation, the
    per-call validation context, and the classification of a validation's outcome. */
module CoreValidation {
  import opened Wrappers
  import opened Strings
  import opened ValidationSupport

  const ParserErrorEvent := "Invalid XML: parser error"
  const NotValidEvent := "Invalid XML: does not comply to XSD"
  const ValidEvent := "valid XML"

  /** What the validating parser does with one input: the issues it reports to the error
      handler, in order, and the exception it throws at the end, if any. */
  datatype ParseRun = ParseRun(reported: seq<Issue>, thrown: Option<Throwable>)

  /** An XMLReader as far as this class touches it: how it runs, and whether the resolver
      that refuses external entities is installed. */
  datatype XmlReader = XmlReader(run: ParseRun, externalEntitiesBlocked: bool)

  /** finalizeValidation's classification: a throwable is a parser error, otherwise a
      recorded error makes the document not valid, otherwise it is valid. */
  function Classify(t: Option<Throwable>, errorOccurred: bool): (event: string)
    ensures event == ParserErrorEvent <==> t.Some?
    ensures event == NotValidEvent <==> t.None? && errorOccurred
    ensures event == ValidEvent <==> t.None? && !errorOccurred
  {
    if t.Some? then ParserErrorEvent
    else if errorOccurred then NotValidEvent
    else ValidEvent
  }

  /** What finalizeValidation returns or throws, given the error handler's state after
      parsing: only a failure is reported, and it is thrown iff throwException is set. */
  function FinalResult(throwException: bool, t: Option<Throwable>, errorOccurred: bool,
                       reasonsAfterParse: seq<string>): (r: Result<string, XmlValidatorException>)
    ensures r.Failure? <==> throwException && (t.Some? || errorOccurred)
    ensures r.Failure? ==> r.error == XmlValidatorException(FlatReport(reasonsAfterParse + ExtraReason(t)), t)
    ensures r.Success? ==> r.value == Classify(t, errorOccurred)
  {
    var event := Classify(t, errorOccurred);
    if event == ValidEvent then Success(ValidEvent)
    else if throwException then Failure(XmlValidatorException(FlatReport(reasonsAfterParse + ExtraReason(t)), t))
    else Success(event)
  }

  class AbstractXmlValidator {
    var throwException: bool
    var fullSchemaChecking: bool
    var reasonSessionKey: string
    var xmlReasonSessionKey: string
    var needsInit: bool
    var lazyInit: bool
    var logPrefix: string

    /** The defaults; lazyInit comes from the xmlValidator.lazyInit application property. */
    constructor (lazyInitProperty: bool)
      ensures !throwException && !fullSchemaChecking
      ensures reasonSessionKey == "failureReason" && xmlReasonSessionKey == "xmlFailureReason"
      ensures needsInit && lazyInit == lazyInitProperty && logPrefix == ""
    {
      throwException := false;
      fullSchemaChecking := false;
      reasonSessionKey := "failureReason";
      xmlReasonSessionKey := "xmlFailureReason";
      needsInit := true;
      lazyInit := lazyInitProperty;
      logPrefix := "";
    }

    /** configure: initialise at once unless initialisation is lazy. */
    method Configure(logPrefix: string)
      modifies this`logPrefix, this`needsInit
      ensures this.logPrefix == logPrefix
      ensures needsInit == (old(needsInit) && lazyInit)
    {
      this.logPrefix := logPrefix;
      if !lazyInit {
        Init();
      }
    }

    method Init()
      modifies this`needsInit
      ensures !needsInit
    {
      if needsInit {
        needsInit := false;
      }
    }

    method Reset()
      modifies this`needsInit
      ensures needsInit
    {
      if !needsInit {
        needsInit := true;
      }
    }

    /** createValidationContext: clear the reasons a previous call left in the session. */
    method CreateValidationContext(session: PipeLineSession)
      modifies session
      ensures session.values == ClearReasons(old(session.values), reasonSessionKey, xmlReasonSessionKey)
    {
      if !IsEmpty(reasonSessionKey) {
        session.values := session.values - {reasonSessionKey};
      }
      if !IsEmpty(xmlReasonSessionKey) {
        session.values := session.values - {xmlReasonSessionKey};
      }
    }

    /** getValidatingParser: the parser createValidatingParser made, with external entities
        refused unless they are to be resolved. */
    method GetValidatingParser(created: XmlReader, resolveExternalEntities: bool) returns (parser: XmlReader)
      ensures parser.run == created.run
      ensures parser.externalEntitiesBlocked == (!resolveExternalEntities || created.externalEntitiesBlocked)
    {
      parser := created;
      if !resolveExternalEntities {
        parser := parser.(externalEntitiesBlocked := true);
      }
    }

    method HandleFailures(errorHandler: XmlValidatorErrorHandler, session: PipeLineSession, event: string,
                          t: Option<Throwable>)
      returns (r: Result<string, XmlValidatorException>)
      modifies errorHandler`reasons, session
      ensures errorHandler.reasons == old(errorHandler.reasons) + ExtraReason(t)
      ensures session.values == StoreReasons(old(session.values), reasonSessionKey, xmlReasonSessionKey,
                                             FlatReport(errorHandler.reasons), XmlReport(errorHandler.reasons))
      ensures r == if throwException then Failure(XmlValidatorException(FlatReport(errorHandler.reasons), t))
                   else Success(event)
    {
      r := ValidationSupport.HandleFailures(errorHandler, session, reasonSessionKey, xmlReasonSessionKey,
                                            throwException, event, t);
    }

    /** finalizeValidation: classify, and report every outcome but a valid one. */
    method FinalizeValidation(errorHandler: XmlValidatorErrorHandler, session: PipeLineSession,
                              t: Option<Throwable>)
      returns (r: Result<string, XmlValidatorException>)
      modifies errorHandler`reasons, session
      ensures r == FinalResult(throwException, t, errorHandler.errorOccurred, old(errorHandler.reasons))
      ensures Classify(t, errorHandler.errorOccurred) == ValidEvent ==>
        errorHandler.reasons == old(errorHandler.reasons) && session.values == old(session.values)
      ensures Classify(t, errorHandler.errorOccurred) != ValidEvent ==>
        errorHandler.reasons == old(errorHandler.reasons) + ExtraReason(t)
        && session.values == StoreReasons(old(session.values), reasonSessionKey, xmlReasonSessionKey,
                                          FlatReport(errorHandler.reasons), XmlReport(errorHandler.reasons))
    {
      if t.Some? {
        r := HandleFailures(errorHandler, session, ParserErrorEvent, t);
        return;
      }
      if errorHandler.errorOccurred {
        r := HandleFailures(errorHandler, session, NotValidEvent, None);
        return;
      }
      r := Success(ValidEvent);
    }

    /** validate with a parser: the parser reports its issues to the error handler, and an
        exception out of parse is handed to finalizeValidation. */
    method ValidateWith(parser: XmlReader, errorHandler: XmlValidatorErrorHandler, session: PipeLineSession)
      returns (r: Result<string, XmlValidatorException>)
      modifies errorHandler, session
      ensures errorHandler.errorOccurred == (old(errorHandler.errorOccurred) || AnyError(parser.run.reported))
      ensures r == FinalResult(throwException, parser.run.thrown, errorHandler.errorOccurred,
                               old(errorHandler.reasons) + Messages(parser.run.reported))
      ensures Classify(parser.run.thrown, errorHandler.errorOccurred) == ValidEvent ==>
        errorHandler.reasons == old(errorHandler.reasons) + Messages(parser.run.reported)
        && session.values == old(session.values)
      ensures Classify(parser.run.thrown, errorHandler.errorOccurred) != ValidEvent ==>
        errorHandler.reasons == old(errorHandler.reasons) + Messages(parser.run.reported) + ExtraReason(parser.run.thrown)
        && session.values == StoreReasons(old(session.values), reasonSessionKey, xmlReasonSessionKey,
                                          FlatReport(errorHandler.reasons), XmlReport(errorHandler.reasons))
    {
      var issues := parser.run.reported;
      var i := 0;
      while i < |issues|
        invariant 0 <= i <= |issues|
        invariant errorHandler.reasons == old(errorHandler.reasons) + Messages(issues[..i])
        invariant errorHandler.errorOccurred == (old(errorHandler.errorOccurred) || AnyError(issues[..i]))
        invariant session.values == old(session.values)
      {
        errorHandler.Report(issues[i]);
        assert issues[..i + 1] == issues[..i] + [issues[i]];
        assert Messages(issues[..i + 1]) == Messages(issues[..i]) + [issues[i].message];
        assert AnyError(issues[..i + 1]) == (AnyError(issues[..i]) || issues[i].severity != Warning) by {
          if issues[i].severity != Warning {
            assert issues[..i + 1][i] == issues[i];
          }
          if AnyError(issues[..i]) {
            var j :| 0 <= j < i && issues[..i][j].severity != Warning;
            assert issues[..i + 1][j] == issues[..i][j];
          }
        }
        i := i + 1;
      }
      assert issues[..|issues|] == issues;
      r := FinalizeValidation(errorHandler, session, parser.run.thrown);
    }

    /** validate: clear the session's reasons, get the parser, validate. With the fresh error
        handler each call gets, a configured reason key afterwards holds exactly this call's
        reasons when it failed and nothing when it was valid. */
    method Validate(created: XmlReader, errorHandler: XmlValidatorErrorHandler, session: PipeLineSession,
                    resolveExternalEntities: bool)
      returns (r: Result<string, XmlValidatorException>)
      requires errorHandler.reasons == [] && !errorHandler.errorOccurred
      modifies errorHandler, session
      ensures r == FinalResult(throwException, created.run.thrown, AnyError(created.run.reported),
                               Messages(created.run.reported))
      ensures !IsEmpty(reasonSessionKey) && reasonSessionKey != xmlReasonSessionKey ==>
        (reasonSessionKey in session.values <==>
           Classify(created.run.thrown, AnyError(created.run.reported)) != ValidEvent)
        && (reasonSessionKey in session.values ==>
              session.values[reasonSessionKey] ==
                FlatReport(Messages(created.run.reported) + ExtraReason(created.run.thrown)))
      ensures !IsEmpty(xmlReasonSessionKey) ==>
        (xmlReasonSessionKey in session.values <==>
           Classify(created.run.thrown, AnyError(created.run.reported)) != ValidEvent)
        && (xmlReasonSessionKey in session.values ==>
              session.values[xmlReasonSessionKey] ==
                XmlReport(Messages(created.run.reported) + ExtraReason(created.run.thrown)))
      ensures forall k :: k != reasonSessionKey && k != xmlReasonSessionKey ==>
        (k in session.values <==> k in old(session.values))
        && (k in session.values ==> session.values[k] == old(session.values)[k])
    {
      CreateValidationContext(session);
      var parser := GetValidatingParser(created, resolveExternalEntities);
      r := ValidateWith(parser, errorHandler, session);
      assert [] + Messages(created.run.reported) == Messages(created.run.reported);
    }
  }
}
