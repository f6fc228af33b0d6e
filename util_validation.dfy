/** The legacy XML validator of the util package: its schema configuration, which must be
    (re)initialised after every schema setting, and the error handler policy it gives the
    schema loader. A Java null String is represented by the empty string throughout: every
    use the class makes of these strings goes through an emptiness test that treats null
    and "" alike. */
module UtilValidation {
  import opened Wrappers
  import opened Strings
  import opened ValidationSupport

  datatype ConfigurationException = ConfigurationException(message: string)

  const ConflictMessage := "cannot have schemaSessionKey together with schemaLocation or noNamespaceSchemaLocation"
  const MissingMessage := "must have either schemaSessionKey, schemaLocation or noNamespaceSchemaLocation"

  function NotFoundMessage(location: string): string {
    "could not find schema at [" + location + "]"
  }

  /** The three ways to name the schema. */
  datatype SchemaSources = SchemaSources(schemaLocation: string, noNamespaceSchemaLocation: string,
                                         schemaSessionKey: string)

  /** A session key may not be combined with a schema location. */
  predicate Conflicting(s: SchemaSources) {
    (!IsEmpty(s.noNamespaceSchemaLocation) || !IsEmpty(s.schemaLocation)) && !IsEmpty(s.schemaSessionKey)
  }

  predicate AllEmpty(s: SchemaSources) {
    IsEmpty(s.noNamespaceSchemaLocation) && IsEmpty(s.schemaLocation) && IsEmpty(s.schemaSessionKey)
  }

  /** The body of init when initialisation is needed: the sources afterwards and the error
      (without the log prefix), if any. resolveSchemaLocations and the class-path lookup of
      the no-namespace schema are parameters; a lookup that finds nothing is None. The
      schema location is rewritten before the lookup can fail, so a failure can leave it
      resolved. */
  function InitRun(s: SchemaSources, resolveSchemaLocations: string -> string,
                   getResourceUrl: string -> Option<string>): (r: (SchemaSources, Outcome<string>))
    ensures Conflicting(s) ==> r == (s, Fail(ConflictMessage))
    ensures !Conflicting(s) && !IsEmpty(s.noNamespaceSchemaLocation) && getResourceUrl(s.noNamespaceSchemaLocation).None? ==>
      r.1 == Fail(NotFoundMessage(s.noNamespaceSchemaLocation))
    ensures r.1 == Pass <==>
      !Conflicting(s) && (IsEmpty(s.noNamespaceSchemaLocation) || getResourceUrl(s.noNamespaceSchemaLocation).Some?)
      && !AllEmpty(r.0)
    ensures r.1 == Pass ==>
      r.0.schemaSessionKey == s.schemaSessionKey
      && r.0.schemaLocation == (if IsEmpty(s.schemaLocation) then s.schemaLocation else resolveSchemaLocations(s.schemaLocation))
      && r.0.noNamespaceSchemaLocation ==
           (if IsEmpty(s.noNamespaceSchemaLocation) then s.noNamespaceSchemaLocation
            else getResourceUrl(s.noNamespaceSchemaLocation).value)
    ensures var found := IsEmpty(s.noNamespaceSchemaLocation) || getResourceUrl(s.noNamespaceSchemaLocation).Some?;
      !Conflicting(s) && found && AllEmpty(r.0) ==> r.1 == Fail(MissingMessage)
    ensures !Conflicting(s) ==> !Conflicting(r.0)
  {
    if Conflicting(s) then (s, Fail(ConflictMessage))
    else
      var s1 := if IsEmpty(s.schemaLocation) then s
                else s.(schemaLocation := resolveSchemaLocations(s.schemaLocation));
      if !IsEmpty(s1.noNamespaceSchemaLocation) && getResourceUrl(s1.noNamespaceSchemaLocation).None? then
        (s1, Fail(NotFoundMessage(s1.noNamespaceSchemaLocation)))
      else
        var s2 := if IsEmpty(s1.noNamespaceSchemaLocation) then s1
                  else s1.(noNamespaceSchemaLocation := getResourceUrl(s1.noNamespaceSchemaLocation).value);
        if AllEmpty(s2) then (s2, Fail(MissingMessage)) else (s2, Pass)
  }

  /** A successful initialisation leaves a schema to validate against, named in exactly one
      of the two ways: by session key, or by location. */
  lemma InitSuccessNamesOneKindOfSchema(s: SchemaSources, resolveSchemaLocations: string -> string,
                                        getResourceUrl: string -> Option<string>)
    requires InitRun(s, resolveSchemaLocations, getResourceUrl).1 == Pass
    ensures var after := InitRun(s, resolveSchemaLocations, getResourceUrl).0;
      IsEmpty(after.schemaSessionKey) <==> !IsEmpty(after.schemaLocation) || !IsEmpty(after.noNamespaceSchemaLocation)
  {
  }

  class AbstractXmlValidator {
    var schemaLocation: string
    var noNamespaceSchemaLocation: string
    var schemaSessionKey: string
    var throwException: bool
    var fullSchemaChecking: bool
    var reasonSessionKey: string
    var xmlReasonSessionKey: string
    var root: string
    var singleLeafValidations: Option<set<seq<string>>>
    var needsInit: bool
    var lazyInit: bool
    var logPrefix: string
    var ignoreUnknownNamespaces: Option<bool>

    /** The defaults; lazyInit comes from the xmlValidator.lazyInit application property. */
    constructor (lazyInitProperty: bool)
      ensures schemaLocation == "" && noNamespaceSchemaLocation == "" && schemaSessionKey == ""
      ensures !throwException && !fullSchemaChecking
      ensures reasonSessionKey == "failureReason" && xmlReasonSessionKey == "xmlFailureReason"
      ensures root == "" && singleLeafValidations == None && ignoreUnknownNamespaces == None
      ensures needsInit && lazyInit == lazyInitProperty && logPrefix == ""
    {
      schemaLocation := "";
      noNamespaceSchemaLocation := "";
      schemaSessionKey := "";
      throwException := false;
      fullSchemaChecking := false;
      reasonSessionKey := "failureReason";
      xmlReasonSessionKey := "xmlFailureReason";
      root := "";
      singleLeafValidations := None;
      needsInit := true;
      lazyInit := lazyInitProperty;
      logPrefix := "";
      ignoreUnknownNamespaces := None;
    }

    function Sources(): SchemaSources
      reads this
    {
      SchemaSources(schemaLocation, noNamespaceSchemaLocation, schemaSessionKey)
    }

    /** init: nothing to do unless initialisation is needed; otherwise check and resolve the
        schema sources, and only a successful run clears needsInit. */
    method Init(resolveSchemaLocations: string -> string, getResourceUrl: string -> Option<string>)
      returns (r: Outcome<ConfigurationException>)
      modifies this`schemaLocation, this`noNamespaceSchemaLocation, this`needsInit
      ensures !old(needsInit) ==> r == Pass && !needsInit && Sources() == old(Sources())
      ensures old(needsInit) ==>
        var run := InitRun(old(Sources()), resolveSchemaLocations, getResourceUrl);
        Sources() == run.0
        && r == (if run.1.Pass? then Pass else Fail(ConfigurationException(logPrefix + run.1.error)))
        && needsInit == run.1.Fail?
    {
      if !needsInit {
        return Pass;
      }
      if (!IsEmpty(noNamespaceSchemaLocation) || !IsEmpty(schemaLocation)) && !IsEmpty(schemaSessionKey) {
        return Fail(ConfigurationException(logPrefix + ConflictMessage));
      }
      if !IsEmpty(schemaLocation) {
        var resolvedLocations := resolveSchemaLocations(schemaLocation);
        SetSchemaLocation(resolvedLocations);
      }
      if !IsEmpty(noNamespaceSchemaLocation) {
        var url := getResourceUrl(noNamespaceSchemaLocation);
        if url.None? {
          return Fail(ConfigurationException(logPrefix + NotFoundMessage(noNamespaceSchemaLocation)));
        }
        SetNoNamespaceSchemaLocation(url.value);
      }
      if IsEmpty(noNamespaceSchemaLocation) && IsEmpty(schemaLocation) && IsEmpty(schemaSessionKey) {
        return Fail(ConfigurationException(logPrefix + MissingMessage));
      }
      needsInit := false;
      r := Pass;
    }

    /** configure: initialise at once unless initialisation is lazy. */
    method Configure(logPrefix: string, resolveSchemaLocations: string -> string,
                     getResourceUrl: string -> Option<string>)
      returns (r: Outcome<ConfigurationException>)
      modifies this`logPrefix, this`schemaLocation, this`noNamespaceSchemaLocation, this`needsInit
      ensures this.logPrefix == logPrefix
      ensures lazyInit ==> r == Pass && needsInit == old(needsInit) && Sources() == old(Sources())
      ensures !lazyInit && old(needsInit) ==>
        var run := InitRun(old(Sources()), resolveSchemaLocations, getResourceUrl);
        Sources() == run.0
        && r == (if run.1.Pass? then Pass else Fail(ConfigurationException(logPrefix + run.1.error)))
        && needsInit == run.1.Fail?
      ensures !lazyInit && !old(needsInit) ==> r == Pass && !needsInit && Sources() == old(Sources())
    {
      this.logPrefix := logPrefix;
      r := Pass;
      if !lazyInit {
        r := Init(resolveSchemaLocations, getResourceUrl);
      }
    }

    method SetFullSchemaChecking(fullSchemaChecking: bool)
      modifies this`fullSchemaChecking, this`needsInit
      ensures this.fullSchemaChecking == fullSchemaChecking && needsInit
    {
      this.fullSchemaChecking := fullSchemaChecking;
      needsInit := true;
    }

    /** setSchema: another name for the no-namespace schema location. */
    method SetSchema(schema: string)
      modifies this`noNamespaceSchemaLocation, this`needsInit
      ensures noNamespaceSchemaLocation == schema && needsInit
    {
      SetNoNamespaceSchemaLocation(schema);
      needsInit := true;
    }

    method SetSchemaLocation(schemaLocation: string)
      modifies this`schemaLocation, this`needsInit
      ensures this.schemaLocation == schemaLocation && needsInit
    {
      this.schemaLocation := schemaLocation;
      needsInit := true;
    }

    method SetNoNamespaceSchemaLocation(noNamespaceSchemaLocation: string)
      modifies this`noNamespaceSchemaLocation, this`needsInit
      ensures this.noNamespaceSchemaLocation == noNamespaceSchemaLocation && needsInit
    {
      this.noNamespaceSchemaLocation := noNamespaceSchemaLocation;
      needsInit := true;
    }

    /** setSchemaSessionKey is the one schema setter that does not re-arm initialisation. */
    method SetSchemaSessionKey(schemaSessionKey: string)
      modifies this`schemaSessionKey
      ensures this.schemaSessionKey == schemaSessionKey
    {
      this.schemaSessionKey := schemaSessionKey;
    }

    /** setSchemaSession: the deprecated name of schemaSessionKey, which does re-arm it. */
    method SetSchemaSession(schemaSessionKey: string)
      modifies this`schemaSessionKey, this`needsInit
      ensures this.schemaSessionKey == schemaSessionKey && needsInit
    {
      this.schemaSessionKey := schemaSessionKey;
      needsInit := true;
    }

    /** setRoot: the root also becomes the one-element path of a single-leaf validation. */
    method SetRoot(root: string)
      modifies this`root, this`singleLeafValidations
      ensures this.root == root
      ensures singleLeafValidations == Some(old(singleLeafValidations).GetOr({}) + {[root]})
    {
      this.root := root;
      var path := [root];
      AddSingleLeafValidation(path);
    }

    /** addSingleLeafValidation: the set is created on first use and only grows. */
    method AddSingleLeafValidation(path: seq<string>)
      modifies this`singleLeafValidations
      ensures singleLeafValidations == Some(old(singleLeafValidations).GetOr({}) + {path})
    {
      if singleLeafValidations.None? {
        singleLeafValidations := Some({});
      }
      singleLeafValidations := Some(singleLeafValidations.value + {path});
    }

    method SetIgnoreUnknownNamespaces(b: bool)
      modifies this`ignoreUnknownNamespaces
      ensures ignoreUnknownNamespaces == Some(b)
    {
      ignoreUnknownNamespaces := Some(b);
    }

    /** getIgnoreUnknownNamespaces: an explicit setting wins; without one, unknown namespaces
        are ignored exactly when no schemaLocation (with its namespace mapping) is given. */
    function GetIgnoreUnknownNamespaces(): (r: bool)
      reads this
      ensures ignoreUnknownNamespaces.Some? ==> r == ignoreUnknownNamespaces.value
      ensures ignoreUnknownNamespaces.None? ==> (r <==> IsEmpty(schemaLocation))
    {
      if ignoreUnknownNamespaces.None? then IsEmpty(schemaLocation) else ignoreUnknownNamespaces.value
    }

    method HandleFailures(errorHandler: XmlValidatorErrorHandler, session: PipeLineSession, event: string,
                          t: Option<Throwable>)
      returns (r: Result<string, XmlValidatorException>)
      modifies errorHandler`reasons, session
      ensures errorHandler.reasons == old(errorHandler.reasons) + ExtraReason(t)
      ensures session.values == StoreReasons(old(session.values), reasonSessionKey, xmlReasonSessionKey,
                                             FlatReport(errorHandler.reasons), XmlReport(errorHandler.reasons))
      ensures r == if throwException then Failure(XmlValidatorException(FlatReport(errorHandler.reasons), t))
                   else Success(event)
    {
      r := ValidationSupport.HandleFailures(errorHandler, session, reasonSessionKey, xmlReasonSessionKey,
                                            throwException, event, t);
    }
  }

  /** init is idempotent: once it succeeds, a second init finds nothing left to do and
      changes nothing. */
  method InitTwice(v: AbstractXmlValidator, resolveSchemaLocations: string -> string,
                   getResourceUrl: string -> Option<string>)
    returns (first: Outcome<ConfigurationException>, second: Outcome<ConfigurationException>)
    modifies v
    ensures first.Pass? ==> second == Pass && !v.needsInit
    ensures first.Pass? && old(v.needsInit) ==>
      v.Sources() == InitRun(old(v.Sources()), resolveSchemaLocations, getResourceUrl).0
  {
    first := v.Init(resolveSchemaLocations, getResourceUrl);
    second := v.Init(resolveSchemaLocations, getResourceUrl);
  }

  // ---- MyErrorHandler: the error handler given to the schema loader ----

  const XmlXsdReferencePrefix := "schema_reference.4: Failed to read schema document 'http://www.w3.org/2001/xml.xsd'"
  const SchemaReferencePrefix := "schema_reference.4: Failed to read schema document '"

  /** The schema http://www.w3.org/2001/xml.xsd, which the SOAP envelope schemas import,
      could not be read. */
  predicate IsXmlXsdReference(message: Option<string>) {
    message.Some? && StartsWith(message.value, XmlXsdReferencePrefix)
  }

  /** Some schema document could not be read. */
  predicate IsSchemaReference(message: Option<string>) {
    message.Some? && StartsWith(message.value, SchemaReferencePrefix)
  }

  lemma XmlXsdReferenceIsSchemaReference(message: Option<string>)
    ensures IsXmlXsdReference(message) ==> IsSchemaReference(message)
  {
    if IsXmlXsdReference(message) {
      assert SchemaReferencePrefix <= XmlXsdReferencePrefix by {
        assert XmlXsdReferencePrefix[..|SchemaReferencePrefix|] == SchemaReferencePrefix;
      }
    }
  }

  /** What leaves the handler: the parse exception itself, a RetryException, or an
      XNIException, each with the parse exception's message. */
  datatype Thrown = Rethrown(message: Option<string>) | RetryException(message: Option<string>)
                  | XniException(message: Option<string>)

  /** The effect of one callback: the messages it adds to the configuration warnings, in
      order, and what it throws. */
  datatype Effect = Effect(warnings: seq<Option<string>>, thrown: Option<Thrown>)

  /** The global configuration warnings, as far as the handler adds to them. */
  class ConfigurationWarnings {
    var warnings: seq<Option<string>>

    constructor ()
      ensures warnings == []
    {
      warnings := [];
    }
  }

  class MyErrorHandler {
    var throwRetryException: bool
    var warn: bool

    constructor ()
      ensures !throwRetryException && warn
    {
      throwRetryException := false;
      warn := true;
    }

    /** warning: record the message unless warnings are off or it is the xml.xsd case. */
    function OnWarning(message: Option<string>): (e: Effect)
      reads this
      ensures e.thrown == None
      ensures e.warnings == [] <==> !warn || IsXmlXsdReference(message)
      ensures e.warnings != [] ==> e.warnings == [message]
    {
      if warn && !IsXmlXsdReference(message) then Effect([message], None) else Effect([], None)
    }

    /** error: a schema that cannot be read stops the adapter from starting; otherwise a
        retry is requested when so configured, and the message is recorded when not. */
    function OnError(message: Option<string>): (e: Effect)
      reads this
      ensures IsSchemaReference(message) ==> e == Effect([], Some(Rethrown(message)))
      ensures !IsSchemaReference(message) && throwRetryException ==> e == Effect([], Some(RetryException(message)))
      ensures e.thrown == None <==> !IsSchemaReference(message) && !throwRetryException
      ensures e.thrown == None ==> (e.warnings == [] <==> !warn)
      ensures e.warnings != [] ==> e.warnings == [message]
    {
      if IsSchemaReference(message) then Effect([], Some(Rethrown(message)))
      else if throwRetryException then Effect([], Some(RetryException(message)))
      else if warn then Effect([message], None)
      else Effect([], None)
    }

    /** fatalError: always throws, after recording the message when warnings are on. */
    function OnFatalError(message: Option<string>): (e: Effect)
      reads this
      ensures e.thrown == Some(XniException(message))
      ensures e.warnings == (if warn then [message] else [])
    {
      Effect(if warn then [message] else [], Some(XniException(message)))
    }

    method Warning(message: Option<string>, configurationWarnings: ConfigurationWarnings) returns (thrown: Option<Thrown>)
      modifies configurationWarnings
      ensures configurationWarnings.warnings == old(configurationWarnings.warnings) + OnWarning(message).warnings
      ensures thrown == OnWarning(message).thrown
    {
      if warn && !(message.Some? && StartsWith(message.value, XmlXsdReferencePrefix)) {
        configurationWarnings.warnings := configurationWarnings.warnings + [message];
      }
      thrown := None;
    }

    method Error(message: Option<string>, configurationWarnings: ConfigurationWarnings) returns (thrown: Option<Thrown>)
      modifies configurationWarnings
      ensures configurationWarnings.warnings == old(configurationWarnings.warnings) + OnError(message).warnings
      ensures thrown == OnError(message).thrown
    {
      if message.Some? && StartsWith(message.value, SchemaReferencePrefix) {
        return Some(Rethrown(message));
      }
      if throwRetryException {
        return Some(RetryException(message));
      }
      if warn {
        configurationWarnings.warnings := configurationWarnings.warnings + [message];
      }
      thrown := None;
    }

    method FatalError(message: Option<string>, configurationWarnings: ConfigurationWarnings) returns (thrown: Option<Thrown>)
      modifies configurationWarnings
      ensures configurationWarnings.warnings == old(configurationWarnings.warnings) + OnFatalError(message).warnings
      ensures thrown == OnFatalError(message).thrown
    {
      if warn {
        configurationWarnings.warnings := configurationWarnings.warnings + [message];
      }
      thrown := Some(XniException(message));
    }

    /** The xml.xsd case is silent only as a warning: reported as an error it still stops
        the loader, whatever the handler's settings. */
    lemma XmlXsdErrorIsRethrown(message: Option<string>)
      requires IsXmlXsdReference(message)
      ensures OnWarning(message) == Effect([], None)
      ensures OnError(message) == Effect([], Some(Rethrown(message)))
    {
      XmlXsdReferenceIsSchemaReference(message);
    }
  }
}
