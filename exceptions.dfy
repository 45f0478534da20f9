/** The DISCO exception hierarchy and the table that maps its exceptions to
    process error codes. Python classes are modelled as values: the DISCO classes
    by name, any further subclass of the DISCO base class by its name, and any
    class outside the hierarchy by its name. */
module Exceptions {
  import opened Wrappers

  /** The exception classes DISCO defines. */
  datatype DiscoClass =
    | DiscoBaseException
    | AnalysisRunException
    | AnalysisConfigurationException
    | ExceededParallelLinesLimit
    | ExceededParallelTransformersLimit
    | UpgradesInvalidViolationIncrease
    | OpenDssCompileError
    | OpenDssConvergenceError
    | PyDssConvergenceError
    | PyDssConvergenceErrorCountExceeded
    | PyDssConvergenceMaxError
    | UpgradesExternalCatalogRequired
    | UpgradesExternalCatalogMissingEquipmentType
    | InvalidOpenDssElementError

  /** An exception class as the lookup sees it. A class derived from a DISCO class
      without being one of them is `DiscoSubclass`: the table matches classes
      exactly, so it never finds such a class. */
  datatype ExceptionClass =
    | Disco(cls: DiscoClass)
    | DiscoSubclass(name: string)
    | Foreign(name: string)

  predicate IsDiscoException(c: ExceptionClass) {
    !c.Foreign?
  }

  datatype ErrorInfo = ErrorInfo(description: string, errorCode: int)

  /** The code returned for a DISCO exception the table does not list. */
  const GenericErrorCode: int := 1

  const ErrorCodes: map<DiscoClass, ErrorInfo> := map[
    AnalysisConfigurationException := ErrorInfo("The input configuration is invalid.", 114),
    ExceededParallelLinesLimit := ErrorInfo("An Upgrades simulation exceeded the limit for parallel lines.", 115),
    ExceededParallelTransformersLimit := ErrorInfo("An Upgrades simulation exceeded the limit for parallel transformers.", 116),
    InvalidOpenDssElementError := ErrorInfo("An OpenDSS element has unexpected properties.", 117),
    OpenDssCompileError := ErrorInfo("OpenDSS failed to compile a model.", 118),
    OpenDssConvergenceError := ErrorInfo("OpenDSS failed to find a solution.", 119),
    PyDssConvergenceError := ErrorInfo("PyDSS failed to find a solution in its external controls.", 120),
    PyDssConvergenceErrorCountExceeded := ErrorInfo("PyDSS external controls exceeded the threshold for error counts.", 121),
    PyDssConvergenceMaxError := ErrorInfo("PyDSS external controls exceeded the max tolerance error threshold.", 122),
    UpgradesExternalCatalogRequired := ErrorInfo("An Upgrades simulation requires an external catalog in order to add or modify a component.", 123),
    UpgradesExternalCatalogMissingEquipmentType := ErrorInfo("The Upgrades external catalog is missing an equipment type.", 124),
    UpgradesInvalidViolationIncrease := ErrorInfo("An Upgrades simulation detected an invalid increase in violations.", 125)
  ]

  /** Raised for a class outside the DISCO hierarchy. */
  datatype LookupError = NotHandled(cls: ExceptionClass)

  /** The error code of an exception class: the table's code for a listed class,
      the generic code for any other DISCO class, an error for a foreign class. */
  function GetErrorCodeFromException(c: ExceptionClass): (r: Result<int, LookupError>)
    ensures r.Err? <==> !IsDiscoException(c)
    ensures r.Err? ==> r.error == NotHandled(c)
    ensures r.Ok? && c.Disco? && c.cls in ErrorCodes ==> r.value == ErrorCodes[c.cls].errorCode
    ensures r.Ok? && !(c.Disco? && c.cls in ErrorCodes) ==> r.value == GenericErrorCode
  {
    if !IsDiscoException(c) then Err(NotHandled(c))
    else if c.Disco? && c.cls in ErrorCodes then Ok(ErrorCodes[c.cls].errorCode)
    else Ok(GenericErrorCode)
  }

  /** The codes that mean a solver failed to converge. */
  predicate IsConvergenceError(errorCode: int) {
    errorCode in {119, 120, 121, 122}
  }

  /** Every listed class has its own code, and the codes are 114 to 125: none of
      them is the generic code or success. */
  lemma ErrorCodesDistinct(a: DiscoClass, b: DiscoClass)
    requires a in ErrorCodes && b in ErrorCodes && a != b
    ensures ErrorCodes[a].errorCode != ErrorCodes[b].errorCode
  {
  }

  lemma ErrorCodesInRange(a: DiscoClass)
    requires a in ErrorCodes
    ensures 114 <= ErrorCodes[a].errorCode <= 125
    ensures ErrorCodes[a].errorCode != GenericErrorCode && ErrorCodes[a].errorCode != 0
  {
  }

  /** The classes the table leaves out: the base class and the analysis-run error. */
  lemma UnlistedClasses(a: DiscoClass)
    ensures a !in ErrorCodes <==> a == DiscoBaseException || a == AnalysisRunException
  {
  }

  /** A DISCO exception's code is never success. */
  lemma ErrorCodeNeverSuccess(c: ExceptionClass)
    requires IsDiscoException(c)
    ensures GetErrorCodeFromException(c).Ok? && GetErrorCodeFromException(c).value != 0
  {
    if c.Disco? && c.cls in ErrorCodes {
      ErrorCodesInRange(c.cls);
    }
  }

  /** The code of an exception class says "convergence error" exactly for the
      four solver-convergence classes. */
  lemma ConvergenceClasses(c: ExceptionClass)
    requires IsDiscoException(c)
    ensures IsConvergenceError(GetErrorCodeFromException(c).value) <==>
      c in {Disco(OpenDssConvergenceError), Disco(PyDssConvergenceError),
            Disco(PyDssConvergenceErrorCountExceeded), Disco(PyDssConvergenceMaxError)}
  {
  }
}
