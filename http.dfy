/**
 * FastAPI's HTTPException: a status code and a detail text. Its `str()` is
 * the status and the detail joined by ": ", which is what a handler sees
 * when it re-raises a caught HTTPException with `detail=str(e)`.
 */
module Http {
  import opened PythonSemantics

  datatype HttpException = HttpException(status: nat, detail: string)

  /** Status FastAPI answers when a declared parameter constraint fails. */
  const Unprocessable: nat := 422

  /**
   * The answer FastAPI gives, before the handler runs, when a declared
   * constraint of a parameter fails or a required form field is missing or
   * empty.
   */
  const ValidationFailed := HttpException(Unprocessable, "Unprocessable Entity")

  /** `str(e)` for an HTTPException. */
  function Str(e: HttpException): (s: string)
    ensures |s| > |e.detail| + 2
    ensures s[|s| - |e.detail|..] == e.detail
  {
    NatToString(e.status) + ": " + e.detail
  }
}
