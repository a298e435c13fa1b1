/** The promise `build` returns: it settles on the build process's `close` event. */
module Build {
  import opened JsValue

  /** How the promise settles. */
  datatype Settlement = Resolved | Rejected(reason: Value)

  /** The `close` handler: a falsy close code resolves the promise, and any other code rejects
      it with that code as the reason. The code is a number, or `null` when the process was
      ended by a signal. */
  function BuildSettles(code: Value): (r: Settlement)
    ensures r.Resolved? <==> !Truthy(code)
    ensures r.Rejected? ==> r.reason == code
  {
    if !Truthy(code) then Resolved else Rejected(code)
  }

  /** For a numeric exit status the build succeeds exactly on 0 and otherwise rejects with the
      status; a build killed by a signal closes with `null` and counts as a success. */
  lemma BuildExitCodes(n: int)
    ensures BuildSettles(Num(n)) == (if n == 0 then Resolved else Rejected(Num(n)))
    ensures BuildSettles(Null) == Resolved
    ensures BuildSettles(Undefined) == Resolved
  {
  }
}
