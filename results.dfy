/** Failure-carrying values shared by every component: the Go code returns
    `(value, error)` pairs, modelled here as `Result`. */
module Results {

  datatype Option<+T> = None | Some(value: T)

  /** The errors the core can produce.  `Wrapped` is Go's `fmt.Errorf("...: %w", err)`:
      the cause is kept and a context string is put in front of it. */
  datatype Error =
    | GatewayError                         // the remote call failed (status, transport, empty payload)
    | ParseError(template: string)         // text/template could not parse the named template
    | ExecError(template: string)          // text/template could not execute the named template
    | NoMatch                              // "no matching prompt found"
    | Wrapped(context: string, cause: Error)

  datatype Result<+T> = Ok(value: T) | Err(error: Error)
}
