/** The exceptions that can escape an endpoint call in this core, as one closed
    set of variants. None of them is caught inside the core: each reaches the
    caller unchanged. */
module Errors {
  import Templates

  datatype Error =
    | MissingArgument(name: string)            // KeyError: a declared argument name absent from the call's kwargs
    | TemplateError(cause: Templates.FormatError)  // str.format raised while filling the path template
    | TransportError(reason: string)           // the session's send raised
    | BodyNotJson(reason: string)              // response.json() raised: the body is not JSON
    | SessionNotPassed                         // TypeError: Function() called without its required session
    | NotBound                                 // AttributeError: the endpoint's function is still None

}
