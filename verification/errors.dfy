/** Errors as the program carries them: a failure reported by the operating
    system or the HTTP transport, a plain message, or an error wrapped with a
    line of context (each wrapping keeps the error it wraps). */
module Errors {

  datatype Error =
    | Io(cause: string)
    | Message(text: string)
    | Context(context: string, inner: Error)
    /** A command line the argument parser itself refuses. */
    | Usage
}
