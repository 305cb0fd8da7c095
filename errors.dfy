/** The error kinds the messenger and the command router raise or pass on
    (the variants of the core's `TError` that these two files use). */
module Errors {

  datatype TError =
    /** `dispatch` met a command string it does not route; carries that string. */
    | MissingCommand(command: string)
    /** A required envelope field or collaborator is absent. */
    | MissingField(message: string)
    /** A recognised field carries a value the router does not support. */
    | BadValue(message: string)
    /** A non-blocking receive found no pending message. */
    | TryAgain
    /** A path lookup in a JSON value failed: nothing at `path`, or a value of
        the wrong type there. */
    | JsonPath(path: seq<string>)
    /** Any other failure a collaborator or the transport reports. */
    | Other(message: string)
}
