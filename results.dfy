/** Outcomes of the client's operations.

    The Go client never returns an error value: every failure ends the test
    process through log.Fatalf (or a runtime panic).  Here that end is a
    distinguished outcome, Fatal, carrying the reason; nothing after it runs. */
module Results {

  datatype Option<T> = None | Some(value: T)

  /** Why the process stops. */
  datatype Failure =
    | MissingEnv(key: string)                     // LoadClient: required environment variable empty
    | UnexpectedStatus(code: int)                 // validateStatus: code not in the accepted set
    | Undecodable                                 // parseResponse: the body does not decode
    | NilDereference                              // GetBranchByName reads .Branches of a nil *Branches
    | ParentNotFound(name: string, parent: string) // CreateBranch: no parent branch of that name
    | RetriesExhausted                            // CreateBranch: every attempt answered Locked
    | IndexOutOfRange                             // UsingBranch: ConnectionURIs[0] of an empty list

  datatype Outcome<T> = Done(value: T) | Fatal(failure: Failure)
}
