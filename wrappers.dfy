/** Failure-carrying values used across the model, and the errors the program returns. */
module Wrappers {

  datatype Option<+T> = None | Some(value: T)

  datatype Result<+R, +E> = Success(value: R) | Failure(error: E)

  /** The errors the program can return. Go builds them with errors.New and wraps
      them with fmt.Errorf("<context> -- %w", cause); Wrapped keeps that context. */
  datatype Error =
    | NotImplemented              // errors.New("not implemented") of the stubbed driver calls
    | NoRows                      // sql.ErrNoRows from a single-row query that found nothing
    | StoreFailure                // any other failure reported by the database
    | ErrSyntax                   // strconv.ErrSyntax
    | ErrRange                    // strconv.ErrRange
    | NoMatch(input: string)      // a post-date the import pattern rejects
    | Wrapped(context: string, cause: Error)
}
