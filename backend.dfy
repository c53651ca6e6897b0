/** The hosted database and auth service, reduced to the replies the
    application receives from them. Every handler of the model takes the
    replies of the calls it makes as parameters. */
module Backend {
  import opened Wrappers

  /** The `{ data, error }` reply of a query or a write: either an error, or
      data, which the client library may hand back as `null`. */
  datatype Reply<+T> = Ok(data: Option<T>) | Err(message: string) {

    /** `!error && data`: the branch where the application uses the data. */
    predicate HasData() {
      Ok? && data.Some?
    }
  }

  /** The `{ error }` reply of a call whose data the application ignores
      (delete, sign-out, password update, and writes checked by error only). */
  datatype Outcome = Pass | Fail(message: string)

  /** The authenticated user, as `auth.getUser()` or a session reports it. */
  datatype User = User(id: string)

  /** An amount of money as an exact number of cents. */
  type Cents = int
}
