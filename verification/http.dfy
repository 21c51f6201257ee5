/**
 * What an Express handler of the backend answers: a status code with the `data` of a success
 * body, a status code with the `error` of a failure body, or an error passed on with
 * `next(error)` to the application's error handler, which is not part of this model.
 */
module Http {
  datatype Response<T> =
    | Ok(code: nat, data: T)
    | Err(code: nat, error: string)
    | Forwarded
}
