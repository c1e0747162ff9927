/** HTTP status codes the handlers answer with. */
module Http {
  const StatusOK: int := 200
  const StatusCreated: int := 201
  const StatusNoContent: int := 204
  const StatusBadRequest: int := 400
  const StatusUnauthorized: int := 401
  const StatusNotFound: int := 404
  const StatusConflict: int := 409
  const StatusInternalServerError: int := 500

  /**
   * What a handler sends: an error status with one of its error messages
   * (`M`), or a status with a body (`B`).
   */
  datatype Response<M, B> = Failure(status: int, message: M) | Reply(status: int, body: B)
}
