/** The two response builders shared by the HTTP handlers. The JSON body is
    kept as a record instead of its serialised text. */
module Responses {

  /** The three headers both builders attach. */
  const CorsJsonHeaders: map<string, string> := map[
    "Access-Control-Allow-Origin" := "*",
    "Access-Control-Allow-Headers" := "Content-Type, Authorization",
    "Content-Type" := "application/json"]

  datatype Body<D> =
    | Payload(success: bool, data: D)
    | Failure(success: bool, message: string)

  datatype Response<D> = Response(statusCode: int, headers: map<string, string>, body: Body<D>)

  /** The client reads the body's `success` flag to decide what happened. */
  predicate Succeeded<D>(r: Response<D>) {
    r.body.success
  }

  /** `createResponse(statusCode, data)` */
  function CreateResponse<D>(statusCode: int, data: D): (r: Response<D>)
    ensures r.statusCode == statusCode
    ensures r.headers == CorsJsonHeaders && r.headers["Content-Type"] == "application/json"
    ensures r.body.Payload? && r.body.data == data
    ensures Succeeded(r) <==> statusCode < 400
  {
    Response(statusCode, CorsJsonHeaders, Payload(statusCode < 400, data))
  }

  /** `createErrorResponse(statusCode, message)` */
  function CreateErrorResponse<D>(statusCode: int, message: string): (r: Response<D>)
    ensures r.statusCode == statusCode
    ensures r.headers == CorsJsonHeaders && r.headers["Content-Type"] == "application/json"
    ensures r.body.Failure? && r.body.message == message
    ensures !Succeeded(r)
  {
    Response(statusCode, CorsJsonHeaders, Failure(false, message))
  }
}
