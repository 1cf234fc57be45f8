/** The dictionary a Lambda handler returns to its invoker. */
module Responses {

  /** `{'statusCode': ..., 'body': ...}` */
  datatype Response = Response(statusCode: int, body: string)

  /** The single failure shape every caught exception is collapsed to. */
  const ServerError := Response(500, "Server Error")

  /** Every handler answers with one of these two status codes. */
  predicate IsHandlerStatus(r: Response) {
    r.statusCode == 200 || r.statusCode == 500
  }
}
