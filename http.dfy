/** The JSON answers the controllers give: an HTTP status and the `message` field. */
module Http {
  datatype JsonResponse = JsonResponse(status: int, message: string)
}
