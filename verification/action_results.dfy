/** The outcomes a controller action hands back to the HTTP layer. */
module ActionResults {

  /**
   `Ok(value)` is 200 with a body, `Created(value)` is 201 from
   `CreatedAtAction`, `NoContent` is 204, `NotFound` is 404 and
   `BadRequest(message)` is 400 (an empty message stands for `BadRequest()`
   without a body). Actions declared to return `IActionResult` use `()` as `T`.
   */
  datatype ActionResult<+T> = Ok(value: T) | Created(value: T) | NoContent | NotFound | BadRequest(message: string)
}
