/** The exceptions that cross the conversation core. */
module Exceptions {
  import Validation

  datatype Exception =
    | LlmError(message: string)             // LlmService::LlmError
    | RateLimitError(message: string)       // LlmService::RateLimitError < LlmError
    | InvalidRequestError(message: string)  // LlmService::InvalidRequestError < LlmError
    | RecordInvalid(errors: seq<Validation.FieldError>)  // ActiveRecord::RecordInvalid from create!
    | ParserError(message: string)          // JSON::ParserError on a response body
  {
    /** `is_a?(LlmService::LlmError)`: what `rescue LlmService::LlmError` catches. */
    predicate IsLlmError() {
      LlmError? || RateLimitError? || InvalidRequestError?
    }
  }
}
