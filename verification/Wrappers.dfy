// Result types for the Go error returns and for lookups that may find nothing.
module Wrappers {

  datatype Option<+T> = None | Some(value: T)

  datatype Result<+T> = Ok(value: T) | Err(error: Error)

  // The ways a call of the service can fail. Redis and Mongo faults are the environment's choice.
  datatype Error =
    | DatabaseFault
    | RedisFault
    | NotFound
    | InvalidId
    | NotConnected
    | NotificationsDisabled
    | BadRequest
}
