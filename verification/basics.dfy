/** Option and result shapes shared by the memory store and the orchestrator. */
module Basics {

  datatype Option<+T> = None | Some(value: T)

  /** The error kinds the service reports. The HTTP status codes the service
      maps them to (404, 400, 500) are not modelled. */
  datatype Error =
    | NotFound            // the user id has no stored memory
    | ProvisioningFailed  // the chat provider refused to register the user
    | ModelError          // the language-model call failed

  datatype Result<+T> = Ok(value: T) | Err(error: Error)
}
