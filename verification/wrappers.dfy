/** Absent values and error returns shared by every component. */
module Wrappers {

  datatype Option<+T> = None | Some(value: T)

  /** The error codes the modelled services throw. A thrown error is an `Err`. */
  datatype ErrorCode =
    | NOT_FOUND
    | CONFLICT
    | POLICY_VIOLATION
    | POLICY_INVALID
    | POLICY_CONFLICT
    | INTERNAL_ERROR
    | IDEMPOTENCY_CONFLICT
    | AUTHENTICATION_ERROR
    | AUTHORIZATION_ERROR
    | EXECUTION_FAILED
    | TRANSACTION_MISMATCH
    | TENANT_ERROR
    | INVALID_INPUT
    | RANGE_ERROR
    | CAPABILITY_INVALID
    | CAPABILITY_EXPIRED
    | BUILD_ERROR
    | UNSUPPORTED
    | CONFIG_ERROR
    | VALIDATION_FAILED
    | VERIFICATION_FAILED
    | STALE_SIMULATION
    | SIMULATION_FAILED
    | CHAIN_MISMATCH
    | RPC_ERROR
    | INVALID_ADDRESS
    | APPROVAL_NOT_FOUND
    | APPROVAL_EXPIRED
    | APPROVAL_MISMATCH
    | UNKNOWN_ERROR

  datatype Result<+T> = Ok(value: T) | Err(error: ErrorCode)
}
