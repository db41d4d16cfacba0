/** The option type shared by every module, and the status codes of the C ABI. */
module Wrappers {
  datatype Option<+T> = None | Some(value: T)

  /** cap_status: zero is success, every failure is negative. */
  const CAP_OK: int := 0
  const CAP_ERR: int := -1
  const CAP_ERR_FINGERPRINT: int := -2
  const CAP_ERR_ARG: int := -3
  const CAP_ERR_NOMEM: int := -4
  const CAP_ERR_BACKEND: int := -5
  const CAP_ERR_FORMAT: int := -7
}
