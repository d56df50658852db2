/** Results shared by all modules: optional values and the status codes that the C functions return. */
module Wrappers {

  datatype Option<+T> = None | Some(value: T)

  // The negative error numbers that the modelled functions return.
  datatype Errno =
    | EAGAIN
    | EALREADY
    | EBADMSG
    | ECONNREFUSED
    | EFAULT
    | EINVAL
    | EIO
    | ENOMEM
    | ENOTCONN

  datatype Status = Ok | Err(errno: Errno)
}
