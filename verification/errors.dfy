/** Outcomes of the forwarder's operations: either a value, or the Python
    exception the operation raises or lets escape. */
module Errors {

  /** The exception classes raised by, or propagated through, the modelled code. */
  datatype Error =
    | TypeError            // construction guards, append_listener, to_socket_address
    | NotImplementedError  // the abstract Connection methods
    | AttributeError       // accept() on the None that a shut-down engine hands out
    | ValueError           // int() of port text that is not a number
    | IndexError           // list index out of range
    | ConnectionReset      // recv on a connection the peer has reset
    | SocketError          // bind, accept or connect failing
    | BrokenPipe           // send to a peer that has gone away

  datatype Option<+T> = None | Some(value: T)

  datatype Result<+T> = Ok(value: T) | Err(error: Error)
}
