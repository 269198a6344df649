/** Roles of the task groups in a running engine. */
module Roles {
  datatype TaskRole =
    | Monitor | Infra | Sink | Maintainer | Parser | Picker | Acceptor | Generator | Router
}
