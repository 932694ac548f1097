/** The open/closed state an enclosing component may provide to its descendants. */
module OpenClosed {
  datatype State = Open | Closed
}
