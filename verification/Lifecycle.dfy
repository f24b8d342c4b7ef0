/** The four states of a connection (StateE in TcpConnetion.h) and their order in time. */
module Lifecycle {
  datatype Life = Connecting | Connected | Disconnecting | Disconnected

  function Rank(life: Life): nat {
    match life
    case Connecting => 0
    case Connected => 1
    case Disconnecting => 2
    case Disconnected => 3
  }
}
