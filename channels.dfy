/**
 * An `std::sync::mpsc` channel as seen by one sequential caller: the queue
 * of messages sent but not yet received, whether the receiving end still
 * exists (sending fails once it is gone) and whether any sending end still
 * exists (an empty channel then reports `Disconnected` instead of `Empty`).
 */
module Channels {
  import opened Shared

  datatype TryRecvError = Empty | Disconnected

  class Channel<T> {
    var queue: seq<T>
    var receiverConnected: bool
    var sendersConnected: bool

    constructor ()
      ensures queue == [] && receiverConnected && sendersConnected
    {
      queue := [];
      receiverConnected := true;
      sendersConnected := true;
    }

    /** `send`: accepted, and appended, exactly while the receiving end exists. */
    method Send(x: T) returns (ok: bool)
      modifies this
      ensures ok == old(receiverConnected)
      ensures queue == if ok then old(queue) + [x] else old(queue)
      ensures receiverConnected == old(receiverConnected) && sendersConnected == old(sendersConnected)
    {
      ok := receiverConnected;
      if ok {
        queue := queue + [x];
      }
    }

    /** `try_recv`: the oldest pending message, if there is one. */
    method TryRecv() returns (r: Result<T, TryRecvError>)
      modifies this
      ensures old(queue) != [] ==> r.Ok? && r.value == old(queue)[0] && queue == old(queue)[1..]
      ensures old(queue) == [] ==> queue == [] && r == Err(if sendersConnected then Empty else Disconnected)
      ensures receiverConnected == old(receiverConnected) && sendersConnected == old(sendersConnected)
    {
      if queue != [] {
        r := Ok(queue[0]);
        queue := queue[1..];
      } else if sendersConnected {
        r := Err(Empty);
      } else {
        r := Err(Disconnected);
      }
    }
  }
}
