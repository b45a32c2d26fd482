/**
 * The shared buffer between the extractor and the downstream consumer:
 * a FIFO queue that appends at the back, or refuses once it has been closed.
 */
module Queue {
  import opened Common

  /** Why a push was refused. */
  datatype PushError = Closed

  class ConcurrentQueue<T> {
    /** The queued items, oldest first. */
    var items: seq<T>
    var closed: bool

    constructor ()
      ensures items == [] && !closed
    {
      items := [];
      closed := false;
    }

    /** Appends `x` at the back, or fails without change when the queue is closed. */
    method Push(x: T) returns (r: Result<(), PushError>)
      modifies this
      ensures closed == old(closed)
      ensures r.Ok? <==> !old(closed)
      ensures r.Err? ==> r.error == Closed
      ensures items == if old(closed) then old(items) else old(items) + [x]
    {
      if closed {
        r := Err(Closed);
      } else {
        items := items + [x];
        r := Ok(());
      }
    }

    /** Closes the queue; queued items stay. */
    method Close()
      modifies this
      ensures closed && items == old(items)
    {
      closed := true;
    }
  }
}
