/** The event queue `s_apiThreadEvents` (cgol_compute/main.cpp:32) that carries events from
    the control thread to the API thread, as a sequential first-in first-out queue. */
module Channel {
  import opened Events

  datatype Option<T> = None | Some(value: T)

  class EventChannel {
    /** The events pushed and not yet popped, oldest first. */
    var pending: seq<Event>

    constructor ()
      ensures pending == []
    {
      pending := [];
    }

    /** Hands an event to the consumer; the queue is unbounded, so this never fails. */
    method Push(e: Event)
      modifies this
      ensures pending == old(pending) + [e]
    {
      pending := pending + [e];
    }

    /** Hands a batch of events to the consumer, one push after another. */
    method PushAll(es: seq<Event>)
      modifies this
      ensures pending == old(pending) + es
    {
      for i := 0 to |es|
        invariant pending == old(pending) + es[..i]
      {
        Push(es[i]);
      }
      assert es[..|es|] == es;
    }

    /** Takes the oldest pending event, or reports that there is none (the null pointer). */
    method Pop() returns (r: Option<Event>)
      modifies this
      ensures old(pending) == [] ==> r == None && pending == []
      ensures old(pending) != [] ==> r == Some(old(pending)[0]) && pending == old(pending)[1..]
    {
      if pending == [] {
        r := None;
      } else {
        r := Some(pending[0]);
        pending := pending[1..];
      }
    }
  }
}
