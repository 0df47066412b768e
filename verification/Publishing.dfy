/** The publisher shared by the services. */
module Publishing {
  import opened Events
  import opened Delivery

  /** `InMemoryPublisher.publish` and its failures. */
  class Publisher {
    var events: seq<Event>

    constructor ()
      ensures events == []
    {
      events := [];
    }

    method Publish(e: Event, f: Fault) returns (ok: bool)
      modifies this
      ensures events == if f.Lost? then old(events) else old(events) + [e]
      ensures ok == f.Fine?
    {
      if f.Lost? { return false; }
      events := events + [e];
      return f.Fine?;
    }
  }
}
