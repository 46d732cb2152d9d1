/** The session-scoped event buffer, updated in place by record, the commit hooks and dispatch. */
module EventBuffer {
  import opened Wrappers
  import opened Events
  import opened Filtering
  import opened Outbox
  import OutboxTheorems

  /** The invocations for a whole batch of events, in order. */
  function ProjectAll(reg: Registry, events: seq<Event>, local: bool): seq<Invocation> {
    if events == [] then []
    else
      var n := |events| - 1;
      ProjectAll(reg, events[..n], local) + Project(reg, events[n], local)
  }

  /** Run the subscribers of one event: acting handlers only where it was recorded. */
  method RunSubscribers(reg: Registry, ev: Event, local: bool) returns (invoked: seq<Invocation>)
    ensures invoked == Project(reg, ev, local)
  {
    invoked := [];
    var handlers := Subscribers(reg, ev);
    for i := 0 to |handlers|
      invariant invoked == Invoked(Eligible(handlers[..i], reg.localOnly, local), ev)
    {
      assert handlers[..i + 1][..i] == handlers[..i];
      if !local && handlers[i] in reg.localOnly {
        continue;
      }
      invoked := invoked + [Invocation(handlers[i], ev)];
    }
    assert handlers[..|handlers|] == handlers;
  }

  /** A batch runs every handler for the events whose kind lists it, in order; an acting one only where the
      events were recorded. */
  lemma {:induction false} BatchRunsHandlers(reg: Registry, events: seq<Event>, local: bool, h: int)
    ensures HandledBy(h, ProjectAll(reg, events, local))
            == if local || h !in reg.localOnly then ListedFor(reg, h, events) else []
  {
    if events != [] {
      var n := |events| - 1;
      BatchRunsHandlers(reg, events[..n], local, h);
      hide Project, Kept;
      KeptConcat(ByHandler(h), ProjectAll(reg, events[..n], local), Project(reg, events[n], local));
      OutboxTheorems.ProjectionRunsHandler(reg, h, events[n], local);
    }
  }

  class SessionBuffer {
    const origin: string
    var open: bool
    var pending: seq<Event>
    var committed: seq<Event>
    ghost var projected: seq<Event>
    ghost var history: seq<Event>

    ghost function Model(): Session
      reads this
    {
      Session(origin, open, pending, committed, [], projected, history)
    }

    constructor (origin: string)
      ensures Model() == Session(origin, false, [], [], [], [], [])
    {
      this.origin := origin;
      open, pending, committed := false, [], [];
      projected, history := [], [];
    }

    method BeginTransaction()
      modifies this
      ensures Model() == old(Model()).(open := true)
    {
      open := true;
    }

    /** Announce an event, if a transaction is open and its rows have been flushed. */
    method RecordEvent(ev: Event) returns (ok: bool)
      requires IsInstance(ev)
      modifies this
      ensures ok == (old(open) && Flushed(ev))
      ensures Model() == Outbox.RecordEvent(old(Model()), ev)
    {
      if !open {
        return false;
      }
      if exists f | f in ev.fields :: ev.fields[f] == Null {
        return false;
      }
      pending := pending + [ev];
      ok := true;
    }

    /** The notifications issued inside the committing transaction. */
    method Publish() returns (payloads: seq<Descriptor>)
      ensures payloads == Descriptors(origin, pending)
    {
      payloads := [];
      for i := 0 to |pending|
        invariant payloads == Descriptors(origin, pending[..i])
      {
        assert pending[..i + 1] == pending[..i] + [pending[i]];
        MappedAppend(Describe(origin), pending[..i], pending[i]);
        payloads := payloads + [ToDescriptor(origin, pending[i])];
      }
      assert pending[..|pending|] == pending;
    }

    /** After the commit the pending events are the session's to dispatch. */
    method PromoteOnCommit()
      modifies this
      ensures Model() == Promote(old(Model()))
    {
      history := history + pending;
      if pending != [] {
        committed := committed + pending;
        pending := [];
      }
      open := false;
    }

    /** A rolled-back transaction's events must not reach the next commit. */
    method DiscardOnRollback()
      modifies this
      ensures Model() == Discard(old(Model()))
    {
      pending := [];
      open := false;
    }

    /** Fan out what has committed, leaving a transaction in progress alone. */
    method Dispatch(reg: Registry) returns (invoked: seq<Invocation>)
      modifies this
      ensures invoked == ProjectAll(reg, old(committed), true)
      ensures forall h :: HandledBy(h, invoked) == ListedFor(reg, h, old(committed))
      ensures Model() == old(Model()).(committed := [], projected := old(projected) + old(committed))
    {
      var events := committed;
      committed := [];
      invoked := [];
      for i := 0 to |events|
        invariant pending == old(pending) && open == old(open) && committed == [] && history == old(history)
        invariant projected == old(projected) + events[..i]
        invariant invoked == ProjectAll(reg, events[..i], true)
      {
        var more := RunSubscribers(reg, events[i], true);
        assert events[..i + 1][..i] == events[..i];
        invoked := invoked + more;
        projected := projected + [events[i]];
      }
      assert events[..|events|] == events;
      forall h ensures HandledBy(h, invoked) == ListedFor(reg, h, events) { BatchRunsHandlers(reg, events, true, h); }
    }
  }
}
