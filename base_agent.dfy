/** The state every worker shares: its name and its status. */
module BaseAgent {

  /** The values the `status` field takes. */
  datatype Status = Ready | Working | Completed | Failed {
    function Text(): string {
      match this
      case Ready => "ready"
      case Working => "working"
      case Completed => "completed"
      case Failed => "failed"
    }
  }

  /**
   * A worker. The concrete workers (BBC, TechCrunch, stocks, crypto) differ
   * only in their `execute`, which the model gives as a method per worker
   * taking the agent whose status it updates.
   */
  class Agent {
    const name: string
    var status: Status
    /** Every status the agent has been given, oldest first. */
    ghost var trail: seq<Status>

    ghost predicate Valid()
      reads this
    {
      trail != [] && trail[0] == Ready && trail[|trail| - 1] == status
    }

    constructor (name: string)
      ensures Valid()
      ensures this.name == name && status == Ready && trail == [Ready]
    {
      this.name := name;
      status := Ready;
      trail := [Ready];
    }

    /** The current status; nothing changes. */
    method GetStatus() returns (s: Status)
      ensures s == status
    {
      s := status;
    }

    method SetStatus(s: Status)
      requires Valid()
      modifies this
      ensures Valid()
      ensures status == s && trail == old(trail) + [s]
    {
      status := s;
      trail := trail + [s];
    }
  }
}
