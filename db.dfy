/** The shape of the SimulationEvent table of db.py: append-only rows. */
module Db {
  import opened Wrappers

  /**
   * One SimulationEvent row: the id of the agent it concerns (absent for
   * simulation-level rows), the simulation id, the type, the content and the
   * cycle (absent when the row was created without one).
   */
  datatype Event = Event(agent: Option<int>, simId: int, kind: string, content: string, cycle: Option<int>)

  /** The SimulationEvent table; rows are only ever appended. */
  class EventTable {
    var rows: seq<Event>

    constructor ()
      ensures rows == []
    {
      rows := [];
    }

    /** SimulationEvent.create. */
    method Create(e: Event)
      modifies this
      ensures rows == old(rows) + [e]
    {
      rows := rows + [e];
    }
  }
}
