/**
 * The physics engine as the simulation sees it: a world to which bodies are added and from
 * which they are removed. Each entity owns exactly one body, so a body is named by its
 * entity's id. Forces, impulses, orientation, damping and integration belong to the engine
 * and are not part of this model.
 */
module Physics {

  datatype WorldCall = Added(id: int) | Removed(id: int)

  class World {
    /** Every `addBody` / `removeBody` call, in order. */
    var calls: seq<WorldCall>

    constructor ()
      ensures calls == []
    {
      calls := [];
    }

    method AddBody(id: int)
      modifies this
      ensures calls == old(calls) + [Added(id)]
    {
      calls := calls + [Added(id)];
    }

    method RemoveBody(id: int)
      modifies this
      ensures calls == old(calls) + [Removed(id)]
    {
      calls := calls + [Removed(id)];
    }
  }
}
