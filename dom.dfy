/**
 * The slice of the DOM that components touch: which element hangs under
 * which. An element absent from `parentOf`, or mapped to `None`, is
 * detached. `append_child` throws when the parent cannot take children
 * (it is not one of `containers`) or when an element is appended to itself;
 * `Element::remove` never fails.
 */
module Dom {
  import opened Wrappers

  /** An element's identity. */
  type ElementId = nat

  class Document {
    var parentOf: map<ElementId, Option<ElementId>>
    const containers: set<ElementId>

    constructor (containers: set<ElementId>)
      ensures parentOf == map[] && this.containers == containers
    {
      parentOf := map[];
      this.containers := containers;
    }

    /** Whether `append_child(child)` on `parent` is accepted. */
    predicate Accepts(parent: ElementId, child: ElementId)
    {
      parent in containers && parent != child
    }

    /** The parent of `e`, if it has one. */
    function ParentOf(e: ElementId): Option<ElementId>
      reads this
    {
      if e in parentOf then parentOf[e] else None
    }

    /** `parent.append_child(child)`: moves `child` under `parent`, or throws and changes nothing. */
    method AppendChild(parent: ElementId, child: ElementId) returns (r: Outcome<Unit>)
      modifies this
      ensures r == if Accepts(parent, child) then Pass else Fail(Unit)
      ensures parentOf == if Accepts(parent, child) then old(parentOf)[child := Some(parent)] else old(parentOf)
    {
      if !Accepts(parent, child) {
        return Fail(Unit);
      }
      parentOf := parentOf[child := Some(parent)];
      r := Pass;
    }

    /** `element.remove()`: detaches the element, whether or not it was attached. */
    method Remove(e: ElementId)
      modifies this
      ensures parentOf == old(parentOf)[e := None]
    {
      parentOf := parentOf[e := None];
    }
  }
}
