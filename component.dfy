/**
 * `Component<C>` of src/component.rs: the owner of a content's `Rc` that
 * mounts, updates and unmounts the content's element and cleans up when it
 * is dropped. `trace` records, in order, what the component asks of its
 * content and of the DOM.
 */
module Components {
  import opened Wrappers
  import opened Dom
  import opened ComponentContents

  /** One request a component makes. */
  datatype Step = Appended(target: ElementId) | Updated | Removed | Destroyed

  class Component {
    /** The `Rc<C>`: other holders may share the content. */
    const content: Content
    const dom: Document
    ghost var trace: seq<Step>
    ghost var dropped: bool

    /** `make_sharable`: wraps the given content, no DOM change and no call to it. */
    constructor MakeSharable(content: Content, dom: Document)
      ensures this.content == content && this.dom == dom && trace == [] && !dropped
    {
      this.content, this.dom := content, dom;
      trace, dropped := [], false;
    }

    /** `mount_in`: appends `content.element()` itself; the content's own `mount_in` is never asked. */
    method MountIn(target: ElementId) returns (r: Outcome<string>)
      requires !dropped
      modifies dom, this`trace
      ensures r == if dom.Accepts(target, content.element) then Pass else Fail(MountFailure)
      ensures dom.parentOf == if dom.Accepts(target, content.element)
                              then old(dom.parentOf)[content.element := Some(target)] else old(dom.parentOf)
      ensures trace == old(trace) + [Appended(target)]
    {
      var appended := dom.AppendChild(target, content.element);
      trace := trace + [Appended(target)];
      r := if appended.Pass? then Pass else Fail(MountFailure);
    }

    /** `update`: exactly the content's `update` result, and no DOM change. */
    method Update() returns (r: Outcome<string>)
      requires !dropped
      modifies this`trace
      ensures r == content.Update() && trace == old(trace) + [Updated]
    {
      r := content.Update();
      trace := trace + [Updated];
    }

    /** `unmount`: detaches the element and always succeeds. */
    method Unmount() returns (r: Outcome<string>)
      requires !dropped
      modifies dom, this`trace
      ensures r == Pass && dom.parentOf == old(dom.parentOf)[content.element := None]
      ensures trace == old(trace) + [Removed]
    {
      dom.Remove(content.element);
      trace := trace + [Removed];
      r := Pass;
    }

    /**
     * `Drop`: `destroy`, then the element's removal. A failing `destroy` is
     * unwrapped, a panic before the removal, so callers must not drop a
     * component whose content's `destroy` fails.
     */
    method Drop()
      requires !dropped && content.Destroy() == Pass
      modifies dom, this
      ensures dropped && dom.parentOf == old(dom.parentOf)[content.element := None]
      ensures trace == old(trace) + [Destroyed, Removed]
    {
      var destroyed := content.Destroy();
      trace := trace + [Destroyed];
      dom.Remove(content.element);
      trace := trace + [Removed];
      dropped := true;
    }

    /** `Deref`: the content itself, shared and not copied. */
    function Deref(): (c: Content)
      ensures c == content && c.element == content.element
    {
      content
    }
  }

  /** `make`: a component over a content of its own, which nobody else holds. */
  method Make(element: ElementId, mountHook: Hook, updateHook: Hook, destroyHook: Hook, dom: Document)
    returns (c: Component)
    ensures fresh(c) && fresh(c.content) && c.content.element == element && c.dom == dom
    ensures c.content.mountHook == mountHook && c.content.updateHook == updateHook && c.content.destroyHook == destroyHook
    ensures c.trace == [] && !c.dropped
  {
    var content := new Content(element, mountHook, updateHook, destroyHook);
    c := new Component.MakeSharable(content, dom);
  }

  /**
   * A component whose content overrides `mount_in` is still attached by
   * `Component::mount_in`, and dropping it detaches the element even though
   * another holder keeps the content.
   */
  method MountOverrideIgnored(root: ElementId, element: ElementId)
    returns (mounted: Outcome<string>, parentWhileMounted: Option<ElementId>, parentAfterDrop: Option<ElementId>, stillShared: ElementId)
    requires root != element
    ensures mounted == Pass && parentWhileMounted == Some(root) && parentAfterDrop == None && stillShared == element
  {
    var dom := new Document({root});
    var content := new Content(element, Override(Fail("refused")), Default, Default);
    var component := new Component.MakeSharable(content, dom);
    mounted := component.MountIn(root);
    parentWhileMounted := dom.ParentOf(element);
    component.Drop();
    parentAfterDrop := dom.ParentOf(element);
    stillShared := content.element;
  }

  /** Mounting under an element that cannot take children fails and leaves the element detached; unmounting still succeeds. */
  method MountRefused(leaf: ElementId, element: ElementId) returns (mounted: Outcome<string>, unmounted: Outcome<string>, parent: Option<ElementId>)
    ensures mounted == Fail(MountFailure) && unmounted == Pass && parent == None
  {
    var dom := new Document({});
    var component := Make(element, Default, Default, Default, dom);
    mounted := component.MountIn(leaf);
    unmounted := component.Unmount();
    parent := dom.ParentOf(element);
  }
}
