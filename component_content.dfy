/**
 * The `ComponentContent` trait of src/component_content.rs. A content names
 * its element and may override `mount_in`, `update` and `destroy`; the
 * defaults append the element, and succeed without effect. An override is
 * known only by the result it returns. Errors are `anyhow::Error`s, known by
 * their text.
 */
module ComponentContents {
  import opened Wrappers
  import opened Dom

  /** A default trait method, or an override that returns `result`. */
  datatype Hook = Default | Override(result: Outcome<string>)

  /** The text of the error the default `mount_in` returns when the append is refused. */
  const MountFailure: string := "Failed to mount component"

  class Content {
    /** `element()`: a constant, so every call returns the same element, as the trait asks. */
    const element: ElementId
    const mountHook: Hook
    const updateHook: Hook
    const destroyHook: Hook

    constructor (element: ElementId, mountHook: Hook, updateHook: Hook, destroyHook: Hook)
      ensures this.element == element && this.mountHook == mountHook
      ensures this.updateHook == updateHook && this.destroyHook == destroyHook
    {
      this.element, this.mountHook, this.updateHook, this.destroyHook := element, mountHook, updateHook, destroyHook;
    }

    /** `mount_in`: by default the element goes under `target`, and a refused append becomes an error. */
    method MountIn(dom: Document, target: ElementId) returns (r: Outcome<string>)
      modifies dom
      ensures mountHook.Default? ==>
                r == (if dom.Accepts(target, element) then Pass else Fail(MountFailure)) &&
                dom.parentOf == if dom.Accepts(target, element) then old(dom.parentOf)[element := Some(target)] else old(dom.parentOf)
      ensures mountHook.Override? ==> r == mountHook.result && dom.parentOf == old(dom.parentOf)
    {
      match mountHook
      case Default =>
        var appended := dom.AppendChild(target, element);
        r := if appended.Pass? then Pass else Fail(MountFailure);
      case Override(result) =>
        r := result;
    }

    /** `update`: `Ok` by default. */
    function Update(): (r: Outcome<string>)
    {
      match updateHook
      case Default => Pass
      case Override(result) => result
    }

    /** `destroy`: `Ok` by default. */
    function Destroy(): (r: Outcome<string>)
    {
      match destroyHook
      case Default => Pass
      case Override(result) => result
    }
  }

  /** Without overrides, `update` and `destroy` cannot fail, and only an override can make them fail. */
  lemma DefaultsSucceed(c: Content)
    ensures c.updateHook.Default? ==> c.Update() == Pass
    ensures c.destroyHook.Default? ==> c.Destroy() == Pass
    ensures c.Update().Fail? ==> c.updateHook == Override(c.Update())
    ensures c.Destroy().Fail? ==> c.destroyHook == Override(c.Destroy())
  {
  }
}
