/**
 * The six optional lifecycle hooks a record type may implement. A hook runs
 * on the record instance, may change it, and returns an error. A record type
 * that does not implement a hook has `None` in its place.
 */
module Hooks {
  import opened Wrappers
  import opened Store

  datatype HookName = PreCreate | PostCreate | PreDelete | PostDelete | PreUpdate | PostUpdate

  /** What a hook leaves behind: the instance as it changed it, and its error. */
  datatype HookResult = HookResult(rec: Record, err: Option<string>)

  type Hook = Record -> HookResult

  /**
   * The hooks the record type implements. The interface gives `PostUpdate` an
   * argument, but the code never passes a previous value: Update passes the
   * receiver itself and Patch passes nothing, so a `PostUpdate` hook here
   * sees only the record it runs on.
   */
  datatype Hooks = Hooks(
    preCreate: Option<Hook>,
    postCreate: Option<Hook>,
    preDelete: Option<Hook>,
    postDelete: Option<Hook>,
    preUpdate: Option<Hook>,
    postUpdate: Option<Hook>)

  /** A record type with no hooks. */
  const NoHooks := Hooks(None, None, None, None, None, None)
}
