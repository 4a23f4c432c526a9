/** The action record of `src/n_r_ai/core/actions.py`. */
module Actions {
  import opened Wrappers

  /** The action-type enumeration has a single member. */
  datatype ActionType = Noop

  /** Parameter values. The source types them as `Any`; these are the kinds a
      parameter bag carries. */
  datatype Param = IntParam(i: int) | TextParam(text: string) | BoolParam(b: bool)

  /** An action tag with an optional parameter bag, compared structurally. */
  datatype Action = Action(kind: ActionType, params: Option<map<string, Param>>)

  /** `Action(ActionType.NOOP)`: the parameter bag defaults to `None`. */
  const NoopAction: Action := Action(Noop, None)
}
