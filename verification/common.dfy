/** Value types shared by the room modules. */
module Common {

  /** An optional value; stands for the TypeScript optional fields, `undefined` and `null`. */
  datatype Option<+T> = None | Some(value: T)

  /** What a room operation hands back: the boolean the operation returns
      and the room as it is after the call. */
  datatype Step<+S> = Step(ok: bool, state: S)
}
