/**
 * `arrayStateHandlers(setState)(operation)(index)(value)`: hands React's
 * `setState` an updater that applies the named list operation to the
 * previous state.
 */
module ArrayStateHandlers {
  import opened ExtNum
  import ArrayHandlers

  /** The updater passed to `setState`. */
  function Updater<T>(operation: string, index: Num, value: T): seq<T> -> seq<T>
  {
    prev => ArrayHandlers.Dispatch(prev, operation, index, value)
  }

  /** `setState(updater)`: the next state is the updater applied to the previous one. */
  function SetState<T>(prev: seq<T>, updater: seq<T> -> seq<T>): seq<T>
  {
    updater(prev)
  }

  /** The next state is the named operation's result on the previous state; any other name keeps it. */
  lemma HandlerApplies<T>(prev: seq<T>, operation: string, index: Num, value: T)
    ensures var next := SetState(prev, Updater(operation, index, value));
      && (operation == "update" ==> next == ArrayHandlers.Update(prev, index, value))
      && (operation == "insert" ==> next == ArrayHandlers.Insert(prev, index, value))
      && (operation == "remove" ==> next == ArrayHandlers.Remove(prev, index))
      && (operation !in {"update", "insert", "remove"} ==> next == prev)
  {
    ArrayHandlers.DispatchSpec(prev, operation, index, value);
    assert ArrayHandlers.Name(ArrayHandlers.UpdateOp) == "update";
    assert ArrayHandlers.Name(ArrayHandlers.InsertOp) == "insert";
    assert ArrayHandlers.Name(ArrayHandlers.RemoveOp) == "remove";
  }
}
