/**
 * `arrayRBoxHandlers(rbox)(operation)(index)(value)`: sets a reactive box to
 * the named list operation applied to its previous value. The box library is
 * not part of this model beyond `setValue` taking an updater.
 */
module ArrayRBoxHandlers {
  import opened ExtNum
  import ArrayHandlers

  /** A reactive box holding one value. */
  class RBox<T> {
    var value: T

    constructor (value: T)
      ensures this.value == value
    {
      this.value := value;
    }

    /** `rbox.setValue(updater)`. */
    method SetValue(updater: T -> T)
      modifies this
      ensures value == updater(old(value))
    {
      value := updater(value);
    }
  }

  /** `arrayRBoxHandlers(rbox)(operation)(index)(value)`. */
  method Handle<T>(rbox: RBox<seq<T>>, operation: string, index: Num, value: T)
    modifies rbox
    ensures rbox.value == ArrayHandlers.Dispatch(old(rbox.value), operation, index, value)
    ensures operation == "update" ==> rbox.value == ArrayHandlers.Update(old(rbox.value), index, value)
    ensures operation == "insert" ==> rbox.value == ArrayHandlers.Insert(old(rbox.value), index, value)
    ensures operation == "remove" ==> rbox.value == ArrayHandlers.Remove(old(rbox.value), index)
    ensures operation !in {"update", "insert", "remove"} ==> rbox.value == old(rbox.value)
  {
    ArrayHandlers.DispatchSpec(rbox.value, operation, index, value);
    assert ArrayHandlers.Name(ArrayHandlers.UpdateOp) == "update";
    assert ArrayHandlers.Name(ArrayHandlers.InsertOp) == "insert";
    assert ArrayHandlers.Name(ArrayHandlers.RemoveOp) == "remove";
    rbox.SetValue(prev => ArrayHandlers.Dispatch(prev, operation, index, value));
  }

  /** Appending to a history box with index `Infinity` always adds the entry at the end. */
  method AppendHistory<T>(rbox: RBox<seq<T>>, entry: T)
    modifies rbox
    ensures rbox.value == old(rbox.value) + [entry]
  {
    ArrayHandlers.InsertInfinityAppends(rbox.value, entry);
    Handle(rbox, "insert", PosInf, entry);
  }
}
