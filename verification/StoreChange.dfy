/** What a caller of the store's `update` asks for. */
module StoreChange {
  import opened Wrappers
  import opened AtomicStore

  /** What the caller's function asks for, given the value it was shown. */
  datatype Change<+V, +R> = Noop(result: R) | Set(value: V, result: R) | Delete(result: R)

  function AsWrite<V, R>(ch: Change<V, R>): Write<V>
    requires !ch.Noop?
  {
    match ch
    case Set(v, _) => Put(v)
    case Delete(_) => Remove
  }

  /** The value once the change is made. */
  function Updated<V, R>(before: Option<V>, ch: Change<V, R>): Option<V> {
    if ch.Noop? then before else Written(AsWrite(ch))
  }
}
