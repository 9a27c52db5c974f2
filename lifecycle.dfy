/** What a pager reports to the outside world: the snapshot handed to the
    `on*` hooks and to emitted events, and the record of every hook call,
    emitted event and location-hash write, in the order they happen. */
module Lifecycle {
  /** The identity of a user-supplied listener function. */
  type Callback = nat

  /** `_getData()`: the current index, the reported scroll offset and the
      largest offset. */
  datatype Snapshot = Snapshot(index: int, scrolled: real, max: int)

  /** The argument an event is emitted with (`destroy` has none). */
  datatype Payload = NoData | Data(snapshot: Snapshot)

  datatype Notice =
    | BeforeStart(index: int)                // config.onBeforeStart
    | Started(id: string)                    // config.onStart, with the id of the current page
    | Scrolled(data: Snapshot, dragged: bool) // config.onScroll; `dragged` when called as (data, "drag")
    | Finished(data: Snapshot)               // config.onFinish
    | FinishedUnmeasured(index: int)         // config.onFinish before any measurement: scrolled and max undefined
    | Updated(data: Snapshot)                // config.onUpdate
    | Initialised(data: Snapshot)            // config.onInit
    | Emitted(name: string, payload: Payload, listeners: seq<Callback>) // emit(name, payload) calling these listeners in order
    | HashWritten(id: string)                // window.location.hash = id
}
