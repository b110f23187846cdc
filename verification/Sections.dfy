/** The bookkeeping that a worker keeps under its mutex, and what each critical
    section does to it, as functions on values. The class in WorkerCode.dfy performs
    the same sections in place; the transition system in Lifecycle.dfy interleaves them. */
module Sections {

  datatype Option<+T> = None | Some(value: T)

  /** How a message is settled with the broker. */
  datatype Kind = Ack | Nack | Requeue

  /** One in-flight message. `tok` stands for the three callbacks of one delivery,
      `timed` for the presence of a timer. */
  datatype Entry = Entry(tok: nat, chain: seq<string>, timed: bool, picked: bool)

  /** The fields guarded by the mutex. A process is named by its generation: how many
      processes the worker spawned before it. */
  datatype Shared = Shared(cur: Option<nat>, msgs: map<int, Entry>, nextID: int, closing: bool)

  const FRESH := Shared(None, map[], 1, false)

  /** The supervisor publishes the process it has just spawned. */
  function Installed(sh: Shared, g: nat): Shared {
    sh.(cur := Some(g))
  }

  /** The supervisor drops a dead process and takes the whole map. */
  function Reaped(sh: Shared): Shared {
    sh.(cur := None, msgs := map[])
  }

  function PickedUp(sh: Shared, id: int): Shared {
    if id in sh.msgs then sh.(msgs := sh.msgs[id := sh.msgs[id].(picked := true)]) else sh
  }

  /** A done, a timeout and a reclaim all claim a message by deleting its entry. */
  function Claimed(sh: Shared, id: int): Shared {
    sh.(msgs := sh.msgs - {id})
  }

  function Registered(sh: Shared, m: Entry): Shared {
    sh.(msgs := sh.msgs[sh.nextID := m], nextID := sh.nextID + 1)
  }

  function Closing(sh: Shared): Shared {
    sh.(closing := true)
  }

  /** Whether a waiting Dispatch may register now. */
  predicate HasRoom(sh: Shared, cap: nat) {
    sh.cur.Some? && |sh.msgs| < cap
  }

  /** The chain an emit that answers `id` carries. */
  function ChainOf(sh: Shared, id: int): seq<string> {
    if id in sh.msgs then sh.msgs[id].chain else []
  }

  /** What the death path does with a message that got no done. */
  function DeathKind(m: Entry): Kind {
    if m.picked then Nack else Requeue
  }

  /** What the read loop does with a message its handler reports done. */
  function DoneKind(ok: bool): Kind {
    if ok then Ack else Nack
  }
}
