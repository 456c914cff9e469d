/**
 * The realtime channel capability (`client.channel(..).on(..).subscribe()` and
 * `client.removeChannel`) reduced to what the stores rely on: a channel is
 * identified by its topic and the table changes it listens to.
 */
module Realtime {
  import opened Wrappers

  /** Which change events a channel registers for (`event: "*"` or `event: "UPDATE"`). */
  datatype EventFilter = AnyEvent | UpdateOnly

  /** The kind of a row change reported by the channel service. */
  datatype ChangeKind = Insert | Update | Delete

  /** An open channel: its topic, the table it watches, its event filter and optional row filter. */
  datatype Channel = Channel(topic: string, table: string, events: EventFilter, rowFilter: Option<string>)

  /** Number of live channels held in one handle slot. */
  function Live(slot: Option<Channel>): nat {
    if slot.Some? then 1 else 0
  }

  /** Whether a change of that kind reaches a listener on the channel. */
  predicate Delivers(c: Channel, kind: ChangeKind) {
    c.events == AnyEvent || kind == Update
  }
}
