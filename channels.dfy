/**
  The two channel primitives the frame pipeline is built from, modelled by
  their observable contracts only:
  - Unbounded<T>: crossbeam_channel's unbounded channel, a FIFO queue in which
    a send always succeeds and is never dropped, and try_recv either takes the
    oldest message or reports that the queue is empty;
  - SingleValue<T>: single_value_channel, a slot that always holds a value,
    starts with the value it was created with, and keeps only the last write.
  Both ends of a channel are one object here: the sender and the receiver
  handles of the source share the same queue (or slot).
*/
module Channels {

  datatype Option<+T> = None | Some(value: T)

  /** crossbeam_channel::unbounded(): sender and receiver over one FIFO queue. */
  class Unbounded<T> {
    /** The messages sent and not yet received, oldest first. */
    var queue: seq<T>

    constructor ()
      ensures queue == []
    {
      queue := [];
    }

    /** Sender::send: appends; an unbounded channel never blocks and never drops. */
    method Send(msg: T)
      modifies this
      ensures queue == old(queue) + [msg]
    {
      queue := queue + [msg];
    }

    /** Receiver::try_recv: takes the oldest message, or reports that there is none. */
    method TryRecv() returns (r: Option<T>)
      modifies this
      ensures old(queue) == [] ==> r == None && queue == []
      ensures old(queue) != [] ==> r == Some(old(queue)[0]) && queue == old(queue)[1..]
    {
      if queue == [] {
        r := None;
      } else {
        r := Some(queue[0]);
        queue := queue[1..];
      }
    }
  }

  /** single_value_channel: an updater and a receiver over one always-filled slot. */
  class SingleValue<T> {
    /** The most recently written value, or the initial one. */
    var value: T

    /** channel_starting_with(init): the slot is never empty. */
    constructor StartingWith(init: T)
      ensures value == init
    {
      value := init;
    }

    /** Receiver::latest: reads the slot without changing it, so repeated reads agree. */
    method Latest() returns (v: T)
      ensures v == value
    {
      v := value;
    }

    /** Updater::update: overwrites the slot; the last write wins. */
    method Update(v: T)
      modifies this
      ensures value == v
    {
      value := v;
    }
  }
}
