/**
 * The recording test double `FakeActor`: it does no work and instead
 * puts one entry per call on a queue its creator passes in, so that a
 * test can read back which calls were made and in what order.
 */
module FakeActors {
  import opened Messages

  /**
   * An entry of the recording queue: the constructor's arguments, one of
   * the fixed notes, or a message handed to a send.
   */
  datatype Entry =
    | Construction(name: string, args: seq<string>, kwargs: map<string, string>)
    | Note(text: string)
    | MessageEntry(msg: Message)

  const StartNote: string := "start"
  const HardKillNote: string := "hard kill"
  const SoftKillNote: string := "soft kill"
  const TerminateNote: string := "terminate"

  /** The queue shared between the fakes and the test that reads it. */
  class Queue {
    var items: seq<Entry>

    constructor ()
      ensures items == []
    {
      items := [];
    }

    method Put(e: Entry)
      modifies this
      ensures items == old(items) + [e]
    {
      items := items + [e];
    }
  }

  class FakeActor {
    const name: string
    const q: Queue
    var alive: bool

    /** Records its arguments and starts out not alive. */
    constructor (name: string, args: seq<string>, kwargs: map<string, string>, queue: Queue)
      modifies queue
      ensures this.name == name && q == queue && !alive
      ensures queue.items == old(queue.items) + [Construction(name, args, kwargs)]
    {
      this.name := name;
      q := queue;
      alive := false;
      new;
      queue.Put(Construction(name, args, kwargs));
    }

    /** Does nothing: the fake has no channel to connect. */
    method ConnectData()
      ensures unchanged(this) && unchanged(q)
    {
    }

    /** Does nothing: the fake has no channel to connect. */
    method ConnectControl()
      ensures unchanged(this) && unchanged(q)
    {
    }

    /** Does nothing: the fake has no execution context to wait for. */
    method Join()
      ensures unchanged(this) && unchanged(q)
    {
    }

    /** `is_alive()`: the fake's own flag. */
    function IsAlive(): (isAlive: bool)
      reads this
      ensures isAlive == alive
    {
      alive
    }

    method HardKill()
      modifies this, q
      ensures !alive && q.items == old(q.items) + [Note(HardKillNote)]
    {
      alive := false;
      q.Put(Note(HardKillNote));
    }

    method SoftKill()
      modifies this, q
      ensures !alive && q.items == old(q.items) + [Note(SoftKillNote)]
    {
      alive := false;
      q.Put(Note(SoftKillNote));
    }

    /** Records the message as it is; the fake's liveness is untouched. */
    method SendData(msg: Message)
      modifies q
      ensures q.items == old(q.items) + [MessageEntry(msg)]
    {
      q.Put(MessageEntry(msg));
    }

    /** Records the message as it is; the fake's liveness is untouched. */
    method SendControl(msg: Message)
      modifies q
      ensures q.items == old(q.items) + [MessageEntry(msg)]
    {
      q.Put(MessageEntry(msg));
    }

    method Start()
      modifies this, q
      ensures alive && q.items == old(q.items) + [Note(StartNote)]
    {
      alive := true;
      q.Put(Note(StartNote));
    }

    /** Only records the call: a terminated fake stays as alive as it was. */
    method Terminate()
      modifies q
      ensures q.items == old(q.items) + [Note(TerminateNote)]
    {
      q.Put(Note(TerminateNote));
    }
  }
}
