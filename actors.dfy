/**
 * An actor as seen from the process that drives it: its lifecycle, its
 * two channels, and the control replies waiting to be received.
 *
 * Control messages are handled as soon as they are sent (the actor's own
 * execution context is not modelled separately); the reply, if any, is
 * queued until the caller receives it.
 */
module Actors {
  import opened Wrappers
  import opened Messages
  import opened ControlProtocol

  /** What a send tells its caller: delivered, or `NotConnectedException` raised. */
  datatype SendResult = Sent | NotConnectedException

  class Actor {
    const name: string
    /** What this kind of actor's initialisation will do when it runs. */
    const init: InitResult
    var phase: Phase
    var controlConnected: bool
    var dataConnected: bool
    /** Replies sent on the control channel and not yet received, oldest first. */
    var controlReplies: seq<Message>
    /** Data messages the running actor has taken in, in arrival order. */
    var dataReceived: seq<Message>

    constructor (name: string, init: InitResult)
      ensures this.name == name && this.init == init
      ensures phase == Created && !controlConnected && !dataConnected
      ensures controlReplies == [] && dataReceived == []
    {
      this.name := name;
      this.init := init;
      phase := Created;
      controlConnected, dataConnected := false, false;
      controlReplies, dataReceived := [], [];
    }

    /** `is_alive()`: true exactly while the actor is started or initialised. */
    function IsAlive(): (alive: bool)
      reads this
      ensures alive <==> phase == Started || phase == Initialized
    {
      Alive(phase)
    }

    /** Spawns the execution context; an actor is started once. */
    method Start()
      requires phase == Created
      modifies this
      ensures phase == Started && IsAlive()
      ensures controlConnected == old(controlConnected) && dataConnected == old(dataConnected)
      ensures controlReplies == old(controlReplies) && dataReceived == old(dataReceived)
    {
      phase := Started;
    }

    method ConnectControl()
      modifies this
      ensures controlConnected
      ensures phase == old(phase) && dataConnected == old(dataConnected)
      ensures controlReplies == old(controlReplies) && dataReceived == old(dataReceived)
    {
      controlConnected := true;
    }

    method ConnectData()
      modifies this
      ensures dataConnected
      ensures phase == old(phase) && controlConnected == old(controlConnected)
      ensures controlReplies == old(controlReplies) && dataReceived == old(dataReceived)
    {
      dataConnected := true;
    }

    /**
     * Sends a control message: raises NotConnectedException, changing
     * nothing, before the control channel is connected, alive or not;
     * otherwise the actor handles it by the control protocol and its
     * reply, if any, joins the replies waiting to be received.
     */
    method SendControl(msg: Message) returns (result: SendResult)
      modifies this
      ensures result == NotConnectedException <==> !controlConnected
      ensures result == NotConnectedException ==>
                phase == old(phase) && controlReplies == old(controlReplies)
      ensures result == Sent ==>
                var t := Handle(old(phase), name, init, msg);
                phase == t.next && controlReplies == old(controlReplies) + ToSeq(t.reply)
      ensures controlConnected == old(controlConnected) && dataConnected == old(dataConnected)
      ensures dataReceived == old(dataReceived)
    {
      if !controlConnected {
        return NotConnectedException;
      }
      var t := Handle(phase, name, init, msg);
      phase := t.next;
      controlReplies := controlReplies + ToSeq(t.reply);
      result := Sent;
    }

    /**
     * Sends a data message: raises NotConnectedException, changing
     * nothing, before the data channel is connected; otherwise a running
     * actor takes it in and a stopped one drops it. No reply.
     */
    method SendData(msg: Message) returns (result: SendResult)
      modifies this
      ensures result == NotConnectedException <==> !dataConnected
      ensures dataReceived ==
                if result == Sent && IsAlive() then old(dataReceived) + [msg] else old(dataReceived)
      ensures phase == old(phase) && controlReplies == old(controlReplies)
      ensures controlConnected == old(controlConnected) && dataConnected == old(dataConnected)
    {
      if !dataConnected {
        return NotConnectedException;
      }
      if IsAlive() {
        dataReceived := dataReceived + [msg];
      }
      result := Sent;
    }

    /**
     * The oldest control reply not yet received, or None when no reply
     * arrives (the caller's wait of `timeout` milliseconds runs out).
     */
    method ReceiveControl(timeout: int) returns (reply: Option<Message>)
      modifies this
      ensures old(controlReplies) == [] ==> reply == None && controlReplies == []
      ensures old(controlReplies) != [] ==>
                reply == Some(old(controlReplies)[0]) && controlReplies == old(controlReplies)[1..]
      ensures phase == old(phase) && dataReceived == old(dataReceived)
      ensures controlConnected == old(controlConnected) && dataConnected == old(dataConnected)
    {
      if controlReplies == [] {
        reply := None;
      } else {
        reply := Some(controlReplies[0]);
        controlReplies := controlReplies[1..];
      }
    }

    /** Stops a running actor; one that is not running is left as it is. */
    method Terminate()
      modifies this
      ensures !IsAlive()
      ensures phase == if old(IsAlive()) then Dead else old(phase)
      ensures controlReplies == old(controlReplies) && dataReceived == old(dataReceived)
      ensures controlConnected == old(controlConnected) && dataConnected == old(dataConnected)
    {
      if IsAlive() {
        phase := Dead;
      }
    }
  }
}
