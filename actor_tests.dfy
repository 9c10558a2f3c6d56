/**
 * The fixtures and tests that every actor must pass, each driving an
 * `Actor` and stating what the test observes; the two start scenarios
 * of the puller actor, whose store is reachable or not; and the same
 * fixture run on the recording `FakeActor`.
 */
module ActorTests {
  import opened Wrappers
  import opened Messages
  import opened ControlProtocol
  import opened Actors
  import FakeActors

  /** Fixture set-up: start the actor, then connect its data and control channels. */
  method InitActor(actor: Actor)
    requires actor.phase == Created
    modifies actor
    ensures actor.phase == Started && actor.controlConnected && actor.dataConnected
    ensures actor.controlReplies == old(actor.controlReplies)
    ensures actor.dataReceived == old(actor.dataReceived)
  {
    actor.Start();
    actor.ConnectData();
    actor.ConnectControl();
  }

  /** Fixture tear-down: terminate the actor only if it is still alive. */
  method TeardownActor(actor: Actor)
    modifies actor
    ensures !actor.IsAlive()
    ensures actor.phase == if old(actor.IsAlive()) then Dead else old(actor.phase)
  {
    if actor.IsAlive() {
      actor.Terminate();
    }
  }

  /** Fixture: an actor that has already answered one StartMessage. */
  method StartedActor(name: string) returns (actor: Actor)
    ensures fresh(actor) && actor.name == name && actor.phase == Initialized
    ensures actor.controlConnected && actor.controlReplies == []
  {
    actor := new Actor(name, InitSucceeds);
    InitActor(actor);
    var _ := actor.SendControl(StartMessage);
    var _ := actor.ReceiveControl(2000);
  }

  method NewActorIsAlive(name: string, init: InitResult) returns (alive: bool)
    ensures alive
  {
    var actor := new Actor(name, init);
    InitActor(actor);
    alive := actor.IsAlive();
    TeardownActor(actor);
  }

  /** A poison pill stops the actor and is never answered. */
  method PoisonPillStopsActor(name: string, init: InitResult) returns (alive: bool, reply: Option<Message>)
    ensures !alive && reply == None
  {
    var actor := new Actor(name, init);
    InitActor(actor);
    var _ := actor.SendControl(PoisonPillMessage);
    alive := actor.IsAlive();
    reply := actor.ReceiveControl(2000);
    TeardownActor(actor);
  }

  method StartAnswersOk(name: string) returns (reply: Option<Message>)
    ensures reply == Some(OKMessage(name))
  {
    var actor := new Actor(name, InitSucceeds);
    InitActor(actor);
    var _ := actor.SendControl(StartMessage);
    reply := actor.ReceiveControl(2000);
    TeardownActor(actor);
  }

  /** A second StartMessage is refused, and the actor stays alive. */
  method SecondStartAnswersError(name: string) returns (reply: Option<Message>, alive: bool)
    ensures reply.Some? && reply.value.ErrorMessage?
    ensures reply.value.errorMessage == "Actor already initialized"
    ensures alive
  {
    var actor := StartedActor(name);
    var _ := actor.SendControl(StartMessage);
    reply := actor.ReceiveControl(2000);
    alive := actor.IsAlive();
    TeardownActor(actor);
  }

  method SendDataBeforeConnectRaises(name: string, init: InitResult) returns (result: SendResult)
    ensures result == NotConnectedException
  {
    var actor := new Actor(name, init);
    result := actor.SendData(StartMessage);
  }

  method SendControlBeforeConnectRaises(name: string, init: InitResult) returns (result: SendResult)
    ensures result == NotConnectedException
  {
    var actor := new Actor(name, init);
    result := actor.SendControl(StartMessage);
  }

  /**
   * A puller whose store loads: only its control channel is connected,
   * and the StartMessage is answered OK while the puller stays alive.
   */
  method PullerStartWithReachableStore(name: string) returns (alive: bool, reply: Option<Message>)
    ensures alive && reply == Some(OKMessage(name))
  {
    var puller := new Actor(name, InitSucceeds);
    puller.Start();
    puller.ConnectControl();
    var _ := puller.SendControl(StartMessage);
    alive := puller.IsAlive();
    reply := puller.ReceiveControl(2000);
    // stands for the test's final `kill()`, which this model does not have
    puller.Terminate();
  }

  /**
   * A puller whose store cannot be reached answers the StartMessage with
   * an ErrorMessage and is then dead, without being told to stop.
   */
  method PullerStartWithUnreachableStore(name: string, reason: string)
    returns (alive: bool, reply: Option<Message>)
    ensures !alive && reply == Some(ErrorMessage(reason))
  {
    var puller := new Actor(name, InitFails(reason));
    puller.Start();
    puller.ConnectControl();
    var _ := puller.SendControl(StartMessage);
    alive := puller.IsAlive();
    reply := puller.ReceiveControl(2000);
  }

  /** Fixture set-up on the recording fake. */
  method InitFakeActor(actor: FakeActors.FakeActor)
    modifies actor, actor.q
    ensures actor.alive
    ensures actor.q.items == old(actor.q.items) + [FakeActors.Note(FakeActors.StartNote)]
  {
    actor.Start();
    actor.ConnectData();
    actor.ConnectControl();
  }

  /** Fixture tear-down on the recording fake: it records a terminate only when alive. */
  method TeardownFakeActor(actor: FakeActors.FakeActor)
    modifies actor.q
    ensures actor.q.items ==
              old(actor.q.items) + (if actor.alive then [FakeActors.Note(FakeActors.TerminateNote)] else [])
  {
    if actor.IsAlive() {
      actor.Terminate();
    }
  }

  /** The fake's record of a test that leaves it alive: created, started, terminated. */
  method FakeActorFixtureLog(name: string) returns (log: seq<FakeActors.Entry>)
    ensures log == [FakeActors.Construction(name, [], map[]),
                    FakeActors.Note("start"), FakeActors.Note("terminate")]
  {
    var queue := new FakeActors.Queue();
    var actor := new FakeActors.FakeActor(name, [], map[], queue);
    InitFakeActor(actor);
    TeardownFakeActor(actor);
    log := queue.items;
  }

  /**
   * The fake's record of a test that kills it: the messages it was sent,
   * the kill, and no terminate, since it is no longer alive at tear-down.
   */
  method FakeActorKilledLog(name: string, data: Message, control: Message)
    returns (log: seq<FakeActors.Entry>, alive: bool)
    ensures log == [FakeActors.Construction(name, [], map[]), FakeActors.Note("start"),
                    FakeActors.MessageEntry(data), FakeActors.MessageEntry(control),
                    FakeActors.Note("hard kill")]
    ensures !alive
  {
    var queue := new FakeActors.Queue();
    var actor := new FakeActors.FakeActor(name, [], map[], queue);
    InitFakeActor(actor);
    actor.SendData(data);
    actor.SendControl(control);
    actor.HardKill();
    TeardownFakeActor(actor);
    log := queue.items;
    alive := actor.IsAlive();
  }
}
