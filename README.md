# powerapi actor control protocol and JSON stream framer, in Dafny

This project models two small stateful contracts of the powerapi telemetry
pipeline. Both are fixed by the repository's unit tests and by the test
doubles those tests contain.

- **The JSON stream framer (`JsonStream`)** cuts whole top-level JSON objects
  out of a byte stream that arrives in chunks. `MockedStreamReader`, the
  tests' chunk source, hands out one whole chunk per `read` and ignores the
  requested size. When its list is empty it answers `None`. The framer keeps
  a buffer across calls. `read_json_object` answers at most one object per
  call. It reads more chunks only while no object is complete, and answers
  `None` when the source runs dry first. A partial object stays buffered.
- **The actor control protocol.** An actor is created, then started
  (alive), then initialised by its first `StartMessage`, and finally dead.
  A `PoisonPillMessage` stops it without a reply. The first `StartMessage`
  is answered `OKMessage`. If the actor's own initialisation fails (for a
  puller: its store is unreachable), it is answered `ErrorMessage` and the
  actor dies. A later `StartMessage` is answered
  `ErrorMessage("Actor already initialized")`. A send on a channel that is
  not connected raises `NotConnectedException`.
- **`FakeActor`**, the recording test double. Each call except `connect_data`,
  `connect_control`, `join` and `is_alive` appends one entry to a queue
  its creator passes in: the constructor's arguments, the notes
  `start`, `hard kill`, `soft kill` and `terminate`, or the sent message.

Files:
- `wrappers.dfy`: `Option`.
- `framing.dfy`: the brace-counting rule as pure functions (`Depth`,
  `ClosesAt`, `FirstObjectEnd`, `Frames`, `Residue`) and the lemmas about it.
- `json_stream.dfy`: the `MockedStreamReader` and `JsonStream` classes, and
  `Pull`, the function that `ReadJsonObject` is proved against.
- `json_stream_tests.dfy`: the framer's seven test scenarios, the helper
  lemmas they use, and `UnmatchedCloseFlat` and `UnmatchedCloseNested`,
  which match no test and show what a stray `}` does.
- `messages.dfy`, `control_protocol.dfy`: the message set, the pure
  transition `Handle`, and lemmas over series of control messages (`Run`).
- `actors.dfy`: the `Actor` class, with its phase, its two connection
  flags, the pending control replies and the data taken in.
- `fake_actors.dfy`: `FakeActor` and the queue it records on.
- `actor_tests.dfy`: the fixtures and tests every actor must pass, the
  puller's two start scenarios, and the fixture run on `FakeActor`.

Framing rule. Depth is counted from the start of the buffer: `{` adds one
and `}` subtracts one. An object is complete at the first `}` that brings
the depth back to zero. The answer is the buffer up to and including that
`}`. Bytes other than `}` that come before the first `{` are therefore
part of the answer; no test has such bytes. An unmatched `}` leaves the
depth one lower for the rest of the stream (see "## Left out"). Braces inside JSON string literals are counted like
any other brace.

Connection rule. A stricter rule would want both channels connected
before either send succeeds. The puller integration test connects only the control
channel (test/integration/puller/test_integration_puller_actor.py:178-181)
and then sends a `StartMessage` that is answered. The model follows the
code: `send_control` needs the control channel and `send_data` needs the
data channel.

## Model

| member | source | states |
|---|---|---|
| JsonStreaming.MockedStreamReader.constructor | tests/unit/utils/test_JsonStream.py:42-44 | the reader holds exactly the given list of chunks |
| JsonStreaming.MockedStreamReader.Read | tests/unit/utils/test_JsonStream.py:46-52 | pops and returns the head chunk whatever `n` is; returns None and changes nothing once the list is empty |
| JsonStreaming.JsonStream.constructor | tests/unit/utils/test_JsonStream.py:133-134 | a positive buffer size is kept, the reader is kept and the buffer starts empty |
| JsonStreaming.JsonStream.ReadJsonObject | tests/unit/utils/test_JsonStream.py:97-127 | one call equals `Pull` of the old buffer and the unread chunks: its answer, the new buffer and the chunks left in the reader |
| JsonStreaming.FindObjectEnd | tests/unit/utils/test_JsonStream.py:97-104 | the one-pass depth scan finds exactly the least index that closes the outermost object, or None |
| JsonStreaming.PullConsumesPrefix | tests/unit/utils/test_JsonStream.py:97-127 | the chunking does not matter: a call answers the first complete object of buffer plus unread text and leaves exactly the rest pending; with no complete object it drains the source and keeps all of it buffered |
| JsonStreaming.ReadYieldsNextFrame | tests/unit/utils/test_JsonStream.py:111-127 | a call answers None iff no complete object is pending, otherwise the first pending frame, after which the remaining frames are pending in the same order: one object per call, input order, none emitted twice, the partial tail kept |
| JsonStreaming.PullResumes | tests/unit/utils/test_JsonStream.py:87-94 | after a None, more chunks from the source are read as if they had been there all along, so a buffered partial object can still be completed |
| Framing.FirstObjectEnd | tests/unit/utils/test_JsonStream.py:97-104 | the result is the least prefix length that ends with a `}` bringing the depth to zero; None iff no prefix does |
| Framing.FirstObjectEndExtends | tests/unit/utils/test_JsonStream.py:97-104 | bytes appended after a complete object do not move its end |
| Framing.FirstObjectIsWhole | tests/unit/utils/test_JsonStream.py:63-70 | the first object of a text, taken alone, is one complete object ending at its last byte |
| Framing.FlatObjectEnd | tests/unit/utils/test_JsonStream.py:63-70 | a brace-free object between `{` and `}` is framed whole, as the same string |
| Framing.NoCloseNoObject | tests/unit/utils/test_JsonStream.py:87-94 | a text without a `}` holds no complete object |
| Framing.FramesCover | tests/unit/utils/test_JsonStream.py:111-127 | the frames in order, followed by the retained tail, spell out the input exactly: nothing lost, duplicated or reordered |
| Framing.FramesAreObjects | tests/unit/utils/test_JsonStream.py:111-127 | every frame ends with `}` and closes its outermost object at its last byte and nowhere earlier |
| Framing.ResidueIsIncomplete | tests/unit/utils/test_JsonStream.py:97-108 | the retained tail never holds a complete object |
| JsonStreamTests.ReadFromEmptySourceGivesNone | tests/unit/utils/test_JsonStream.py:54-60 | reading from a source with no chunks answers None |
| JsonStreamTests.ReadOneObject | tests/unit/utils/test_JsonStream.py:63-70 | a chunk holding one object is answered as the same string |
| JsonStreamTests.ReadOneObjectTwice | tests/unit/utils/test_JsonStream.py:73-84 | the object is answered once, then None |
| JsonStreamTests.ReadIncompleteObjectGivesNone | tests/unit/utils/test_JsonStream.py:87-94 | an unterminated object answers None |
| JsonStreamTests.ReadCompleteThenIncomplete | tests/unit/utils/test_JsonStream.py:97-108 | a complete then a partial object in one chunk: the complete one, then None, with the partial one kept in the buffer |
| JsonStreamTests.ReadTwoObjectsFromOneChunk | tests/unit/utils/test_JsonStream.py:111-127 | two objects in one chunk come out one per call, in input order, then None |
| JsonStreamTests.ReadObjectBiggerThanBufferSize | tests/unit/utils/test_JsonStream.py:130-142 | a buffer size two short of the object still yields it whole, once, then None |
| JsonStreamTests.UnmatchedCloseFlat | tests/unit/utils/test_JsonStream.py:87-94 | after a stray `}` a flat object is not answered: the call answers None and everything stays buffered |
| JsonStreamTests.UnmatchedCloseNested | tests/unit/utils/test_JsonStream.py:97-104 | after a stray `}` a nested object is cut at its inner `}`: the answer `}{{}` starts with the stray `}`, is not a JSON object, and the outer `}` stays buffered |
| ControlProtocol.Handle | tests/unit/actor/abstract_test_actor.py:113-128 | only a running actor answers, and only a StartMessage; a poison pill leaves it not alive without a reply; an actor that is not running is unchanged; only a started or initialised actor becomes initialised |
| ControlProtocol.NotRunningIsInert | tests/unit/actor/abstract_test_actor.py:113-116 | an actor that is not running stays as it is and answers nothing, whatever it is sent |
| ControlProtocol.PoisonPillIsFinal | tests/unit/actor/abstract_test_actor.py:113-116 | after a poison pill the actor is not alive, whatever follows, and only the messages before the pill are answered |
| ControlProtocol.InitializedRefusesStart | tests/unit/actor/abstract_test_actor.py:124-128 | an initialised actor answers every message it answers with ErrorMessage("Actor already initialized") |
| ControlProtocol.OnlyFirstStartInitializes | tests/unit/actor/abstract_test_actor.py:104-128 | every reply but the first is the "Actor already initialized" refusal, so an actor sends at most one OKMessage |
| ControlProtocol.EveryStartAnswered | tests/unit/actor/abstract_test_actor.py:118-122 | while initialisation succeeds and no pill arrives, the actor stays alive, each StartMessage gets exactly one reply, and the first is OKMessage(name) for a not yet initialised actor |
| ControlProtocol.InitFailureKills | test/integration/puller/test_integration_puller_actor.py:210-213 | a failed initialisation is answered once with an ErrorMessage carrying its reason; the actor is then dead and answers nothing more |
| Actors.Actor.constructor | tests/unit/actor/abstract_test_actor.py:130-136 | a new actor is created, not alive, with neither channel connected and nothing pending |
| Actors.Actor.IsAlive | tests/unit/actor/abstract_test_actor.py:100-116 | true exactly while the actor is started or initialised, so false when created and after a poison pill, a failed initialisation or a terminate |
| Actors.Actor.Start | tests/unit/actor/abstract_test_actor.py:94-96 | a created actor becomes started and alive; nothing else changes |
| Actors.Actor.ConnectControl | tests/unit/actor/abstract_test_actor.py:98 | the control channel is connected; nothing else changes |
| Actors.Actor.ConnectData | tests/unit/actor/abstract_test_actor.py:97 | the data channel is connected; nothing else changes |
| Actors.Actor.SendControl | tests/unit/actor/abstract_test_actor.py:113-136 | raises NotConnectedException iff the control channel is not connected, changing nothing, alive or not; otherwise the new phase and the appended reply are those of `Handle` |
| Actors.Actor.SendData | tests/unit/actor/abstract_test_actor.py:130-132 | raises NotConnectedException iff the data channel is not connected; otherwise a running actor takes the message in unchanged; no reply and no phase change |
| Actors.Actor.ReceiveControl | tests/unit/actor/abstract_test_actor.py:118-122 | returns the oldest pending reply and removes it, or None when none is pending |
| Actors.Actor.Terminate | tests/unit/actor/abstract_test_actor.py:100-101 | a running actor becomes dead; one that is not running is unchanged |
| ActorTests.InitActor | tests/unit/actor/abstract_test_actor.py:94-99 | after start, connect_data and connect_control the actor is started, alive and connected on both channels |
| ActorTests.TeardownActor | tests/unit/actor/abstract_test_actor.py:100-101 | the actor is terminated only if it is alive, and is not alive afterwards |
| ActorTests.StartedActor | tests/unit/actor/abstract_test_actor.py:104-108 | after one StartMessage and its reply the actor is initialised with nothing pending |
| ActorTests.NewActorIsAlive | tests/unit/actor/abstract_test_actor.py:110-111 | an actor through the set-up fixture is alive |
| ActorTests.PoisonPillStopsActor | tests/unit/actor/abstract_test_actor.py:113-116 | after a poison pill the actor is not alive and no reply arrives |
| ActorTests.StartAnswersOk | tests/unit/actor/abstract_test_actor.py:118-122 | the first StartMessage is answered OKMessage carrying the actor's name |
| ActorTests.SecondStartAnswersError | tests/unit/actor/abstract_test_actor.py:124-128 | a second StartMessage is answered with an ErrorMessage whose error_message is exactly 'Actor already initialized', and the actor stays alive |
| ActorTests.SendDataBeforeConnectRaises | tests/unit/actor/abstract_test_actor.py:130-132 | send_data on an actor that is not connected raises NotConnectedException |
| ActorTests.SendControlBeforeConnectRaises | tests/unit/actor/abstract_test_actor.py:134-136 | send_control on an actor that is not connected raises NotConnectedException |
| ActorTests.PullerStartWithReachableStore | test/integration/puller/test_integration_puller_actor.py:177-184 | a puller whose store loads, with only its control channel connected, answers StartMessage with OKMessage and stays alive |
| ActorTests.PullerStartWithUnreachableStore | test/integration/puller/test_integration_puller_actor.py:206-213 | a puller whose store is unreachable answers StartMessage with an ErrorMessage and is then not alive, with no outside help |
| FakeActors.Queue.Put | tests/unit/actor/abstract_test_actor.py:47 | the entry is appended at the end of the queue |
| FakeActors.FakeActor.constructor | tests/unit/actor/abstract_test_actor.py:41-48 | records (name, args, kwargs) on the given queue and starts out not alive |
| FakeActors.FakeActor.ConnectData | tests/unit/actor/abstract_test_actor.py:50-51 | changes nothing, neither the fake nor its queue |
| FakeActors.FakeActor.ConnectControl | tests/unit/actor/abstract_test_actor.py:53-54 | changes nothing, neither the fake nor its queue |
| FakeActors.FakeActor.Join | tests/unit/actor/abstract_test_actor.py:56-57 | changes nothing, neither the fake nor its queue |
| FakeActors.FakeActor.IsAlive | tests/unit/actor/abstract_test_actor.py:59-60 | answers the fake's `alive` flag |
| FakeActors.FakeActor.HardKill | tests/unit/actor/abstract_test_actor.py:62-64 | clears alive and records 'hard kill' |
| FakeActors.FakeActor.SoftKill | tests/unit/actor/abstract_test_actor.py:66-68 | clears alive and records 'soft kill' |
| FakeActors.FakeActor.SendData | tests/unit/actor/abstract_test_actor.py:70-71 | records the message unchanged and touches nothing else |
| FakeActors.FakeActor.SendControl | tests/unit/actor/abstract_test_actor.py:73-74 | records the message unchanged and touches nothing else |
| FakeActors.FakeActor.Start | tests/unit/actor/abstract_test_actor.py:76-78 | sets alive and records 'start' |
| FakeActors.FakeActor.Terminate | tests/unit/actor/abstract_test_actor.py:80-81 | records 'terminate' and leaves alive as it was |
| ActorTests.InitFakeActor | tests/unit/actor/abstract_test_actor.py:94-98 | the set-up fixture on the fake leaves it alive and records only 'start' |
| ActorTests.TeardownFakeActor | tests/unit/actor/abstract_test_actor.py:100-101 | the tear-down fixture records 'terminate' on the fake only if it is alive |
| ActorTests.FakeActorFixtureLog | tests/unit/actor/abstract_test_actor.py:41-101 | a fake kept alive through a test records its construction, 'start' and 'terminate', in that order |
| ActorTests.FakeActorKilledLog | tests/unit/actor/abstract_test_actor.py:62-101 | a fake that is sent data and control messages and then hard-killed records them in call order, ends not alive, and gets no 'terminate' at tear-down |

## Left out

- The real `powerapi.utils.JsonStream` and `powerapi.actor.Actor` sources are not part of this model; both are modelled from what the tests assert, and the framing rule above is the simplest one consistent with every test.
- Braces inside JSON string literals and JSON validity in general: no test exercises them, and the model counts every brace.
- UTF-8: the reader encodes each chunk and the framer decodes it; the model keeps chunks as text, taking the two to cancel out.
- An empty chunk is appended like any other chunk. Whether the real framer takes an empty read as end of input is not fixed by any test.
- asyncio, futures and `time.sleep`: the reader's 0.2 s delay when empty, the test's 0.1 s wait after a poison pill, the 2000 ms `receive_control` timeout and `is_actor_alive`'s 0.5 s `join` are not modelled; running out of replies is the timeout.
- Actor concurrency: each actor runs in its own process in the source. The model handles a control message when it is sent and queues its reply. A message sent to a connected actor that has not been started is dropped in the model, where the real socket would hold it.
- Data handling is specific to each kind of actor; the model only records what a running actor takes in.
- `hard_kill` and `soft_kill` of the real actor are not asserted by any shown test and are modelled only on `FakeActor`.
- The logger and `socket_interface` mocks, and `socket_interface.close()`.
- After an unmatched `}` the depth stays one lower for the rest of the stream. A flat object after it is never answered and stays buffered. A nested object is cut at its inner `}`, so the answer starts with the stray `}`, is not a JSON object, and the outer `}` stays buffered. No test fixes this case; the model keeps the plain brace count.
- An `OKMessage` or `ErrorMessage` sent as a control request is ignored by a running actor (no reply, no change); no source line fixes this case.
- FakeActors.FakeActor.constructor: positional and keyword arguments are modelled as strings rather than arbitrary Python values.
- The puller's store and dispatcher: only whether initialisation succeeds (with a reason when it fails) is modelled. The integration test's check that `load` and `connect_data` were called (test/integration/puller/test_integration_puller_actor.py:117-144, 182) is socket and mock plumbing and is not modelled.
- ActorTests.PullerStartWithUnreachableStore: the test checks only that the reply is an `ErrorMessage`; the model also fixes its text to the failure's reason, which the source does not state.
- Filter and Dispatcher routing, and the data source: nothing shown implements or tests them beyond a catch-all rule in the integration test.
