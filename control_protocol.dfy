/**
 * The control protocol every actor follows, as a pure transition on its
 * lifecycle phase, and what it implies for a whole series of control
 * messages.
 *
 * Phases: created (not yet started), started (alive, not initialised),
 * initialised (alive, serving) and dead. What initialisation does is
 * particular to each kind of actor; here it is a parameter that says
 * whether it succeeds and, if not, with which reason.
 */
module ControlProtocol {
  import opened Wrappers
  import opened Messages

  datatype Phase = Created | Started | Initialized | Dead

  /** `is_alive()`: the actor's execution context is running. */
  predicate Alive(p: Phase)
  {
    p.Started? || p.Initialized?
  }

  /** The outcome of the actor's own initialisation, decided by its environment. */
  datatype InitResult = InitSucceeds | InitFails(reason: string)

  datatype Transition = Transition(next: Phase, reply: Option<Message>)

  /**
   * How an actor named `name` in phase `p` handles one control message.
   * An actor that is not running processes nothing. A PoisonPillMessage
   * stops it without a reply. The first StartMessage runs the
   * initialisation and is answered OK, or with the failure's reason,
   * after which the actor is dead; a later StartMessage is refused.
   * An OKMessage or ErrorMessage sent as a control request is ignored by
   * a running actor: no reply, no change. No source line fixes this case.
   */
  function Handle(p: Phase, name: string, init: InitResult, msg: Message): (t: Transition)
    ensures t.reply.Some? ==> Alive(p) && msg == StartMessage
    ensures msg == PoisonPillMessage ==> t.reply == None && !Alive(t.next)
    ensures !Alive(p) ==> t == Transition(p, None)
    ensures t.next == Initialized ==> p == Started || p == Initialized
  {
    if !Alive(p) then Transition(p, None)
    else
      match msg
      case PoisonPillMessage => Transition(Dead, None)
      case StartMessage =>
        if p == Initialized then Transition(Initialized, Some(ErrorMessage(AlreadyInitialized)))
        else (
          match init
          case InitSucceeds => Transition(Initialized, Some(OKMessage(name)))
          case InitFails(reason) => Transition(Dead, Some(ErrorMessage(reason)))
        )
      case _ => Transition(p, None)
  }

  /** The last phase and the replies, in order, after a series of control messages. */
  datatype Trace = Trace(last: Phase, replies: seq<Message>)

  function Run(p: Phase, name: string, init: InitResult, msgs: seq<Message>): Trace
    decreases |msgs|
  {
    if msgs == [] then Trace(p, [])
    else
      var t := Handle(p, name, init, msgs[0]);
      var rest := Run(t.next, name, init, msgs[1..]);
      Trace(rest.last, ToSeq(t.reply) + rest.replies)
  }

  /** The number of StartMessages in a series. */
  function Starts(msgs: seq<Message>): nat
  {
    if msgs == [] then 0 else (if msgs[0] == StartMessage then 1 else 0) + Starts(msgs[1..])
  }

  /** An actor that is not running stays as it is and answers nothing. */
  lemma {:induction false} NotRunningIsInert(p: Phase, name: string, init: InitResult, msgs: seq<Message>)
    requires !Alive(p)
    ensures Run(p, name, init, msgs) == Trace(p, [])
    decreases |msgs|
  {
    if msgs != [] {
      NotRunningIsInert(p, name, init, msgs[1..]);
    }
  }

  /**
   * After a PoisonPillMessage the actor is not alive, whatever follows,
   * and only the messages before the pill were answered.
   */
  lemma {:induction false} PoisonPillIsFinal(p: Phase, name: string, init: InitResult,
                                             before: seq<Message>, after: seq<Message>)
    ensures var r := Run(p, name, init, before + [PoisonPillMessage] + after);
            !Alive(r.last) && r.replies == Run(p, name, init, before).replies
    decreases |before|
  {
    var msgs := before + [PoisonPillMessage] + after;
    if before == [] {
      assert msgs[0] == PoisonPillMessage && msgs[1..] == after;
      NotRunningIsInert(Handle(p, name, init, PoisonPillMessage).next, name, init, after);
    } else {
      assert msgs[0] == before[0];
      assert msgs[1..] == before[1..] + [PoisonPillMessage] + after;
      PoisonPillIsFinal(Handle(p, name, init, before[0]).next, name, init, before[1..], after);
    }
  }

  /** An initialised actor refuses every StartMessage and answers nothing else. */
  lemma {:induction false} InitializedRefusesStart(name: string, init: InitResult, msgs: seq<Message>)
    ensures forall j :: 0 <= j < |Run(Initialized, name, init, msgs).replies| ==>
              Run(Initialized, name, init, msgs).replies[j] == ErrorMessage(AlreadyInitialized)
    decreases |msgs|
  {
    if msgs != [] {
      var t := Handle(Initialized, name, init, msgs[0]);
      InitializedRefusesStart(name, init, msgs[1..]);
      if t.next == Dead {
        NotRunningIsInert(Dead, name, init, msgs[1..]);
      }
    }
  }

  /**
   * Initialisation runs at most once: every reply but the first one of a
   * run is the refusal "Actor already initialized", so at most one
   * OKMessage is ever sent.
   */
  lemma {:induction false} OnlyFirstStartInitializes(p: Phase, name: string, init: InitResult, msgs: seq<Message>)
    ensures var rs := Run(p, name, init, msgs).replies;
            forall j :: 0 < j < |rs| ==> rs[j] == ErrorMessage(AlreadyInitialized)
    decreases |msgs|
  {
    if msgs != [] {
      var t := Handle(p, name, init, msgs[0]);
      if t.next == Initialized {
        InitializedRefusesStart(name, init, msgs[1..]);
      } else if !Alive(t.next) {
        NotRunningIsInert(t.next, name, init, msgs[1..]);
      } else {
        assert Run(p, name, init, msgs).replies == Run(t.next, name, init, msgs[1..]).replies;
        OnlyFirstStartInitializes(t.next, name, init, msgs[1..]);
      }
    }
  }

  /**
   * While the actor stays alive (its initialisation succeeds and no pill
   * arrives), every StartMessage gets exactly one reply, and the first of
   * them is the OKMessage when the actor had not been initialised.
   */
  lemma {:induction false} EveryStartAnswered(p: Phase, name: string, msgs: seq<Message>)
    requires Alive(p)
    requires PoisonPillMessage !in msgs
    ensures var r := Run(p, name, InitSucceeds, msgs);
            && |r.replies| == Starts(msgs)
            && Alive(r.last)
            && (p == Started && StartMessage in msgs ==> |r.replies| > 0 && r.replies[0] == OKMessage(name))
    decreases |msgs|
  {
    if msgs != [] {
      var t := Handle(p, name, InitSucceeds, msgs[0]);
      assert msgs == [msgs[0]] + msgs[1..];
      EveryStartAnswered(t.next, name, msgs[1..]);
    }
  }

  /**
   * A failed initialisation is reported once, with its reason, and the
   * actor is then dead and answers nothing more.
   */
  lemma InitFailureKills(name: string, reason: string, msgs: seq<Message>)
    ensures Run(Started, name, InitFails(reason), [StartMessage] + msgs)
            == Trace(Dead, [ErrorMessage(reason)])
  {
    var all := [StartMessage] + msgs;
    assert all[0] == StartMessage && all[1..] == msgs;
    NotRunningIsInert(Dead, name, InitFails(reason), msgs);
  }
}
