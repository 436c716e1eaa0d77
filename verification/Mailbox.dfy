// The message queue of a process in base/mess/mess.c, and the guarantee that a
// process that receives and then deletes gets every message once, in order.

module Mailbox {
  import opened Lists

  const MESSAGE_TYPE_FIRST: nat := 0

  class Message {
    const typ: nat
    var next: Message?

    constructor (typ: nat)
      ensures this.typ == typ && next == null
    {
      this.typ, next := typ, null;
    }
  }

  datatype Status = Success | InvalidHandle | NoMemory | NoSuchProcess

  // The message queue of a process, and its place among the waiting receivers.
  class Mailbox {
    var messageQueue: Message?       // MessageQueue of the process
    var waiting: Option<nat>         // blocked on processQueue, for messages of a type
    ghost var queue: seq<Message>
    ghost var held: Option<Message>  // received and not deleted yet

    ghost predicate Valid()
      reads this, queue
    {
      && NoDup(queue)
      && messageQueue == At<Message?>(queue, 0, null)
      && forall i {:trigger queue[i].next} :: 0 <= i < |queue| ==> queue[i].next == At<Message?>(queue, i + 1, null)
    }

    ghost function S(): State<Message>
      reads this
    {
      State(queue, waiting.Some?, held)
    }

    constructor ()
      ensures Valid() && S() == State([], false, None)
    {
      messageQueue, waiting, queue, held := null, None, [], None;
    }

    // The end of MessSendMessage. A receiver that waits for any message, or for one
    // of this type, is handed the message, which is queued all the same.
    method SendMessage(message: Message) returns (handed: bool)
      requires Valid() && message !in queue && message.next == null
      modifies this, queue
      ensures Valid() && queue == old(queue) + [message]
      ensures handed <==> old(waiting) == Some(MESSAGE_TYPE_FIRST) || old(waiting) == Some(message.typ)
      ensures if handed then waiting == None && held == Some(message) else waiting == old(waiting) && held == old(held)
      ensures old(waiting) in {None, Some(MESSAGE_TYPE_FIRST)} ==> S() == Step(old(S()), Send(message))
    {
      handed := false;
      if waiting.Some? {
        if waiting.value == MESSAGE_TYPE_FIRST || waiting.value == message.typ {
          handed, waiting := true, None;
          held := Some(message);
        }
      }
      if messageQueue == null {
        messageQueue := message;
      } else {
        var mq: Message := messageQueue;
        ghost var i: nat := 0;
        while mq.next != null
          invariant i < |queue| && mq == queue[i]
          decreases |queue| - i
        {
          mq := mq.next;
          i := i + 1;
        }
        mq.next := message;
      }
      NoDupAppend(queue, message);
      queue := queue + [message];
    }

    // MessReceiveFirst: the first message is taken off the queue. Without one the
    // receiver waits; if there is no memory to list it, it only sleeps.
    method ReceiveFirst(memory: bool) returns (message: Message?)
      requires Valid()
      modifies this, queue
      ensures Valid()
      ensures if old(queue) == [] then
                message == null && queue == [] && waiting == if memory then Some(MESSAGE_TYPE_FIRST) else old(waiting)
              else
                && message == old(queue)[0] && message.next == null
                && waiting == old(waiting) && queue == old(queue)[1..]
      ensures Legal(old(S()), Receive) ==>
                S() == if memory || old(queue) != [] then Step(old(S()), Receive) else old(S())
    {
      if messageQueue != null {
        message := messageQueue;
        messageQueue := message.next;
        message.next := null;
        ghost var was := queue;
        queue := queue[1..];
        assert forall i :: 0 <= i < |queue| ==> queue[i] == was[i + 1];
        held := Some(message);
      } else {
        if memory {
          waiting := Some(MESSAGE_TYPE_FIRST);
        }
        message := null;
      }
    }

    // ResumeMethod, when the time of a waiting receiver is up.
    method StopWaiting()
      requires Valid()
      modifies this`waiting
      ensures Valid() && waiting == None && queue == old(queue) && held == old(held)
      ensures old(waiting) != None ==> S() == Step(old(S()), Timeout)
    {
      waiting := None;
    }

    // MessDeleteMessage. A message that was at the head is deleted, too, but
    // reported as missing.
    method DeleteMessage(message: Message) returns (status: Status)
      requires Valid()
      modifies this, queue
      ensures Valid() && queue == Remove(old(queue), message) && waiting == old(waiting)
      ensures status in {Success, InvalidHandle}
      ensures status == Success <==> old(queue) == [] || (message in old(queue) && message != old(queue)[0])
      ensures Legal(old(S()), Delete) && old(held) == Some(message) ==> S() == Step(old(S()), Delete)
    {
      hide Remove;
      if held == Some(message) {
        held := None;
      }
      if messageQueue == null {
        NothingToRemove(queue, message);
        return Success;
      }
      if messageQueue == message {
        RemoveFirst(queue);
        messageQueue := message.next;
        queue := queue[1..];
        return InvalidHandle;
      }
      var m := messageQueue;
      ghost var i: nat := 0;
      while m != null
        invariant i <= |queue| && m == At<Message?>(queue, i, null)
        invariant forall k :: 0 <= k <= i && k < |queue| ==> queue[k] != message
        decreases |queue| - i
      {
        if m.next == message {
          UnlinkAfter(m, message, i);
          return Success;
        }
        m := m.next;
        i := i + 1;
      }
      NothingToRemove(queue, message);
      return InvalidHandle;
    }

    // m->next = message->next, where m is at place i.
    method UnlinkAfter(m: Message, message: Message, ghost i: nat)
      requires Valid() && i < |queue| && m == queue[i] && m.next == message
      modifies this`queue, m
      ensures Valid() && message in old(queue) && queue == Remove(old(queue), message)
    {
      hide Remove, NoDup;
      ghost var was := queue;
      assert was[i + 1] == message;
      Unlinked(was, i + 1);
      m.next := message.next;
      queue := Remove(queue, message);
    }
  }

  // MessSendMessage to the process with the given mailbox, if there is one. An
  // allocation that fails, or a receiver that does not exist, changes nothing.
  method MessSendMessage(receiver: Mailbox?, typ: nat, memory: bool)
    returns (status: Status, message: Message?, handed: bool)
    requires receiver != null ==> receiver.Valid()
    modifies if receiver == null then {} else {receiver}, if receiver == null then [] else receiver.queue
    ensures status == if !memory then NoMemory else if receiver == null then NoSuchProcess else Success
    ensures status == Success ==>
              && fresh(message) && message.typ == typ
              && receiver.Valid() && receiver.queue == old(receiver.queue) + [message]
              && (handed <==> old(receiver.waiting) == Some(MESSAGE_TYPE_FIRST) || old(receiver.waiting) == Some(typ))
              && (old(receiver.waiting) in {None, Some(MESSAGE_TYPE_FIRST)} ==>
                    receiver.S() == Step(old(receiver.S()), Send(message)))
    ensures status != Success && receiver != null ==> receiver.Valid() && receiver.S() == old(receiver.S())
  {
    if !memory {
      return NoMemory, null, false;
    }
    message := new Message(typ);
    if receiver == null {
      return NoSuchProcess, null, false;
    }
    handed := receiver.SendMessage(message);
    return Success, message, handed;
  }

  lemma {:induction false} Unlinked(l: seq<Message>, i: nat)
    requires NoDup(l) && 0 < i < |l|
    ensures var r := Remove(l, l[i]);
            && NoDup(r) && |r| == |l| - 1
            && (forall k: nat {:trigger At<Message?>(r, k, null)} ::
                  At<Message?>(r, k, null) == At<Message?>(l, if k < i then k else k + 1, null))
            && (forall k {:trigger r[k]} :: 0 <= k < |r| ==> r[k] == if k < i then l[k] else l[k + 1])
    ensures forall k :: 0 <= k < |l| && k != i - 1 ==> l[k] != l[i - 1]
  {
    RemoveAt(l, i);
    RemoveMembers(l, l[i]);
  }

  lemma {:induction false} NothingToRemove<M>(l: seq<M>, x: M)
    requires x !in l
    ensures Remove(l, x) == l
  {
  }

  // ---------------------------------------------------------------------------
  // Sending, receiving and deleting in any order
  // ---------------------------------------------------------------------------

  // held is the message received and not deleted yet.
  datatype State<M> = State(queue: seq<M>, waiting: bool, held: Option<M>)

  datatype Event<M> = Send(m: M) | Receive | Timeout | Delete

  // A receiver runs while it does not wait, and deletes a message before it asks
  // for the next one.
  predicate Legal<M>(s: State<M>, e: Event<M>) {
    match e
    case Send(_) => true
    case Receive => !s.waiting && s.held == None
    case Timeout => s.waiting
    case Delete => !s.waiting && s.held != None
  }

  function Step<M(==)>(s: State<M>, e: Event<M>): State<M>
    requires Legal(s, e)
  {
    match e
    case Send(m) => State(s.queue + [m], false, if s.waiting then Some(m) else s.held)
    case Receive => if s.queue == [] then s.(waiting := true) else State(s.queue[1..], false, Some(s.queue[0]))
    case Timeout => s.(waiting := false)
    case Delete => s.(queue := Remove(s.queue, s.held.value), held := None)
  }

  predicate LegalRun<M(==)>(s: State<M>, es: seq<Event<M>>)
    decreases |es|
  {
    es == [] || (Legal(s, es[0]) && LegalRun(Step(s, es[0]), es[1..]))
  }

  function Run<M(==)>(s: State<M>, es: seq<Event<M>>): State<M>
    requires LegalRun(s, es)
    decreases |es|
  {
    if es == [] then s else Run(Step(s, es[0]), es[1..])
  }

  function Sent<M>(es: seq<Event<M>>): seq<M> {
    if es == [] then [] else (if es[0].Send? then [es[0].m] else []) + Sent(es[1..])
  }

  // The messages the receiver gets hold of, in order.
  function Received<M(==)>(s: State<M>, es: seq<Event<M>>): seq<M>
    requires LegalRun(s, es)
    decreases |es|
  {
    if es == [] then []
    else
      var t := Step(s, es[0]);
      (if s.held == None && t.held != None then [t.held.value] else []) + Received(t, es[1..])
  }

  // The messages the receiver has not got yet.
  function Pending<M(==)>(s: State<M>): seq<M> {
    if s.held != None && s.queue != [] && s.held.value == s.queue[0] then s.queue[1..] else s.queue
  }

  // A message that was handed over heads the queue, and one that was taken off it
  // is not on it. Somebody who waits has nothing to receive.
  ghost predicate Inv<M>(s: State<M>) {
    && NoDup(s.queue)
    && (s.waiting ==> s.queue == [] && s.held == None)
    && (s.held != None && s.held.value in s.queue ==> s.held.value == s.queue[0])
  }

  // None of these messages was sent before.
  ghost predicate AreNew<M>(s: State<M>, ms: seq<M>) {
    && NoDup(ms)
    && (forall m | m in ms :: m !in s.queue && s.held != Some(m))
  }

  lemma {:induction false} StepOk<M>(s: State<M>, e: Event<M>)
    requires Inv(s) && Legal(s, e) && (e.Send? ==> e.m !in s.queue && s.held != Some(e.m))
    ensures Inv(Step(s, e))
    ensures var t := Step(s, e);
            Pending(s) + (if e.Send? then [e.m] else [])
            == (if s.held == None && t.held != None then [t.held.value] else []) + Pending(t)
  {
    match e {
      case Send(m) => NoDupAppend(s.queue, m);
      case Delete =>
        RemoveMembers(s.queue, s.held.value);
        if s.queue != [] && s.held.value == s.queue[0] {
          RemoveFirst(s.queue);
        }
      case _ =>
    }
  }

  // Every message is received exactly once and in the order of sending: what was
  // received and what is pending make up what was sent.
  lemma {:induction false} ExactlyOnceInOrder<M>(s: State<M>, es: seq<Event<M>>)
    requires Inv(s) && LegalRun(s, es) && AreNew(s, Sent(es))
    ensures Inv(Run(s, es))
    ensures Received(s, es) + Pending(Run(s, es)) == Pending(s) + Sent(es)
    decreases |es|
  {
    hide Inv, Legal, Step, Pending, AreNew;
    if es == [] {
      assert Pending(s) + [] == Pending(s) && [] + Pending(s) == Pending(s);
    } else {
      NewRemain(s, es);
      StepOk(s, es[0]);
      var t := Step(s, es[0]);
      ExactlyOnceInOrder(t, es[1..]);
      JoinSteps(if s.held == None && t.held != None then [t.held.value] else [], Pending(t),
                Pending(s), if es[0].Send? then [es[0].m] else [],
                Received(t, es[1..]), Pending(Run(t, es[1..])), Sent(es[1..]));
    }
  }

  lemma {:induction false} NewRemain<M>(s: State<M>, es: seq<Event<M>>)
    requires es != [] && Legal(s, es[0]) && AreNew(s, Sent(es)) && Inv(s)
    ensures AreNew(Step(s, es[0]), Sent(es[1..])) && (es[0].Send? ==> es[0].m !in s.queue && s.held != Some(es[0].m))
  {
    var rest := Sent(es[1..]);
    if es[0].Send? {
      assert Sent(es)[0] == es[0].m && Sent(es)[1..] == rest;
    } else {
      assert Sent(es) == rest;
      if es[0].Delete? {
        RemoveMembers(s.queue, s.held.value);
      }
    }
  }

  // A receiver waits exactly when the last thing it did was to ask for a message
  // when there was none: any message, and the end of its time, ends the wait.
  lemma {:induction false} WaitsWhenEmpty<M>(s: State<M>, es: seq<Event<M>>)
    requires LegalRun(s, es) && es != []
    ensures var init := es[..|es| - 1];
            LegalRun(s, init)
            && (Run(s, es).waiting <==> es[|es| - 1] == Receive && Run(s, init).queue == [])
    decreases |es|
  {
    if |es| > 1 {
      WaitsWhenEmpty(Step(s, es[0]), es[1..]);
      assert es[..|es| - 1][1..] == es[1..][..|es| - 2];
    }
  }

  // A receiver that receives and deletes m times.
  function Rounds<M>(m: nat): seq<Event<M>> {
    if m == 0 then [] else [Receive, Delete] + Rounds(m - 1)
  }

  // A receiver that goes on receiving and deleting gets all that is queued.
  lemma {:induction false} MailboxDrains<M>(s: State<M>)
    requires Inv(s) && !s.waiting && s.held == None
    ensures var es := Rounds<M>(|s.queue|);
            && LegalRun(s, es) && Received(s, es) == s.queue
            && Run(s, es) == State([], false, None)
    decreases |s.queue|
  {
    hide Remove;
    if s.queue != [] {
      var m, rest := s.queue[0], Rounds<M>(|s.queue| - 1);
      var es := [Receive, Delete] + rest;
      var t := Step(s, Receive);
      NothingToRemove(s.queue[1..], m);
      var u := Step(t, Delete);
      assert es[1..][1..] == rest && es[1..][0] == Delete;
      MailboxDrains(u);
      assert Received(s, es) == [m] + Received(u, rest);
    }
  }

  // From an empty mailbox: nothing is lost, doubled or reordered.
  lemma {:induction false} MailboxIsFifo<M>(es: seq<Event<M>>)
    requires LegalRun(State([], false, None), es) && NoDup(Sent(es))
    ensures var start: State<M> := State([], false, None);
            Received(start, es) + Pending(Run(start, es)) == Sent(es)
  {
    ExactlyOnceInOrder(State([], false, None), es);
  }
}
