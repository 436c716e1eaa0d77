// The serial line of base/io/io.c: strings queued for output, sent character by
// character from the transmitter interrupt, and the buffer for received characters.

module Serial {
  import opened Lists

  const BUFFER_SIZE: nat := 512
  const FIFO_SIZE: nat := 16

  // ---------------------------------------------------------------------------
  // The transmit queue as strings
  // ---------------------------------------------------------------------------

  // The strings that are queued, and how much of the first one was sent.
  datatype Line = Line(queue: seq<string>, at: nat)

  ghost predicate LineOk(l: Line) {
    if l.queue == [] then l.at == 0 else l.at <= |l.queue[0]|
  }

  // IoWriteSerial
  function Write(l: Line, text: string): Line {
    Line(l.queue + [text], l.at)
  }

  // IoTransmitterInterruptHandler: the character that is displayed, if any. Moving
  // on to the next string takes an interrupt of its own.
  function Shown(l: Line): Option<char> {
    if l.queue != [] && l.at < |l.queue[0]| then Some(l.queue[0][l.at]) else None
  }

  function Interrupt(l: Line): Line {
    if l.queue == [] then l
    else if l.at < |l.queue[0]| then Line(l.queue, l.at + 1)
    else Line(l.queue[1..], 0)
  }

  function Concat(queue: seq<string>): string {
    if queue == [] then [] else queue[0] + Concat(queue[1..])
  }

  lemma {:induction false} ConcatAppend(queue: seq<string>, text: string)
    ensures Concat(queue + [text]) == Concat(queue) + text
  {
    if queue == [] {
      assert queue + [text] == [text];
      assert Concat([text][1..]) == [];
    } else {
      assert (queue + [text])[1..] == queue[1..] + [text];
      ConcatAppend(queue[1..], text);
    }
  }

  // What is still to be sent.
  function Remaining(l: Line): string
    requires LineOk(l)
  {
    if l.queue == [] then [] else l.queue[0][l.at..] + Concat(l.queue[1..])
  }

  // ---------------------------------------------------------------------------
  // Any interleaving of writes and interrupts
  // ---------------------------------------------------------------------------

  datatype Event = WriteE(text: string) | InterruptE

  function Step(l: Line, e: Event): (r: Line)
    requires LineOk(l)
    ensures LineOk(r)
  {
    match e
    case WriteE(text) => Write(l, text)
    case InterruptE => Interrupt(l)
  }

  function Run(l: Line, es: seq<Event>): (r: Line)
    requires LineOk(l)
    ensures LineOk(r)
    decreases |es|
  {
    if es == [] then l else Run(Step(l, es[0]), es[1..])
  }

  function Emitted(l: Line, es: seq<Event>): string
    requires LineOk(l)
    decreases |es|
  {
    if es == [] then []
    else (if es[0].InterruptE? && Shown(l).Some? then [Shown(l).value] else []) + Emitted(Step(l, es[0]), es[1..])
  }

  function Written(es: seq<Event>): string {
    if es == [] then [] else (if es[0].WriteE? then es[0].text else []) + Written(es[1..])
  }

  lemma {:induction false} WriteEmits(l: Line, text: string)
    requires LineOk(l)
    ensures Remaining(Write(l, text)) == Remaining(l) + text
  {
    if l.queue == [] {
      ConcatAppend([], text);
      assert [text][1..] == [];
    } else {
      hide Concat;
      ConcatAppend(l.queue[1..], text);
      assert (l.queue + [text])[1..] == l.queue[1..] + [text];
      Associative(l.queue[0][l.at..], Concat(l.queue[1..]), text);
    }
  }

  lemma {:induction false} Associative<T>(a: seq<T>, b: seq<T>, c: seq<T>)
    ensures a + (b + c) == (a + b) + c
  {
  }

  lemma {:induction false} ShownEmits(l: Line)
    requires LineOk(l) && Shown(l).Some?
    ensures [Shown(l).value] + Remaining(Interrupt(l)) == Remaining(l)
  {
    hide Concat;
    var first := l.queue[0];
    assert first[l.at..] == [first[l.at]] + first[l.at + 1..];
    Associative([first[l.at]], first[l.at + 1..], Concat(l.queue[1..]));
  }

  lemma {:induction false} NextEmits(l: Line)
    requires LineOk(l) && Shown(l).None?
    ensures Remaining(Interrupt(l)) == Remaining(l)
  {
    if l.queue != [] {
      assert l.queue[0][l.at..] == [];
      var rest := l.queue[1..];
      assert rest != [] ==> rest[0][0..] == rest[0];
    }
  }

  lemma {:induction false} StepEmits(l: Line, e: Event)
    requires LineOk(l)
    ensures (if e.InterruptE? && Shown(l).Some? then [Shown(l).value] else []) + Remaining(Step(l, e))
         == Remaining(l) + (if e.WriteE? then e.text else [])
  {
    hide Remaining, Write, Interrupt, Shown;
    if e.WriteE? {
      WriteEmits(l, e.text);
    } else if Shown(l).Some? {
      ShownEmits(l);
    } else {
      NextEmits(l);
    }
  }

  // What was sent and what is still to be sent make up what was to be sent and what
  // was written meanwhile, in order: nothing is lost, doubled or mixed up.
  lemma {:induction false} OutputIsInOrder(l: Line, es: seq<Event>)
    requires LineOk(l)
    ensures Emitted(l, es) + Remaining(Run(l, es)) == Remaining(l) + Written(es)
    decreases |es|
  {
    if es != [] {
      var t := Step(l, es[0]);
      StepEmits(l, es[0]);
      OutputIsInOrder(t, es[1..]);
      JoinSteps(if es[0].InterruptE? && Shown(l).Some? then [Shown(l).value] else [], Remaining(t),
                Remaining(l), if es[0].WriteE? then es[0].text else [],
                Emitted(t, es[1..]), Remaining(Run(t, es[1..])), Written(es[1..]));
    }
  }

  // From an empty queue, the display shows a prefix of what was written.
  lemma {:induction false} DisplayIsPrefix(es: seq<Event>)
    ensures Emitted(Line([], 0), es) <= Written(es)
    ensures Run(Line([], 0), es).queue == [] ==> Emitted(Line([], 0), es) == Written(es)
  {
    OutputIsInOrder(Line([], 0), es);
    assert Remaining(Line([], 0)) + Written(es) == Written(es);
  }

  // How many interrupts it takes to empty the queue: one for each character and one
  // for the end of each string.
  function Cost(queue: seq<string>): nat {
    if queue == [] then 0 else |queue[0]| + 1 + Cost(queue[1..])
  }

  // After m further interrupts and no writes the queue is empty exactly if m is at
  // least that many.
  lemma {:induction false} DrainTime(l: Line, m: nat)
    requires LineOk(l)
    ensures Cost(l.queue) >= l.at
    ensures Run(l, seq(m, _ => InterruptE)).queue == [] <==> m >= Cost(l.queue) - l.at
    decreases m
  {
    if m == 0 {
      assert seq(m, _ => InterruptE) == [];
    } else {
      assert seq(m, _ => InterruptE)[1..] == seq((m - 1) as nat, _ => InterruptE);
      DrainTime(Interrupt(l), m - 1);
    }
  }

  // ---------------------------------------------------------------------------
  // The queue in memory
  // ---------------------------------------------------------------------------

  class Node {
    const buffer: array<char>
    var next: Node?
    ghost const text: string

    // The text, null-terminated, at the beginning of the buffer.
    ghost predicate Holds()
      reads this, buffer
    {
      && buffer.Length == BUFFER_SIZE && |text| < BUFFER_SIZE
      && (forall i :: 0 <= i < |text| ==> buffer[i] == text[i] && text[i] != '\0')
      && buffer[|text|] == '\0'
    }

    // The new node of IoWriteSerial, with the loop of RtlCopyString.
    constructor (text: string)
      requires |text| < BUFFER_SIZE && forall i :: 0 <= i < |text| ==> text[i] != '\0'
      ensures this.text == text && Holds() && next == null && fresh(buffer)
    {
      this.text := text;
      next := null;
      buffer := new char[BUFFER_SIZE];
      new;
      var i := 0;
      while i < |text|
        invariant i <= |text| && next == null && forall k :: 0 <= k < i ==> buffer[k] == text[k]
      {
        buffer[i] := text[i];
        i := i + 1;
      }
      buffer[i] := '\0';
    }
  }

  ghost function Texts(nodes: seq<Node>): (t: seq<string>)
    ensures |t| == |nodes| && forall i :: 0 <= i < |t| ==> t[i] == nodes[i].text
  {
    seq(|nodes|, i requires 0 <= i < |nodes| => nodes[i].text)
  }

  // outputPointer is null when outputNode is, and otherwise points to character
  // outputAt of the buffer of outputNode.
  class Output {
    var first: Node?
    var last: Node?
    var outputNode: Node?
    var outputAt: nat
    ghost var nodes: seq<Node>

    ghost function Contents(): Line
      reads this
    {
      Line(Texts(nodes), outputAt)
    }

    // outputPointer is not null exactly when the queue is not empty, and points
    // into the first node.
    ghost predicate Valid()
      reads this, nodes, set n | n in nodes :: n.buffer
    {
      && NoDup(nodes)
      && first == At<Node?>(nodes, 0, null) && outputNode == At<Node?>(nodes, 0, null)
      && (nodes != [] ==> last == nodes[|nodes| - 1])
      && (nodes == [] ==> last == null)
      && (forall i {:trigger nodes[i].next} :: 0 <= i < |nodes| ==> nodes[i].next == At<Node?>(nodes, i + 1, null))
      && (forall n | n in nodes :: n.Holds())
      && LineOk(Contents())
    }

    // The variables as IoInitialize leaves them.
    constructor ()
      ensures Valid() && Contents() == Line([], 0)
    {
      first, last, outputNode, outputAt, nodes := null, null, null, 0, [];
    }

    method IoWriteSerial(text: string)
      requires Valid() && |text| < BUFFER_SIZE && forall i :: 0 <= i < |text| ==> text[i] != '\0'
      modifies this, nodes
      ensures Valid() && Contents() == Write(old(Contents()), text)
      ensures fresh(set n | n in nodes && n !in old(nodes))
    {
      var node := new Node(text);
      LinkNode(node);
    }

    method LinkNode(node: Node)
      requires Valid() && node !in nodes && node.Holds() && node.next == null
      modifies this, nodes
      ensures Valid() && Contents() == Write(old(Contents()), node.text) && nodes == old(nodes) + [node]
    {
      hide NoDup;
      AppendNode(nodes, node);
      if first == null {
        first, last := node, node;
        outputNode, outputAt := node, 0;
      } else {
        last.next := node;
        last := node;
      }
      nodes := nodes + [node];
    }

    // The first of several nodes is dropped.
    method NextNode()
      requires Valid() && first != last
      modifies this
      ensures Valid() && Contents() == Line(old(Texts(nodes))[1..], 0)
    {
      hide NoDup;
      TailNodes(nodes);
      first := first.next;
      outputNode, outputAt := first, 0;
      nodes := nodes[1..];
    }

    method IoTransmitterInterruptHandler() returns (displayed: Option<char>)
      requires Valid()
      modifies this
      ensures Valid() && Contents() == Interrupt(old(Contents())) && displayed == Shown(old(Contents()))
    {
      displayed := None;
      if outputNode != null {
        assert outputNode == nodes[0] && outputNode.Holds();
        if outputNode.buffer[outputAt] != '\0' {
          displayed := Some(outputNode.buffer[outputAt]);
          outputAt := outputAt + 1;
        } else if first == last && first != null {
          OnlyNode(nodes);
          first, last, outputNode, outputAt, nodes := null, null, null, 0, [];
        } else {
          NextNode();
        }
      }
    }
  }

  lemma {:induction false} AppendNode(nodes: seq<Node>, node: Node)
    requires NoDup(nodes) && node !in nodes
    ensures var r := nodes + [node];
            && NoDup(r) && Texts(r) == Texts(nodes) + [node.text] && r[|r| - 1] == node
            && (forall i :: 0 <= i < |nodes| ==> r[i] == nodes[i])
            && (forall i: nat :: At<Node?>(r, i, null) == if i == |nodes| then node else At<Node?>(nodes, i, null))
    ensures forall i :: 0 <= i < |nodes| - 1 ==> nodes[i] != nodes[|nodes| - 1]
  {
    NoDupAppend(nodes, node);
  }

  lemma {:induction false} TailNodes(nodes: seq<Node>)
    requires NoDup(nodes) && At<Node?>(nodes, 0, null) != null && nodes[|nodes| - 1] != nodes[0]
    ensures var r := nodes[1..];
            && NoDup(r) && Texts(r) == Texts(nodes)[1..] && r != [] && r[|r| - 1] == nodes[|nodes| - 1]
            && (forall i :: 0 <= i < |r| ==> r[i] == nodes[i + 1])
            && (forall i: nat :: At<Node?>(r, i, null) == At<Node?>(nodes, i + 1, null))
  {
  }

  lemma {:induction false} OnlyNode(nodes: seq<Node>)
    requires NoDup(nodes) && nodes != [] && nodes[0] == nodes[|nodes| - 1]
    ensures |nodes| == 1
  {
  }

  // ---------------------------------------------------------------------------
  // The buffer for received characters
  // ---------------------------------------------------------------------------

  class Fifo {
    const buffer: array<char>
    var length: nat

    ghost predicate Valid()
      reads this
    {
      buffer.Length == FIFO_SIZE && length < FIFO_SIZE
    }

    ghost function Contents(): string
      reads this, buffer
      requires Valid()
    {
      buffer[..length]
    }

    constructor ()
      ensures Valid() && Contents() == []
    {
      buffer := new char[FIFO_SIZE];
      length := 0;
    }

    // A character that comes when 15 are buffered is lost.
    method AddCharToBuffer(c: char)
      requires Valid()
      modifies this, buffer
      ensures Valid()
      ensures Contents() == if |old(Contents())| < 15 then old(Contents()) + [c] else old(Contents())
    {
      if length + 1 < FIFO_SIZE {
        buffer[length] := c;
        length := length + 1;
      }
    }

    method GetFirstCharFromBuffer() returns (c: char)
      requires Valid()
      modifies this, buffer
      ensures Valid() && Contents() == if old(Contents()) == [] then [] else old(Contents())[1..]
      ensures old(Contents()) != [] ==> c == old(Contents())[0]
    {
      c := buffer[0];
      var i := 0;
      while i != length
        invariant 0 <= i <= length < FIFO_SIZE && length == old(length)
        invariant forall k :: 0 <= k < i ==> buffer[k] == old(buffer[k + 1])
        invariant forall k :: i <= k < FIFO_SIZE ==> buffer[k] == old(buffer[k])
        decreases length - i
      {
        buffer[i] := buffer[i + 1];
        i := i + 1;
      }
      if length > 0 {
        length := length - 1;
        assert buffer[..length] == old(buffer[..length][1..]);
      }
    }
  }
}
