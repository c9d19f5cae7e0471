/** What comes out of the Redis lists, and in which order, over every interleaving of every client. */
module QueueOrder {
  import opened Collections
  import opened Messages
  import opened MessageQueue
  import opened RedisWorld

  /** What a step puts on the waiting list of `q`: a new message, or one that goes back. */
  function Pushed(step: Step, q: string): seq<Message> {
    if !step.Act? then [] else
    match step.op
    case Publish(queue, id, payload) => if queue == q then [Message(id, q, payload, 0)] else []
    case Requeue(m) => if m.queue == q then [m] else []
    case _ => []
  }

  function AllPushed(steps: seq<Step>, q: string): seq<Message> {
    if steps == [] then [] else Pushed(steps[0], q) + AllPushed(steps[1..], q)
  }

  /** What a step hands out from `q`. */
  function Popped(w: World, step: Step, q: string): seq<Message> {
    if step.Act? && step.op == Reserve(q) then HandedOut(w, step) else []
  }

  ghost function AllPopped(w: World, steps: seq<Step>, q: string): seq<Message>
    requires LegalRun(w, steps)
    decreases |steps|
  {
    if steps == [] then [] else Popped(w, steps[0], q) + AllPopped(Next(w, steps[0]), steps[1..], q)
  }

  /** The same messages, each with one delivery more. */
  function Bumped(ms: seq<Message>): seq<Message> {
    if ms == [] then [] else [Message(ms[0].id, ms[0].queue, ms[0].payload, ms[0].attempts + 1)] + Bumped(ms[1..])
  }

  function Contents(raws: seq<Raw>): seq<Message> {
    if raws == [] then [] else [raws[0].message] + Contents(raws[1..])
  }

  function WaitingOn(w: World, q: string): seq<Message> {
    Contents(Entries(w.lists, Main(q)))
  }

  lemma {:induction false} BumpedAppend(a: seq<Message>, b: seq<Message>)
    ensures Bumped(a + b) == Bumped(a) + Bumped(b)
  {
    if a == [] {
      assert a + b == b;
    } else {
      assert (a + b)[1..] == a[1..] + b;
      BumpedAppend(a[1..], b);
    }
  }

  lemma {:induction false} ContentsAppend(a: seq<Raw>, b: seq<Raw>)
    ensures Contents(a + b) == Contents(a) + Contents(b)
  {
    if a == [] {
      assert a + b == b;
    } else {
      assert (a + b)[1..] == a[1..] + b;
      ContentsAppend(a[1..], b);
    }
  }

  /** One entry has joined the list: the one pushed. */
  ghost predicate OneMore(before: seq<Raw>, after: seq<Raw>, pushed: seq<Message>) {
    exists raw :: after == before + [raw] && pushed == [raw.message]
  }

  /** The waiting list after a step. */
  lemma MainAfter(w: World, step: Step, q: string)
    requires Legal(w, step)
    ensures var before, after := Entries(w.lists, Main(q)), Entries(Next(w, step).lists, Main(q));
      if step.Act? && step.op == Reserve(q) && before != [] then
        after == before[1..] && Popped(w, step, q) == [Delivered(before[0].message)] && Pushed(step, q) == []
      else
        Popped(w, step, q) == [] && ((after == before && Pushed(step, q) == []) || OneMore(before, after, Pushed(step, q)))
  {
    var before, after := Entries(w.lists, Main(q)), Entries(Next(w, step).lists, Main(q));
    if step.Act? && Pushed(step, q) != [] {
      var raw := Encode(Pushed(step, q)[0]);
      assert after == before + [raw] && Pushed(step, q) == [raw.message];
      assert OneMore(before, after, Pushed(step, q));
    }
  }

  /** One step: what waited and what it pushed is what it hands out and what waits then. */
  lemma StepInOrder(w: World, step: Step, q: string)
    requires Legal(w, step)
    ensures Bumped(WaitingOn(w, q) + Pushed(step, q)) == Popped(w, step, q) + Bumped(WaitingOn(Next(w, step), q))
  {
    hide Legal, Next, Pushed, Popped;
    MainAfter(w, step, q);
    var before, after := Entries(w.lists, Main(q)), Entries(Next(w, step).lists, Main(q));
    if step.Act? && step.op == Reserve(q) && before != [] {
      assert WaitingOn(w, q) + [] == WaitingOn(w, q);
    } else if after == before && Pushed(step, q) == [] {
      assert WaitingOn(w, q) + [] == WaitingOn(w, q);
    } else {
      var raw :| after == before + [raw] && Pushed(step, q) == [raw.message];
      ContentsAppend(before, [raw]);
      assert |[raw][1..]| == 0;
      assert Contents([raw]) == [raw.message];
    }
  }

  /** Two stretches of a run, one after the other. */
  lemma Chained(x: seq<Message>, p: seq<Message>, out: seq<Message>, y: seq<Message>, r: seq<Message>, later: seq<Message>, z: seq<Message>)
    requires Bumped(x + p) == out + Bumped(y) && Bumped(y + r) == later + Bumped(z)
    ensures Bumped(x + (p + r)) == out + later + Bumped(z)
  {
    BumpedAppend(x + p, r);
    BumpedAppend(y, r);
    hide Bumped;
    assert x + (p + r) == x + p + r;
    assert out + Bumped(y) + Bumped(r) == out + (Bumped(y) + Bumped(r));
    assert out + (later + Bumped(z)) == out + later + Bumped(z);
  }

  lemma {:induction false} RunInOrder(w: World, steps: seq<Step>, q: string)
    requires LegalRun(w, steps)
    ensures Bumped(WaitingOn(w, q) + AllPushed(steps, q)) == AllPopped(w, steps, q) + Bumped(WaitingOn(Run(w, steps), q))
    decreases |steps|
  {
    hide Legal, Next, Pushed, Popped, WaitingOn, Bumped;
    if steps == [] {
      assert WaitingOn(w, q) + [] == WaitingOn(w, q);
    } else {
      var w', rest := Next(w, steps[0]), steps[1..];
      StepInOrder(w, steps[0], q);
      RunInOrder(w', rest, q);
      Chained(WaitingOn(w, q), Pushed(steps[0], q), Popped(w, steps[0], q), WaitingOn(w', q), AllPushed(rest, q),
              AllPopped(w', rest, q), WaitingOn(Run(w, steps), q));
    }
  }

  /**
   First in, first out: over any run of any clients, what was published or requeued on a queue is handed
   out in that order, with its content and one delivery more; the rest still waits.
   */
  lemma FirstInFirstOut(steps: seq<Step>, q: string)
    requires LegalRun(Empty, steps)
    ensures Bumped(AllPushed(steps, q)) == AllPopped(Empty, steps, q) + Bumped(WaitingOn(Run(Empty, steps), q))
  {
    RunInOrder(Empty, steps, q);
    assert WaitingOn(Empty, q) + AllPushed(steps, q) == AllPushed(steps, q);
  }

  /** What a step adds to the dead letters of `q`: the message and why it failed. */
  function Buried(step: Step, q: string): seq<Raw> {
    if step.Act? && step.op.DeadLetter? && step.op.message.queue == q
    then [Raw(step.op.message, Some(step.op.error))]
    else []
  }

  function AllBuried(steps: seq<Step>, q: string): seq<Raw> {
    if steps == [] then [] else Buried(steps[0], q) + AllBuried(steps[1..], q)
  }

  lemma StepBuries(w: World, step: Step, q: string)
    requires Legal(w, step)
    ensures Entries(Next(w, step).lists, Dlq(q)) == Entries(w.lists, Dlq(q)) + Buried(step, q)
  {
  }

  lemma {:induction false} RunBuries(w: World, steps: seq<Step>, q: string)
    requires LegalRun(w, steps)
    ensures Entries(Run(w, steps).lists, Dlq(q)) == Entries(w.lists, Dlq(q)) + AllBuried(steps, q)
    decreases |steps|
  {
    if steps != [] {
      StepBuries(w, steps[0], q);
      hide Next, Legal, Buried;
      RunBuries(Next(w, steps[0]), steps[1..], q);
    }
  }

  /** The dead letters of a queue are the messages that were buried, in order, each with its own error, for good. */
  lemma DeadLettersKeepErrors(steps: seq<Step>, q: string)
    requires LegalRun(Empty, steps)
    ensures Entries(Run(Empty, steps).lists, Dlq(q)) == AllBuried(steps, q)
  {
    RunBuries(Empty, steps, q);
  }
}
