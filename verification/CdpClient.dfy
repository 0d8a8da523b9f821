/** The request table of the browser connection: every request gets a fresh number and a
    future, and the response bearing that number completes it. */
module CdpClient {
  import opened Seqs

  datatype Reply = Result(payload: string) | Failure(payload: string)
  datatype Message = Response(id: int, reply: Reply) | Notice(method_: string)
  datatype Step = Send | Receive(message: Message)

  // ---- What a series of steps amounts to ----

  datatype Table = Table(next: nat, pending: set<int>, done: map<int, Reply>)

  const EMPTY := Table(0, {}, map[])

  function Apply(t: Table, step: Step): Table {
    match step
    case Send => t.(next := t.next + 1, pending := t.pending + {t.next + 1})
    case Receive(Notice(_)) => t
    case Receive(Response(id, reply)) =>
      if id in t.pending then t.(pending := t.pending - {id}, done := t.done[id := reply]) else t
  }

  function Run(steps: seq<Step>): Table {
    Fold(Apply, EMPTY, steps)
  }

  function Sends(steps: seq<Step>): nat {
    if steps == [] then 0 else Sends(steps[..|steps| - 1]) + (if steps[|steps| - 1].Send? then 1 else 0)
  }

  predicate AnsweredBy(step: Step, id: int, sends: nat) {
    step.Receive? && step.message.Response? && step.message.id == id && 1 <= id <= sends
  }

  /** Step j is a response to a request already made. */
  predicate Answers(steps: seq<Step>, j: nat, id: int) {
    j < |steps| && AnsweredBy(steps[j], id, Sends(steps[..j]))
  }

  ghost predicate Answered(steps: seq<Step>, id: int) {
    exists j :: Answers(steps, j, id)
  }

  /** The table says of every number just what the steps say. */
  ghost predicate Tells(steps: seq<Step>, t: Table) {
    && t.next == Sends(steps)
    && (forall id :: id in t.pending <==> 1 <= id <= Sends(steps) && !Answered(steps, id))
    && (forall id :: id in t.done <==> Answered(steps, id))
  }

  lemma PrefixAnswers(steps: seq<Step>, last: Step, j: nat, id: int)
    requires j < |steps|
    ensures Answers(steps + [last], j, id) == Answers(steps, j, id)
  {
    assert (steps + [last])[..j] == steps[..j];
  }

  lemma AnsweredSnoc(steps: seq<Step>, last: Step, id: int)
    ensures Answered(steps + [last], id) <==> (Answered(steps, id) || AnsweredBy(last, id, Sends(steps)))
  {
    var all := steps + [last];
    assert all[..|steps|] == steps;
    if Answered(steps, id) {
      var j: nat :| Answers(steps, j, id);
      PrefixAnswers(steps, last, j, id);
    }
    if Answers(all, |steps|, id) {
    }
    if Answered(all, id) {
      var j: nat :| Answers(all, j, id);
      if j < |steps| {
        PrefixAnswers(steps, last, j, id);
      }
    }
  }

  /** Numbers are given out in order, what is pending is what was issued and not answered, and
      what is done is what was answered. */
  lemma {:induction false} TableTells(steps: seq<Step>)
    ensures Tells(steps, Run(steps))
  {
    if steps != [] {
      var front, last := steps[..|steps| - 1], steps[|steps| - 1];
      TableTells(front);
      assert steps == front + [last];
      forall id ensures Answered(steps, id) <==> (Answered(front, id) || AnsweredBy(last, id, Sends(front))) {
        AnsweredSnoc(front, last, id);
      }
      NotYetAnswered(front, Sends(front) + 1);
    }
  }

  lemma {:induction false} SendsGrow(steps: seq<Step>, j: nat)
    requires j <= |steps|
    ensures Sends(steps[..j]) <= Sends(steps)
    decreases |steps| - j
  {
    if j < |steps| {
      SendsGrow(steps, j + 1);
      assert steps[..j + 1][..j] == steps[..j];
    } else {
      assert steps[..j] == steps;
    }
  }

  lemma NotYetAnswered(steps: seq<Step>, id: int)
    requires id > Sends(steps)
    ensures !Answered(steps, id)
  {
    if Answered(steps, id) {
      var j: nat :| Answers(steps, j, id);
      SendsGrow(steps, j);
    }
  }

  /** A request is completed by the first response bearing its number that comes after it, and
      never again. */
  lemma {:induction false} FirstAnswerCounts(steps: seq<Step>, j: nat, id: int)
    requires Answers(steps, j, id) && forall k :: 0 <= k < j ==> !Answers(steps, k, id)
    ensures id in Run(steps).done && Run(steps).done[id] == steps[j].message.reply
  {
    var front, last := steps[..|steps| - 1], steps[|steps| - 1];
    assert steps == front + [last];
    TableTells(front);
    if j < |front| {
      forall k | 0 <= k <= j ensures Answers(front, k, id) == Answers(steps, k, id) {
        PrefixAnswers(front, last, k, id);
      }
      FirstAnswerCounts(front, j, id);
    } else {
      if Answered(front, id) {
        var k: nat :| Answers(front, k, id);
        PrefixAnswers(front, last, k, id);
      }
      assert id in Run(front).pending;
    }
  }

  // ---- The client ----

  class Future {
    var reply: Option<Reply>

    constructor ()
      ensures reply == None
    {
      reply := None;
    }

    /** Completing a future twice is an error. */
    method Complete(reply: Reply)
      requires this.reply == None
      modifies this
      ensures this.reply == Some(reply)
    {
      this.reply := Some(reply);
    }
  }

  class Client {
    var nextId: nat
    var pending: map<int, Future>
    ghost var issued: map<int, Future>
    ghost var steps: seq<Step>

    /** The futures issued, one for every number, are complete as the steps say. */
    ghost predicate Valid()
      reads this, issued.Values
    {
      && (forall id :: id in issued <==> 1 <= id <= nextId)
      && (forall a, b :: a in issued && b in issued && a != b ==> issued[a] != issued[b])
      && (forall id :: id in pending ==> id in issued && pending[id] == issued[id])
      && Shows(Run(steps))
    }

    ghost predicate Shows(t: Table)
      reads this, issued.Values
    {
      && t.next == nextId && t.pending == pending.Keys
      && (forall id :: id in t.done ==> id in issued)
      && (forall id :: id in issued ==> issued[id].reply == if id in t.done then Some(t.done[id]) else None)
      && (forall id :: id in issued ==> (id in pending <==> id !in t.done))
    }

    constructor ()
      ensures Valid() && steps == [] && issued == map[]
    {
      nextId, pending := 0, map[];
      issued, steps := map[], [];
    }

    method Send() returns (id: int, future: Future)
      requires Valid()
      modifies this
      ensures Valid() && steps == old(steps) + [Step.Send]
      ensures id !in old(issued) && fresh(future) && future.reply == None && issued == old(issued)[id := future]
    {
      FoldSnoc(Apply, EMPTY, steps, Step.Send);
      ghost var t := Run(steps);
      steps := steps + [Step.Send];
      nextId := nextId + 1;
      id := nextId;
      future := new Future();
      pending := pending[id := future];
      issued := issued[id := future];
      assert Shows(t.(next := id, pending := t.pending + {id}));
    }

    /** Only a pending future is completed, only by the response that bears its number. */
    method Receive(message: Message)
      requires Valid()
      modifies this, pending.Values
      ensures Valid() && steps == old(steps) + [Step.Receive(message)] && issued == old(issued)
      ensures forall id :: id in issued ==>
                issued[id].reply == if old(issued[id].reply) == None && message.Response? && message.id == id
                                    then Some(message.reply) else old(issued[id].reply)
    {
      FoldSnoc(Apply, EMPTY, steps, Step.Receive(message));
      steps := steps + [Step.Receive(message)];
      if message.Response? && message.id in pending {
        var future := pending[message.id];
        pending := pending - {message.id};
        future.Complete(message.reply);
      }
    }
  }
}
