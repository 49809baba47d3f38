/** Facts about the calls a handler still has to make. */
module Todo {
  import opened Options
  import opened Jobs
  import opened Web
  import opened Protocol

  /** The job a running handler has leased. */
  function OwnerOf(pc: Pc): Option<Job> {
    if pc.Working? || pc.Admitting? then pc.owner else None
  }

  function TodoOf(pc: Pc): seq<Action> {
    if pc.Working? || pc.Admitting? then pc.todo else []
  }

  lemma {:induction false} ElementsCount(ids: seq<string>)
    ensures |Elements(ids)| <= |ids|
    ensures NoRepeats(ids) ==> |Elements(ids)| == |ids|
  {
    if ids != [] {
      var rest := ids[1..];
      ElementsCount(rest);
      assert Elements(ids) == {ids[0]} + Elements(rest);
      if NoRepeats(ids) {
        assert forall i, k :: 0 <= i < k < |rest| ==> rest[i] == ids[i + 1] && rest[k] == ids[k + 1];
        assert NoRepeats(rest);
        assert ids[0] !in Elements(rest);
      }
    }
  }

  lemma {:induction false} TargetsTail(todo: seq<Action>)
    requires todo != []
    ensures Targets(todo) == TargetsOf(todo[0]) + Targets(todo[1..])
  {
    assert todo == [todo[0]] + todo[1..];
    TargetsJoin([todo[0]], todo[1..]);
    TargetsOne(todo[0]);
  }

  lemma {:induction false} EnqueueActorsTargets(order: seq<string>, depth: int)
    ensures Targets(EnqueueActors(order, depth)) == set id | id in order :: Actor(id, depth)
  {
    var acts := EnqueueActors(order, depth);
    if order != [] {
      EnqueueActorsTargets(order[1..], depth);
      assert acts[1..] == EnqueueActors(order[1..], depth);
      TargetsTail(acts);
      assert forall id :: id in order <==> id == order[0] || id in order[1..];
    }
  }

  /** A handler never gains a job to enqueue; one it drops is an actor already
      fetched, or comes after the skip guard of a fetched actor. */
  lemma {:induction false} RemainingTargets(g: Graph, todo: seq<Action>, order: seq<string>)
    requires todo != [] && Answers(g, todo[0], order)
    ensures Targets(Remaining(g, todo, order)) <= Targets(todo)
    ensures forall k :: k in Targets(todo) && k !in Targets(Remaining(g, todo, order)) ==>
              || (k in TargetsOf(todo[0]) && (todo[0].Enqueue? || (k.Actor? && k.actorId in g.fetched)))
              || (todo[0].StopIfFetched? && todo[0].actorId in g.fetched)
  {
    TargetsTail(todo);
    match todo[0]
    case StampDepth(_, d) =>
      TargetsOne(WriteDepth(order, d));
      TargetsJoin([WriteDepth(order, d)], todo[1..]);
    case QueueUnfetched(ids, d) =>
      EnqueueActorsTargets(order, d);
      TargetsJoin(EnqueueActors(order, d), todo[1..]);
      forall id | id in ids && id !in g.fetched ensures id in order {
        assert id in Elements(ids);
        assert id in Elements(order);
      }
      forall id | id in order ensures id in ids {
        assert id in Elements(order);
      }
    case _ =>
  }
}
