/** What a pump uploads and when it shows a start, told by the calls of its source. */
module PumpDeliveries {
  import opened Options
  import opened LocalToolPump

  /** The start of an SDK call that is not deferred. */
  predicate StartsLocally(source: seq<Event>, i: nat) {
    i < |source| && match source[i]
                    case Start(Some(call)) => call.local
                    case _ => false
  }

  predicate Ascending(at: seq<nat>) {
    forall k, l :: 0 <= k < l < |at| ==> at[k] < at[l]
  }

  lemma {:induction false} LocalsAre(batch: seq<nat>, source: seq<Event>)
    requires Ascending(batch)
    ensures Ascending(Locals(batch, source))
    ensures forall i: nat :: i in Locals(batch, source) <==> i in batch && StartsLocally(source, i)
    decreases |batch|
  {
    if |batch| > 0 {
      var front, last := batch[..|batch| - 1], batch[|batch| - 1];
      LocalsAre(front, source);
      assert batch == front + [last];
      assert LocalAt(source, last) <==> StartsLocally(source, last);
      LastIsLargest(front, Locals(front, source), last);
      LocalsUnfold(batch, source);
      hide Locals;
      var part := Locals(front, source);
      assert Ascending(part + [last]) by { AscendsFurther(part, last); }
      assert part + [] == part && forall i: nat :: i in part + [last] <==> i in part || i == last;
    }
  }

  lemma AscendsFurther(part: seq<nat>, last: nat)
    requires Ascending(part) && forall i :: i in part ==> i < last
    ensures Ascending(part + [last])
  {
    assert forall k :: 0 <= k < |part| ==> part[k] in part;
  }

  lemma LocalsUnfold(batch: seq<nat>, source: seq<Event>)
    requires |batch| > 0
    ensures var front, last := batch[..|batch| - 1], batch[|batch| - 1];
      Locals(batch, source) == Locals(front, source) + if LocalAt(source, last) then [last] else []
  {
  }

  lemma LastIsLargest(front: seq<nat>, part: seq<nat>, last: nat)
    requires Ascending(front + [last]) && forall i :: i in part ==> i in front
    ensures forall i :: i in part ==> i < last
  {
    forall i | i in part
      ensures i < last
    {
      var k :| 0 <= k < |front| && front[k] == i;
      assert (front + [last])[k] == i && (front + [last])[|front|] == last;
    }
  }

  /** Which starts are executed: all but those of a local call whose id a local call before them had. */
  lemma NewStartsAreScheduled(source: seq<Event>, ls: seq<Label>, i: nat)
    requires IsRun(IDLE, source, ls) && i < After(IDLE, source, ls).pos
    ensures i < |source|
    ensures i in After(IDLE, source, ls).scheduled <==>
      source[i].Start? && !(exists j: nat :: j < i && SameId(source[j], source[i]))
  {
    ReachedSound(source, ls);
    var p := After(IDLE, source, ls);
    hide IsRun, After, Partitioned, Tasked, Surfacing, InOrder, Uploaded, Ends;
    if source[i].Start? && i !in p.scheduled {
      assert Repeats(p.scheduled, source, i);
    }
    if j: nat :| j < i && SameId(source[j], source[i]) {
      EarlierIsScheduled(p, source, j);
    }
  }

  /** Of the calls of one id the first is scheduled. */
  lemma EarlierIsScheduled(p: Pump, source: seq<Event>, j: nat)
    requires Scheduled(p.scheduled, p.pos, source) && Remembered(p.seen, p.scheduled, source)
    requires j < p.pos && IsLocal(source[j])
    ensures exists k: nat :: k in p.scheduled && k <= j && SameId(source[k], source[j])
  {
    if j in p.scheduled {
      assert SameId(source[j], source[j]);
    } else {
      assert Repeats(p.scheduled, source, j);
      var k :| k in p.scheduled && k < j && source[k] == source[j];
      assert SameId(source[k], source[j]);
    }
  }

  /** A closed pump has uploaded, batch after batch, exactly the executed calls that are local, in the order of the
      source. */
  lemma UploadsAreLocalCalls(source: seq<Event>, ls: seq<Label>)
    requires IsRun(IDLE, source, ls) && After(IDLE, source, ls).closed
    ensures var p := After(IDLE, source, ls);
      && AllPosted(p.posted, |p.batches|)
      && var uploads := Uploads(p.posted, |p.batches|);
         Ascending(uploads) && forall i: nat :: i in uploads <==> i in p.scheduled && StartsLocally(source, i)
  {
    BatchesPartition(source, ls);
    ClosedPumpHasDelivered(source, ls);
    LocalsAre(After(IDLE, source, ls).scheduled, source);
  }

  /** A start surfaces as soon as its target begins, and no earlier; if it never does, with the outcome. */
  lemma StartIsShownInTime(source: seq<Event>, ls: seq<Label>, i: nat)
    requires IsRun(IDLE, source, ls) && i in After(IDLE, source, ls).tasks
    ensures var p := After(IDLE, source, ls);
      Count(p.queue, Source(i)) == if p.tasks[i].started || !p.tasks[i].stage.Executing? then 1 else 0
  {
    ReachedSound(source, ls);
    var p := After(IDLE, source, ls);
    assert i in p.scheduled && source[i].Start?;
  }
}
