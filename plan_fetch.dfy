/**
 * `fetch_plans_by_ids`: the plan ids are cut into consecutive batches of
 * 100; each batch is paged through with page size 200, a page shorter than
 * 200 ending the batch; every plan received goes into one list, which is
 * turned into an id -> plan table where a later plan with the same id
 * replaces an earlier one.
 *
 * Unlike the contract loop, this loop retries only timeouts and HTTP 429:
 * a connection failure, any other request exception, another status, an
 * `errors` payload or an empty page end the current batch and the next
 * batch starts. A body whose `data` is null raises an exception that this
 * function does not catch, so no table is returned at all. Nor is one
 * returned when the script of replies runs out before the last batch has
 * finished: the source returns its table only after the last batch.
 */
module PlanFetch {
  import opened Records

  const BatchSize: nat := 100
  const PageLimit: nat := 200

  /** The variables of one `Plans` request. */
  datatype PlanRequest = PlanRequest(ids: seq<int>, limit: int, after: Option<int>)

  /** How a batch's loop reacts to one reply. */
  datatype Verdict = Retry | EndBatch | Raise | Take(page: seq<Plan>)

  function Classify(r: Reply<Plan>): (v: Verdict)
    ensures v.Take? ==> v.page != []
  {
    match r
    case TimedOut => Retry
    case ConnectionFailed => EndBatch
    case RequestFailed => EndBatch
    case Http(status, body) =>
      if status != 200 then
        if status == 429 then Retry else EndBatch
      else
        match body
        case ErrorList => EndBatch
        case NullData => Raise
        case Entities(items) => if items == [] then EndBatch else Take(items)
  }

  /** `plan_ids[k*100 : k*100+100]` for k = 0, 1, ... while k*100 < len. */
  function Chunks(ids: seq<int>): seq<seq<int>>
    decreases |ids|
  {
    if ids == [] then []
    else if |ids| <= BatchSize then [ids]
    else [ids[..BatchSize]] + Chunks(ids[BatchSize..])
  }

  function Min(a: int, b: int): int
  {
    if a <= b then a else b
  }

  /** There are ceil(n / 100) batches. */
  lemma {:induction false} ChunksCount(ids: seq<int>)
    ensures |Chunks(ids)| == (|ids| + BatchSize - 1) / BatchSize
    decreases |ids|
  {
    if |ids| > BatchSize {
      ChunksCount(ids[BatchSize..]);
    }
  }

  /** Together the batches are the ids, each exactly once and in order. */
  lemma {:induction false} ChunksCover(ids: seq<int>)
    ensures Flatten(Chunks(ids)) == ids
    decreases |ids|
  {
    if ids == [] {
    } else if |ids| <= BatchSize {
      FlattenCons(ids, []);
    } else {
      ChunksCover(ids[BatchSize..]);
      FlattenCons(ids[..BatchSize], Chunks(ids[BatchSize..]));
      assert ids[..BatchSize] + ids[BatchSize..] == ids;
    }
  }

  /** Batch k is the slice `plan_ids[100k : 100k + 100]`, so every batch
      holds between 1 and 100 ids and every batch but the last holds 100. */
  lemma {:induction false} ChunksAreSlices(ids: seq<int>, k: nat)
    requires k < |Chunks(ids)|
    ensures k * BatchSize < |ids|
    ensures Chunks(ids)[k] == ids[k * BatchSize .. Min(k * BatchSize + BatchSize, |ids|)]
    ensures 0 < |Chunks(ids)[k]| <= BatchSize
    ensures k < |Chunks(ids)| - 1 ==> |Chunks(ids)[k]| == BatchSize
    decreases k
  {
    if k > 0 {
      var tail := ids[BatchSize..];
      assert Chunks(ids)[k] == Chunks(tail)[k - 1];
      ChunksAreSlices(tail, k - 1);
      var lo := (k - 1) * BatchSize;
      var hi := Min(lo + BatchSize, |tail|);
      assert lo + BatchSize == k * BatchSize;
      assert hi + BatchSize == Min(k * BatchSize + BatchSize, |ids|);
      assert tail[lo..hi] == ids[lo + BatchSize .. hi + BatchSize];
    }
  }

  /** 250 ids make exactly three batches, of 100, 100 and 50. */
  lemma TwoHundredFiftyIds(ids: seq<int>)
    requires |ids| == 250
    ensures |Chunks(ids)| == 3
    ensures |Chunks(ids)[0]| == 100 && |Chunks(ids)[1]| == 100 && |Chunks(ids)[2]| == 50
  {
    ChunksCount(ids);
    ChunksAreSlices(ids, 0);
    ChunksAreSlices(ids, 1);
    ChunksAreSlices(ids, 2);
  }

  /** `{plan['id']: plan for plan in all_plans}`, inserting in order. */
  function PlanTable(plans: seq<Plan>): map<int, Plan>
  {
    if plans == [] then map[] else PlanTable(plans[..|plans| - 1])[Last(plans).id := Last(plans)]
  }

  /** The table's keys are exactly the ids of the plans received. */
  lemma {:induction false} PlanTableKeys(plans: seq<Plan>)
    ensures PlanTable(plans).Keys == set j | 0 <= j < |plans| :: plans[j].id
  {
    if plans != [] {
      var init := plans[..|plans| - 1];
      PlanTableKeys(init);
      var ids := set j | 0 <= j < |plans| :: plans[j].id;
      var initIds := set j | 0 <= j < |init| :: init[j].id;
      assert ids == initIds + {Last(plans).id} by {
        forall x | x in ids ensures x in initIds + {Last(plans).id} {
          var j :| 0 <= j < |plans| && plans[j].id == x;
          if j < |init| { assert init[j].id == x; }
        }
        forall x | x in initIds ensures x in ids {
          var j :| 0 <= j < |init| && init[j].id == x;
          assert plans[j].id == x;
        }
      }
    }
  }

  /** For an id received more than once, the plan received last wins. */
  lemma {:induction false} PlanTableLastWins(plans: seq<Plan>, j: nat)
    requires j < |plans|
    requires forall j' :: j < j' < |plans| ==> plans[j'].id != plans[j].id
    ensures plans[j].id in PlanTable(plans) && PlanTable(plans)[plans[j].id] == plans[j]
  {
    if j < |plans| - 1 {
      var init := plans[..|plans| - 1];
      assert init[j] == plans[j];
      PlanTableLastWins(init, j);
    }
  }

  /** Merging is flat: the table of two lists received one after the
      other is the first table overridden by the second. */
  lemma {:induction false} PlanTableOfConcat(a: seq<Plan>, b: seq<Plan>)
    ensures PlanTable(a + b) == PlanTable(a) + PlanTable(b)
    decreases |b|
  {
    if b == [] {
      assert a + b == a;
    } else {
      var b' := b[..|b| - 1];
      var p := Last(b);
      assert (a + b)[..|a + b| - 1] == a + b';
      assert Last(a + b) == p;
      PlanTableOfConcat(a, b');
      assert (PlanTable(a) + PlanTable(b'))[p.id := p] == PlanTable(a) + PlanTable(b')[p.id := p];
    }
  }

  /** How a batch, or the whole lookup, ended: normally, with the escaping
      exception, or because the script had no reply left for the next
      request (what the service would say then is not part of the run). */
  datatype Ending = Finished | Raised | ScriptEnd

  datatype BatchOutcome = BatchOutcome(plans: seq<Plan>, sent: seq<PlanRequest>, ending: Ending)

  /** The loop over one batch from cursor `after`: the reference the
      method's inner loop is proved against. */
  function BatchRun(batch: seq<int>, script: seq<Reply<Plan>>, after: Option<int>): (o: BatchOutcome)
    ensures |o.sent| <= |script|
    decreases |script|
  {
    if script == [] then BatchOutcome([], [], ScriptEnd)
    else
      var req := PlanRequest(batch, PageLimit, after);
      match Classify(script[0])
      case Retry =>
        var o := BatchRun(batch, script[1..], after);
        BatchOutcome(o.plans, [req] + o.sent, o.ending)
      case EndBatch => BatchOutcome([], [req], Finished)
      case Raise => BatchOutcome([], [req], Raised)
      case Take(items) =>
        if |items| < PageLimit then BatchOutcome(items, [req], Finished)
        else
          var o := BatchRun(batch, script[1..], Some(Last(items).id));
          BatchOutcome(items + o.plans, [req] + o.sent, o.ending)
  }

  /** The batches in order, each starting where the previous one stopped
      reading the script; an exception, or running out of replies, ends
      everything. */
  function BatchesRun(batches: seq<seq<int>>, script: seq<Reply<Plan>>): (o: BatchOutcome)
    ensures |o.sent| <= |script|
    decreases |batches|
  {
    if batches == [] then BatchOutcome([], [], Finished)
    else
      var b := BatchRun(batches[0], script, None);
      if b.ending != Finished then b
      else
        var r := BatchesRun(batches[1..], script[|b.sent|..]);
        BatchOutcome(b.plans + r.plans, b.sent + r.sent, r.ending)
  }

  /** One turn of a batch's loop on a reply it retries. */
  lemma BatchStepRetry(batch: seq<int>, script: seq<Reply<Plan>>, i: int, after: Option<int>)
    requires 0 <= i < |script| && Classify(script[i]).Retry?
    ensures var o := BatchRun(batch, script[i + 1..], after);
      BatchRun(batch, script[i..], after)
        == BatchOutcome(o.plans, [PlanRequest(batch, PageLimit, after)] + o.sent, o.ending)
  {
    assert script[i..][0] == script[i] && script[i..][1..] == script[i + 1..];
  }

  /** One turn of a batch's loop on a reply that ends the batch, raising or not. */
  lemma BatchStepEnd(batch: seq<int>, script: seq<Reply<Plan>>, i: int, after: Option<int>)
    requires 0 <= i < |script| && (Classify(script[i]).EndBatch? || Classify(script[i]).Raise?)
    ensures BatchRun(batch, script[i..], after)
         == BatchOutcome([], [PlanRequest(batch, PageLimit, after)], if Classify(script[i]).Raise? then Raised else Finished)
  {
    assert script[i..][0] == script[i];
  }

  /** One turn of a batch's loop on a page of plans. */
  lemma BatchStepTake(batch: seq<int>, script: seq<Reply<Plan>>, i: int, after: Option<int>, items: seq<Plan>)
    requires 0 <= i < |script| && Classify(script[i]) == Take(items)
    ensures |items| < PageLimit ==>
      BatchRun(batch, script[i..], after) == BatchOutcome(items, [PlanRequest(batch, PageLimit, after)], Finished)
    ensures |items| >= PageLimit ==>
      var o := BatchRun(batch, script[i + 1..], Some(Last(items).id));
      BatchRun(batch, script[i..], after)
        == BatchOutcome(items + o.plans, [PlanRequest(batch, PageLimit, after)] + o.sent, o.ending)
  {
    assert script[i..][0] == script[i] && script[i..][1..] == script[i + 1..];
  }

  /** The batch loop's invariant: what has been collected from the
      replies before `next`, followed by the reference run from `next` on,
      is the reference run over all the replies. */
  predicate BatchSoFar(batch: seq<int>, replies: seq<Reply<Plan>>, next: nat, after: Option<int>,
                       plans: seq<Plan>, sent: seq<PlanRequest>)
    requires next <= |replies|
  {
    var b := BatchRun(batch, replies[next..], after);
    BatchRun(batch, replies, None) == BatchOutcome(plans + b.plans, sent + b.sent, b.ending)
  }

  /** One turn of the batch loop, for each verdict on the reply read: a
      retry sends one more request and collects nothing; an ending reply,
      raising or not, finishes the run; a short page is collected and
      finishes the run; a full page is collected and moves the cursor to its
      last plan. */
  lemma BatchSoFarStep(batch: seq<int>, replies: seq<Reply<Plan>>, next: nat, after: Option<int>,
                       plans: seq<Plan>, sent: seq<PlanRequest>)
    requires next < |replies|
    requires BatchSoFar(batch, replies, next, after, plans, sent)
    ensures var v := Classify(replies[next]);
      var sent' := sent + [PlanRequest(batch, PageLimit, after)];
      && (v.Retry? ==> BatchSoFar(batch, replies, next + 1, after, plans, sent'))
      && (v.EndBatch? || v.Raise? ==>
            BatchRun(batch, replies, None) == BatchOutcome(plans, sent', if v.Raise? then Raised else Finished))
      && (v.Take? && |v.page| < PageLimit ==> BatchRun(batch, replies, None) == BatchOutcome(plans + v.page, sent', Finished))
      && (v.Take? && |v.page| >= PageLimit ==>
            BatchSoFar(batch, replies, next + 1, Some(Last(v.page).id), plans + v.page, sent'))
  {
    var req := PlanRequest(batch, PageLimit, after);
    match Classify(replies[next])
    case Retry =>
      BatchStepRetry(batch, replies, next, after);
      ConcatAssoc(sent, [req], BatchRun(batch, replies[next + 1..], after).sent);
    case EndBatch =>
      BatchStepEnd(batch, replies, next, after);
      assert plans + [] == plans;
    case Raise =>
      BatchStepEnd(batch, replies, next, after);
      assert plans + [] == plans;
    case Take(items) =>
      BatchStepTake(batch, replies, next, after, items);
      if |items| >= PageLimit {
        var more := BatchRun(batch, replies[next + 1..], Some(Last(items).id));
        ConcatAssoc(plans, items, more.plans);
        ConcatAssoc(sent, [req], more.sent);
      }
  }

  /** The `while True` loop of `fetch_plans_by_ids` for one batch, reading
      the replies left in the script: the plans it appends, the requests it sends
      (one per reply read) and how it ended. */
  method FetchBatch(batch: seq<int>, replies: seq<Reply<Plan>>)
    returns (plans: seq<Plan>, sent: seq<PlanRequest>, ending: Ending)
    ensures BatchRun(batch, replies, None) == BatchOutcome(plans, sent, ending)
  {
    plans, sent, ending := [], [], Finished;
    var next := 0;
    var after: Option<int> := None;
    while true
      invariant next <= |replies|
      invariant BatchSoFar(batch, replies, next, after, plans, sent)
      decreases |replies| - next
    {
      if next == |replies| {
        assert replies[next..] == [];
        assert plans + [] == plans && sent + [] == sent;
        ending := ScriptEnd;
        return;
      }
      var req := PlanRequest(batch, PageLimit, after);
      var reply := replies[next];
      BatchSoFarStep(batch, replies, next, after, plans, sent);
      match reply {
        case TimedOut =>
          sent, next := sent + [req], next + 1;
          continue;
        case ConnectionFailed =>
          sent := sent + [req];
          return;
        case RequestFailed =>
          sent := sent + [req];
          return;
        case Http(status, body) =>
          if status != 200 {
            if status == 429 {
              sent, next := sent + [req], next + 1;
              continue;
            }
            sent := sent + [req];
            return;
          }
          match body {
            case ErrorList =>
              sent := sent + [req];
              return;
            case NullData =>
              sent, ending := sent + [req], Raised;
              return;
            case Entities(items) =>
              if items == [] {
                sent := sent + [req];
                return;
              }
              if |items| < PageLimit {
                plans, sent := plans + items, sent + [req];
                return;
              }
              plans, sent, next := plans + items, sent + [req], next + 1;
              after := Some(items[|items| - 1].id);
          }
      }
    }
  }

  /** The batch loop's invariant: what has been collected, followed by
      the reference run of the batches left on the replies left, is the
      whole run `total`. */
  predicate Collected(total: BatchOutcome, batches: seq<seq<int>>, replies: seq<Reply<Plan>>,
                      allPlans: seq<Plan>, sent: seq<PlanRequest>)
  {
    var o := BatchesRun(batches, replies);
    total == BatchOutcome(allPlans + o.plans, sent + o.sent, o.ending)
  }

  /** Moving one finished batch from the reference run to what has been
      collected keeps the whole run the same. */
  lemma CollectedNext(total: BatchOutcome, batches: seq<seq<int>>, replies: seq<Reply<Plan>>,
                      allPlans: seq<Plan>, sent: seq<PlanRequest>, b: BatchOutcome)
    requires batches != [] && b == BatchRun(batches[0], replies, None) && b.ending == Finished
    requires Collected(total, batches, replies, allPlans, sent)
    ensures |b.sent| <= |replies|
    ensures Collected(total, batches[1..], replies[|b.sent|..], allPlans + b.plans, sent + b.sent)
  {
    var o := BatchesRun(batches[1..], replies[|b.sent|..]);
    ConcatAssoc(allPlans, b.plans, o.plans);
    ConcatAssoc(sent, b.sent, o.sent);
  }

  /** The first batch left raised or ran out of replies: the run stops
      there, the same way, with its requests. */
  lemma CollectedCut(total: BatchOutcome, batches: seq<seq<int>>, replies: seq<Reply<Plan>>,
                     allPlans: seq<Plan>, sent: seq<PlanRequest>, b: BatchOutcome)
    requires batches != [] && b == BatchRun(batches[0], replies, None) && b.ending != Finished
    requires Collected(total, batches, replies, allPlans, sent)
    ensures total.ending == b.ending && total.sent == sent + b.sent
  {
  }

  /** Nothing collected yet: the whole run is the reference run. */
  lemma CollectedStart(total: BatchOutcome, batches: seq<seq<int>>, script: seq<Reply<Plan>>)
    requires total == BatchesRun(batches, script)
    ensures Collected(total, batches[0..], script[0..], [], [])
  {
    assert batches[0..] == batches && script[0..] == script;
    assert [] + total.plans == total.plans && [] + total.sent == total.sent;
  }

  /** No batch is left: the run is what has been collected. */
  lemma CollectedDone(total: BatchOutcome, batches: seq<seq<int>>, replies: seq<Reply<Plan>>,
                      allPlans: seq<Plan>, sent: seq<PlanRequest>)
    requires Collected(total, batches[|batches|..], replies, allPlans, sent)
    ensures total == BatchOutcome(allPlans, sent, Finished)
  {
    assert batches[|batches|..] == [];
    assert allPlans + [] == allPlans && sent + [] == sent;
  }

  /** One turn of the batch loop: batch `k` is fetched from the replies
      left, and either the whole run ends there with the requests sent so
      far (the exception escaped, or no reply was left) or the collected
      plans and requests grow by the batch's own. */
  method FetchBatchAt(ghost total: BatchOutcome, batches: seq<seq<int>>, k: nat,
                        script: seq<Reply<Plan>>, pos: nat, ghost allPlans: seq<Plan>, ghost sent: seq<PlanRequest>)
    returns (plans: seq<Plan>, batchSent: seq<PlanRequest>, ending: Ending)
    requires pos <= |script| && k < |batches|
    requires Collected(total, batches[k..], script[pos..], allPlans, sent)
    ensures ending != Finished ==> total.ending == ending && total.sent == sent + batchSent
    ensures ending == Finished ==> pos + |batchSent| <= |script|
    ensures ending == Finished ==>
      Collected(total, batches[k + 1..], script[pos + |batchSent|..], allPlans + plans, sent + batchSent)
  {
    assert batches[k..][0] == batches[k] && batches[k..][1..] == batches[k + 1..];
    plans, batchSent, ending := FetchBatch(batches[k], script[pos..]);
    if ending != Finished {
      CollectedCut(total, batches[k..], script[pos..], allPlans, sent, BatchOutcome(plans, batchSent, ending));
    } else {
      CollectedNext(total, batches[k..], script[pos..], allPlans, sent, BatchOutcome(plans, batchSent, ending));
      assert script[pos..][|batchSent|..] == script[pos + |batchSent|..];
    }
  }

  /** `fetch_plans_by_ids(plan_ids)`: the table once every batch has
      finished, and `None` when the exception escapes (`Raised`) or the
      script ran out first (`ScriptEnd`). The loop runs over the batches
      `Chunks(planIds)`, which are the slices `plan_ids[i:i + 100]` for `i`
      in `range(0, len(plan_ids), 100)` (`ChunksAreSlices`). */
  method FetchPlansByIds(planIds: seq<int>, script: seq<Reply<Plan>>)
    returns (table: Option<map<int, Plan>>, ending: Ending, sent: seq<PlanRequest>)
    ensures var o := BatchesRun(Chunks(planIds), script);
      sent == o.sent && ending == o.ending
      && table == (if o.ending == Finished then Some(PlanTable(o.plans)) else None)
  {
    var allPlans: seq<Plan> := [];
    sent := [];
    var pos: nat := 0;
    var batches := Chunks(planIds);
    ghost var total := BatchesRun(batches, script);
    CollectedStart(total, batches, script);
    for k := 0 to |batches|
      invariant pos <= |script|
      invariant Collected(total, batches[k..], script[pos..], allPlans, sent)
    {
      var plans, batchSent, batchEnding := FetchBatchAt(total, batches, k, script, pos, allPlans, sent);
      if batchEnding != Finished {
        table, ending := None, batchEnding;
        sent := sent + batchSent;
        return;
      }
      allPlans := allPlans + plans;
      sent := sent + batchSent;
      pos := pos + |batchSent|;
    }
    CollectedDone(total, batches, script[pos..], allPlans, sent);
    table, ending := Some(PlanTable(allPlans)), Finished;
  }

  /** The pages of plans the batch loop appends, in order. */
  function Taken(replies: seq<Reply<Plan>>): seq<seq<Plan>>
  {
    if replies == [] then []
    else
      match Classify(replies[0])
      case Take(items) => [items] + Taken(replies[1..])
      case _ => Taken(replies[1..])
  }

  /** Within a batch the plans are the pages received, in order; every
      page but the last is full (200 plans), since a shorter page ends the
      batch; and request k asks for the batch with the cursor at the last
      plan received before it. */
  lemma {:induction false} BatchRunPages(batch: seq<int>, script: seq<Reply<Plan>>, after: Option<int>)
    ensures var o := BatchRun(batch, script, after);
      var pages := Taken(script[..|o.sent|]);
      o.plans == Flatten(pages)
      && (forall j :: 0 <= j < |pages| - 1 ==> |pages[j]| >= PageLimit)
    decreases |script|
  {
    var o := BatchRun(batch, script, after);
    if script != [] {
      var n := |o.sent|;
      assert script[..n][0] == script[0];
      assert script[..n][1..] == script[1..][..n - 1];
      match Classify(script[0])
      case Retry =>
        BatchRunPages(batch, script[1..], after);
      case EndBatch =>
        assert script[..n][1..] == [];
      case Raise =>
        assert script[..n][1..] == [];
      case Take(items) =>
        if |items| < PageLimit {
          assert script[..n][1..] == [];
          FlattenCons(items, []);
        } else {
          BatchRunPages(batch, script[1..], Some(Last(items).id));
          FlattenCons(items, Taken(script[1..][..n - 1]));
        }
    }
  }

  function CursorAfterPlans(start: Option<int>, received: seq<Plan>): Option<int>
  {
    if received == [] then start else Some(Last(received).id)
  }

  /** Request k of a batch carries that batch, the page size 200, and the
      id of the last plan received in the batch before it as cursor. */
  lemma {:induction false} BatchCursorFollowsLastPlan(batch: seq<int>, script: seq<Reply<Plan>>,
                                                      after: Option<int>, k: nat)
    requires k < |BatchRun(batch, script, after).sent|
    ensures BatchRun(batch, script, after).sent[k]
         == PlanRequest(batch, PageLimit, CursorAfterPlans(after, Flatten(Taken(script[..k]))))
    decreases |script|
  {
    var o := BatchRun(batch, script, after);
    if k == 0 {
      assert script[..0] == [];
    } else {
      assert script[..k][0] == script[0];
      assert script[..k][1..] == script[1..][..k - 1];
      match Classify(script[0])
      case Retry =>
        BatchCursorFollowsLastPlan(batch, script[1..], after, k - 1);
      case Take(items) =>
        var after' := Some(Last(items).id);
        var o' := BatchRun(batch, script[1..], after');
        assert o.sent == [PlanRequest(batch, PageLimit, after)] + o'.sent;
        BatchCursorFollowsLastPlan(batch, script[1..], after', k - 1);
        var ps := Taken(script[1..][..k - 1]);
        assert Taken(script[..k]) == [items] + ps;
        FlattenCons(items, ps);
        var rest := Flatten(ps);
        if rest == [] {
          assert items + rest == items;
        } else {
          assert Last(items + rest) == Last(rest);
        }
    }
  }

  /** Every request of the whole lookup asks for one of the batches, with
      page size 200. */
  lemma {:induction false} RequestsCarryBatches(batches: seq<seq<int>>, script: seq<Reply<Plan>>)
    ensures forall q :: q in BatchesRun(batches, script).sent ==> q.ids in batches && q.limit == PageLimit
    decreases |batches|
  {
    if batches != [] {
      var b := BatchRun(batches[0], script, None);
      forall j | 0 <= j < |b.sent| ensures b.sent[j].ids == batches[0] && b.sent[j].limit == PageLimit {
        BatchCursorFollowsLastPlan(batches[0], script, None, j);
      }
      assert batches[0] in batches;
      if b.ending == Finished {
        RequestsCarryBatches(batches[1..], script[|b.sent|..]);
        var r := BatchesRun(batches[1..], script[|b.sent|..]);
        assert forall q :: q in r.sent ==> q.ids in batches[1..];
        assert BatchesRun(batches, script).sent == b.sent + r.sent;
      }
    }
  }

  /** A batch given at least one reply sends a request, and its first
      request asks for the batch from the cursor it started with. */
  lemma BatchRunFirstRequest(batch: seq<int>, script: seq<Reply<Plan>>, after: Option<int>)
    requires script != []
    ensures var o := BatchRun(batch, script, after);
      o.sent != [] && o.sent[0] == PlanRequest(batch, PageLimit, after)
  {
  }

  /** The requests of a lookup, one group per batch it started. */
  function BatchRequests(batches: seq<seq<int>>, script: seq<Reply<Plan>>): seq<seq<PlanRequest>>
    decreases |batches|
  {
    if batches == [] then []
    else
      var b := BatchRun(batches[0], script, None);
      if b.ending != Finished then [b.sent]
      else [b.sent] + BatchRequests(batches[1..], script[|b.sent|..])
  }

  /** A lookup that finished, neither raising nor running out of replies,
      sent its requests in one group per batch, in the order of the batches:
      group `k` opens with a request for batch `k` without cursor, and every
      request in it asks for batch `k`. */
  lemma {:induction false} EveryBatchDispatched(batches: seq<seq<int>>, script: seq<Reply<Plan>>)
    requires BatchesRun(batches, script).ending == Finished
    ensures var groups := BatchRequests(batches, script);
      && |groups| == |batches|
      && Flatten(groups) == BatchesRun(batches, script).sent
      && (forall k :: 0 <= k < |groups| ==>
            && groups[k] != []
            && groups[k][0] == PlanRequest(batches[k], PageLimit, None)
            && (forall q :: q in groups[k] ==> q.ids == batches[k]))
    decreases |batches|
  {
    if batches != [] {
      var b := BatchRun(batches[0], script, None);
      var rest := script[|b.sent|..];
      var groups := BatchRequests(batches, script);
      var groups' := BatchRequests(batches[1..], rest);
      assert script != [];
      BatchRunFirstRequest(batches[0], script, None);
      forall j | 0 <= j < |b.sent| ensures b.sent[j].ids == batches[0] {
        BatchCursorFollowsLastPlan(batches[0], script, None, j);
      }
      EveryBatchDispatched(batches[1..], rest);
      assert groups == [b.sent] + groups';
      FlattenCons(b.sent, groups');
      forall k | 0 < k < |groups| ensures groups[k] == groups'[k - 1] && batches[k] == batches[1..][k - 1] {
      }
    }
  }

  /** The three batches of 250 ids, when the lookup finishes, are each
      requested, in order: the requests are those for the first 100 ids,
      then those for the next 100, then those for the last 50. */
  lemma ThreeBatchesDispatched(ids: seq<int>, script: seq<Reply<Plan>>)
    requires |ids| == 250 && BatchesRun(Chunks(ids), script).ending == Finished
    ensures var groups := BatchRequests(Chunks(ids), script);
      && |groups| == 3
      && BatchesRun(Chunks(ids), script).sent == groups[0] + groups[1] + groups[2]
      && groups[0] != [] && groups[0][0] == PlanRequest(ids[..100], PageLimit, None)
      && groups[1] != [] && groups[1][0] == PlanRequest(ids[100..200], PageLimit, None)
      && groups[2] != [] && groups[2][0] == PlanRequest(ids[200..], PageLimit, None)
  {
    TwoHundredFiftyIds(ids);
    ChunksAreSlices(ids, 0);
    ChunksAreSlices(ids, 1);
    ChunksAreSlices(ids, 2);
    EveryBatchDispatched(Chunks(ids), script);
    var groups := BatchRequests(Chunks(ids), script);
    assert groups == [groups[0]] + [groups[1], groups[2]];
    assert [groups[1], groups[2]] == [groups[1]] + [groups[2]];
    FlattenCons(groups[0], [groups[1], groups[2]]);
    FlattenCons(groups[1], [groups[2]]);
    FlattenCons(groups[2], []);
  }

  /** Unlike the contract loop, a connection failure is not retried: it
      ends the current batch, and the lookup goes on with the next batch
      from the following reply. */
  lemma ConnectionFailureSkipsBatch(batches: seq<seq<int>>, script: seq<Reply<Plan>>)
    requires batches != [] && script != [] && script[0] == ConnectionFailed
    ensures var r := BatchesRun(batches[1..], script[1..]);
      BatchesRun(batches, script)
        == BatchOutcome(r.plans, [PlanRequest(batches[0], PageLimit, None)] + r.sent, r.ending)
  {
    assert script[..1] == [script[0]];
  }

  /** The set of ids of a page of plans. */
  function PageIds(page: seq<Plan>): set<int>
  {
    set j | 0 <= j < |page| :: page[j].id
  }

  /** A page from a service that answers only with plans of the batch, each
      plan once, holds at most as many plans as the batch has ids: with 100
      ids to a batch and 200 to a page, a batch never needs a second page. */
  lemma {:induction false} PageWithinBatchIsShort(batch: seq<int>, page: seq<Plan>)
    requires |batch| <= BatchSize
    requires forall j :: 0 <= j < |page| ==> page[j].id in batch
    requires forall j, j' :: 0 <= j < j' < |page| ==> page[j].id != page[j'].id
    ensures |page| <= |batch| < PageLimit
  {
    DistinctIdsCount(page);
    SetOfSeqBound(batch);
    assert PageIds(page) <= set x | x in batch;
    SubsetCardinality(PageIds(page), set x | x in batch);
  }

  /** So with such a service a batch is one request: its first reply, if it
      is a page, ends the batch with that page, whatever replies follow. */
  lemma HonestBatchTakesOnePage(batch: seq<int>, page: seq<Plan>, rest: seq<Reply<Plan>>)
    requires |batch| <= BatchSize
    requires forall j :: 0 <= j < |page| ==> page[j].id in batch
    requires forall j, j' :: 0 <= j < j' < |page| ==> page[j].id != page[j'].id
    ensures BatchRun(batch, [Http(200, Entities(page))] + rest, None)
         == BatchOutcome(page, [PlanRequest(batch, PageLimit, None)], Finished)
  {
    PageWithinBatchIsShort(batch, page);
    assert ([Http(200, Entities(page))] + rest)[0] == Http(200, Entities(page));
  }

  lemma {:induction false} DistinctIdsCount(page: seq<Plan>)
    requires forall j, j' :: 0 <= j < j' < |page| ==> page[j].id != page[j'].id
    ensures |PageIds(page)| == |page|
  {
    if page != [] {
      var init := page[..|page| - 1];
      assert forall j, j' :: 0 <= j < j' < |init| ==> init[j].id != init[j'].id;
      DistinctIdsCount(init);
      PageIdsSnoc(page);
      LastIdFresh(page);
    }
  }

  lemma PageIdsSnoc(page: seq<Plan>)
    requires page != []
    ensures PageIds(page) == PageIds(page[..|page| - 1]) + {Last(page).id}
  {
    var init := page[..|page| - 1];
    forall x | x in PageIds(page) ensures x in PageIds(init) + {Last(page).id} {
      var j :| 0 <= j < |page| && page[j].id == x;
      if j < |init| { assert init[j].id == x; }
    }
    forall x | x in PageIds(init) ensures x in PageIds(page) {
      var j :| 0 <= j < |init| && init[j].id == x;
      assert page[j].id == x;
    }
  }

  lemma LastIdFresh(page: seq<Plan>)
    requires page != []
    requires forall j, j' :: 0 <= j < j' < |page| ==> page[j].id != page[j'].id
    ensures Last(page).id !in PageIds(page[..|page| - 1])
  {
    var init := page[..|page| - 1];
    forall j | 0 <= j < |init| ensures init[j].id != Last(page).id {
      assert init[j] == page[j];
    }
  }

  lemma {:induction false} SetOfSeqBound(s: seq<int>)
    ensures |set x | x in s| <= |s|
  {
    if s != [] {
      var init := s[..|s| - 1];
      SetOfSeqBound(init);
      assert (set x | x in s) == (set x | x in init) + {Last(s)} by {
        assert s == init + [Last(s)];
      }
    }
  }

  lemma SubsetCardinality(a: set<int>, b: set<int>)
    requires a <= b
    ensures |a| <= |b|
  {
    assert b == a + (b - a);
    assert a * (b - a) == {};
  }
}
