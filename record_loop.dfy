/**
 * The loop every handler runs over `event['Records']`: each SQS record is
 * processed inside its own try/except, and its message is deleted from the
 * queue as the last statement of the try block, so only after all of that
 * record's work returned normally. A failing record is logged and the loop
 * goes on with the next one.
 */
module RecordLoop {
  import opened Wrappers
  import opened Aws

  /**
   * The body of an SQS record: `json.loads(record['body'])` either fails
   * (Unreadable) or gives a parsed body from which the handler takes its
   * payload: the `Message` of an SNS envelope, parsed again, or the `Records`
   * of an S3 event (None when that key is missing or the text is not JSON).
   */
  datatype Delivery<M> = Unreadable | Wrapped(message: Option<M>)

  /** One element of `event['Records']`; a missing `receiptHandle` is None. */
  datatype SqsRecord<M> = SqsRecord(body: Delivery<M>, receiptHandle: Option<string>)

  /** The `{"status": 200, "body": "ok"}` a handler returns, or what else it ends with. */
  datatype Response = Ok200 | ReturnsNone | Raises(failure: Failure)

  /** What one record's failure boundary leaves: the new world and, if it was acknowledged, the receipt handle it deleted. */
  datatype StepResult = StepResult(world: World, acked: Option<string>)

  /** The effects a step appended to the log. */
  function Appended(before: World, after: World): seq<Effect>
    requires |before.log| <= |after.log|
  {
    after.log[|before.log|..]
  }

  /** The receipt handle list a step contributes: its own, when it acknowledged. */
  function AckedList(s: StepResult): seq<string>
  {
    if s.acked.Some? then [s.acked.value] else []
  }

  /**
   * The discipline of one record's failure boundary: the step only appends to the
   * log; the only delete among its effects is of its own receipt, issued only when
   * it acknowledges, and then as its very last effect.
   */
  ghost predicate Disciplined(w: World, s: StepResult, queue: string)
  {
    && |w.log| <= |s.world.log|
    && s.world.log[..|w.log|] == w.log
    && Deleted(Appended(w, s.world)) == AckedList(s)
    && (s.acked.Some? ==> s.world.log[|s.world.log| - 1] == Delete(queue, s.acked.value))
  }

  /** Every record's step keeps that discipline, from every world. */
  ghost predicate AcksAfterWork<R(!new)>(step: (World, R) -> StepResult, queue: string)
  {
    forall w: World, rec: R :: Disciplined(w, step(w, rec), queue)
  }

  /** The whole loop: the final world and the receipts deleted, in record order. */
  function Run<R>(w: World, records: seq<R>, step: (World, R) -> StepResult): (r: (World, seq<string>))
    ensures |r.1| <= |records|
  {
    if records == [] then (w, [])
    else
      var prev := Run(w, records[..|records| - 1], step);
      var s := step(prev.0, records[|records| - 1]);
      (s.world, prev.1 + AckedList(s))
  }

  /**
   * Under the discipline above, the loop only appends to the log, and the SQS
   * deletes it issues are exactly the receipts of the acknowledged records, in order:
   * a failing record leaves its message in the queue and does not stop the others.
   */
  lemma {:induction false} RunDeletesExactlyAcked<R(!new)>(w: World, records: seq<R>, step: (World, R) -> StepResult, queue: string)
    requires AcksAfterWork(step, queue)
    ensures |w.log| <= |Run(w, records, step).0.log|
    ensures Run(w, records, step).0.log[..|w.log|] == w.log
    ensures Deleted(Appended(w, Run(w, records, step).0)) == Run(w, records, step).1
  {
    if records != [] {
      var init := records[..|records| - 1];
      RunDeletesExactlyAcked(w, init, step, queue);
      var prev := Run(w, init, step);
      var s := step(prev.0, records[|records| - 1]);
      assert Run(w, records, step) == (s.world, prev.1 + AckedList(s));
      assert Disciplined(prev.0, s, queue);
      LogChain(w.log, prev.0.log, s.world.log);
    }
  }

  /** Two appends in a row are one append of both suffixes, and the deletes add up. */
  lemma LogChain(l0: seq<Effect>, l1: seq<Effect>, l2: seq<Effect>)
    requires |l0| <= |l1| && l1[..|l0|] == l0
    requires |l1| <= |l2| && l2[..|l1|] == l1
    ensures |l0| <= |l2| && l2[..|l0|] == l0
    ensures Deleted(l2[|l0|..]) == Deleted(l1[|l0|..]) + Deleted(l2[|l1|..])
  {
    assert l2[|l0|..] == l1[|l0|..] + l2[|l1|..];
    DeletedAppend(l1[|l0|..], l2[|l1|..]);
  }

  /** `after` only appended to `before`'s log, and nothing it appended is an SQS delete. */
  ghost predicate AppendsNoDelete(before: World, after: World)
  {
    |before.log| <= |after.log| && after.log[..|before.log|] == before.log && Deleted(Appended(before, after)) == []
  }

  lemma AppendsNoDeleteChain(w0: World, w1: World, w2: World)
    requires AppendsNoDelete(w0, w1) && AppendsNoDelete(w1, w2)
    ensures AppendsNoDelete(w0, w2)
  {
    LogChain(w0.log, w1.log, w2.log);
  }

  /**
   * A record whose work appends no delete, and that afterwards deletes its own receipt
   * when it acknowledges, keeps the discipline.
   */
  lemma DeleteLastIsDisciplined(w: World, worked: World, queue: string, acked: Option<string>)
    requires AppendsNoDelete(w, worked)
    ensures Disciplined(w, StepResult(if acked.Some? then DeleteMessage(worked, queue, acked.value) else worked, acked), queue)
  {
    if acked.Some? {
      var d := Delete(queue, acked.value);
      var after := DeleteMessage(worked, queue, acked.value);
      assert Appended(w, after) == Appended(w, worked) + [d];
      DeletedAppend(Appended(w, worked), [d]);
      assert Deleted([d]) == [acked.value] by {
        assert [d][..0] == [];
      }
    }
  }

  /** Appending one effect that is not a delete appends no delete. */
  lemma OneEffectNoDelete(w: World, w': World, e: Effect)
    requires w'.log == w.log + [e] && !e.Delete?
    ensures AppendsNoDelete(w, w')
  {
    assert Appended(w, w') == [e];
    assert Deleted([e]) == [] by {
      assert [e][..0] == [];
    }
  }

  /** Changing nothing appends no delete. */
  lemma NothingAppended(w: World)
    ensures AppendsNoDelete(w, w)
  {
    assert Appended(w, w) == [];
  }
}
