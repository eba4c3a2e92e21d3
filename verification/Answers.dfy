/** What Foreman and GitHub answer the reconciler, and what each answer makes of a deliverable and its plan. */
module Answers {
  import opened Basics
  import opened Tables
  import opened Execution
  import opened Effects

  /** What Foreman and GitHub say about one active workload. */
  datatype Review =
    | StillRunning(phase: string)
    | WorkloadFailed
    | ChecksWaiting
    | Rejected
    | Accepted(pull: PullRequest, mergedAtOnce: bool)
    | Unreachable
    | CutOff  // Foreman says completed, then GitHub cannot be reached

  datatype MergeAnswer = InProgress | Done | Refused | NoAnswer

  predicate Ends(review: Review) { review.Unreachable? || review.CutOff? }

  /** The call that fails ends the pass. */
  predicate Silent(hasMergeId: bool, answer: MergeAnswer) { hasMergeId && answer.NoAnswer? }

  // ----- one row -----

  /** Plans that had rows have the same ones. */
  ghost predicate RowsStay(db: Db, db': Db) {
    forall q | Rows(db, q) != [] :: Rows(db', q) == Rows(db, q)
  }

  /** One row became d; the other rows there were are the same. */
  ghost predicate Turned(db: Db, db': Db, slot: Slot, d: Deliverable) {
    && HasSlot(db, slot)
    && forall q | Rows(db, q) != [] :: Rows(db', q) == if q == slot.plan then Rows(db, q)[slot.index := d] else Rows(db, q)
  }

  ghost predicate StateIs(db: Db, p: PlanId, state: PlanState) { p in db.plans ==> db.plans[p].state == state }

  /** A failed workload or a refused pull request breaks the row and fails the plan; an accepted one is stored with the row,
      which waits for the merge, or is merged if GitHub did so at once, and then completes a plan whose other rows are
      merged; any other answer leaves the rows alone. */
  ghost predicate Reviewed(db: Db, db': Db, slot: Slot, review: Review) {
    HasSlot(db, slot) &&
    match review
    case WorkloadFailed => Turned(db, db', slot, RowAt(db, slot).(state := Broken)) && StateIs(db', slot.plan, Failed)
    case Rejected => Turned(db, db', slot, RowAt(db, slot).(state := Broken)) && StateIs(db', slot.plan, Failed)
    case Accepted(pull, atOnce) =>
      && Turned(db, db', slot, RowAt(db, slot).(state := if atOnce then Merged else MergePending, pull := Some(pull)))
      && (atOnce && OthersMerged(Rows(db, slot.plan), slot.index) ==> StateIs(db', slot.plan, Completed))
    case _ => RowsStay(db, db')
  }

  /** A merge that is done merges the row, and completes a plan whose other rows are merged; one that was refused breaks the
      row and fails the plan; otherwise, or if there was nothing to ask about, the rows stay. */
  ghost predicate Polled(db: Db, db': Db, slot: Slot, hasMergeId: bool, answer: MergeAnswer) {
    HasSlot(db, slot) &&
    match answer
    case Done =>
      if hasMergeId
      then Turned(db, db', slot, RowAt(db, slot).(state := Merged))
           && (OthersMerged(Rows(db, slot.plan), slot.index) ==> StateIs(db', slot.plan, Completed))
      else RowsStay(db, db')
    case Refused =>
      if hasMergeId
      then Turned(db, db', slot, RowAt(db, slot).(state := Broken)) && StateIs(db', slot.plan, Failed)
      else RowsStay(db, db')
    case _ => RowsStay(db, db')
  }

  lemma StayThenStay(a: Db, b: Db, c: Db)
    requires RowsStay(a, b) && RowsStay(b, c)
    ensures RowsStay(a, c)
  {
  }

  lemma SameItemsStay(a: Db, b: Db)
    requires a.items == b.items
    ensures RowsStay(a, b)
  {
  }

  lemma KeptRowsStay(a: Db, b: Db)
    requires RowsKept(a, b)
    ensures RowsStay(a, b)
  {
  }

  lemma OnlyRowTurned(a: Db, b: Db, slot: Slot, d: Deliverable)
    requires HasSlot(a, slot) && OnlyRow(a, b, slot.plan, slot.index, d)
    ensures Turned(a, b, slot, d)
  {
    forall q | Rows(a, q) != []
      ensures Rows(b, q) == if q == slot.plan then Rows(a, q)[slot.index := d] else Rows(a, q)
    {
      assert |Rows(b, q)| == |Rows(a, q)|;
      assert forall j: nat | HasRow(a, q, j) && (q, j) != (slot.plan, slot.index) :: Rows(b, q)[j] == Rows(a, q)[j];
    }
  }

  lemma OnlyStateIs(a: Db, b: Db, p: PlanId, state: PlanState)
    requires OnlyState(a, b, p, state)
    ensures StateIs(b, p, state)
  {
  }

  lemma StayThenReviewed(a: Db, b: Db, c: Db, slot: Slot, review: Review)
    requires HasSlot(a, slot) && RowsStay(a, b) && Reviewed(b, c, slot, review)
    ensures Reviewed(a, c, slot, review)
  {
    assert Rows(a, slot.plan) == Rows(b, slot.plan);
  }

  lemma StayThenPolled(a: Db, b: Db, c: Db, slot: Slot, hasMergeId: bool, answer: MergeAnswer)
    requires HasSlot(a, slot) && RowsStay(a, b) && Polled(b, c, slot, hasMergeId, answer)
    ensures Polled(a, c, slot, hasMergeId, answer)
  {
    assert Rows(a, slot.plan) == Rows(b, slot.plan);
  }

  /** Begun, then others, then merged. */
  lemma BegunThenMerged(a: Db, b: Db, c: Db, e: Db, slot: Slot, pull: PullRequest)
    requires HasSlot(a, slot) && Turned(a, b, slot, RowAt(a, slot).(state := MergePending, pull := Some(pull))) && RowsStay(b, c)
    requires HasSlot(c, slot) && Turned(c, e, slot, RowAt(c, slot).(state := Merged))
    requires OthersMerged(Rows(c, slot.plan), slot.index) ==> StateIs(e, slot.plan, Completed)
    ensures Reviewed(a, e, slot, Review.Accepted(pull, true))
  {
    hide StateIs;
    var was := Rows(a, slot.plan);
    var began := RowAt(a, slot).(state := MergePending, pull := Some(pull));
    assert Rows(b, slot.plan) == was[slot.index := began] == Rows(c, slot.plan);
    assert was[slot.index := began][slot.index := began.(state := Merged)] == was[slot.index := began.(state := Merged)];
    assert OthersMerged(was, slot.index) ==> OthersMerged(was[slot.index := began], slot.index);
  }

  // ----- all the rows of a list -----

  /** What a review makes of its row. */
  function RowAfterReview(d: Deliverable, review: Review): Deliverable {
    match review
    case WorkloadFailed => d.(state := Broken)
    case Rejected => d.(state := Broken)
    case Accepted(pull, atOnce) => d.(state := if atOnce then Merged else MergePending, pull := Some(pull))
    case _ => d
  }

  function RowAfterPoll(d: Deliverable, hasMergeId: bool, answer: MergeAnswer): Deliverable {
    if !hasMergeId then d
    else match answer case Done => d.(state := Merged) case Refused => d.(state := Broken) case _ => d
  }

  /** The listed rows are what after makes of them; the other rows there were are the same. */
  ghost predicate AllTurned(db: Db, db': Db, slots: seq<Slot>, after: (nat, Deliverable) -> Deliverable) {
    && (forall i | 0 <= i < |slots| ::
          HasSlot(db, slots[i]) && HasSlot(db', slots[i]) && RowAt(db', slots[i]) == after(i, RowAt(db, slots[i])))
    && (forall s: Slot | HasSlot(db, s) && s !in slots :: HasSlot(db', s) && RowAt(db', s) == RowAt(db, s))
  }

  /** What the first n answers make of a listed row. */
  function ReviewsTo(reviews: nat -> Review, n: nat): (nat, Deliverable) -> Deliverable {
    (i: nat, d: Deliverable) => if i < n then RowAfterReview(d, reviews(i)) else d
  }

  function PollsTo(ids: seq<bool>, merges: nat -> MergeAnswer, n: nat): (nat, Deliverable) -> Deliverable {
    (i: nat, d: Deliverable) => if i < n && i < |ids| then RowAfterPoll(d, ids[i], merges(i)) else d
  }

  lemma NoneTurned(db: Db, slots: seq<Slot>, state: ItemState, reviews: nat -> Review, ids: seq<bool>, merges: nat -> MergeAnswer)
    requires AllAt(db, slots, state)
    ensures AllTurned(db, db, slots, ReviewsTo(reviews, 0)) && AllTurned(db, db, slots, PollsTo(ids, merges, 0))
  {
  }

  /** What one answer does, row by row. */
  lemma ReviewedRows(a: Db, b: Db, slot: Slot, review: Review)
    requires Reviewed(a, b, slot, review)
    ensures HasSlot(a, slot) && HasSlot(b, slot) && RowAt(b, slot) == RowAfterReview(RowAt(a, slot), review)
    ensures forall s: Slot | HasSlot(a, s) && s != slot :: HasSlot(b, s) && RowAt(b, s) == RowAt(a, s)
  {
  }

  lemma PolledRows(a: Db, b: Db, slot: Slot, hasMergeId: bool, answer: MergeAnswer)
    requires Polled(a, b, slot, hasMergeId, answer)
    ensures HasSlot(a, slot) && HasSlot(b, slot) && RowAt(b, slot) == RowAfterPoll(RowAt(a, slot), hasMergeId, answer)
    ensures forall s: Slot | HasSlot(a, s) && s != slot :: HasSlot(b, s) && RowAt(b, s) == RowAt(a, s)
  {
  }

  lemma StayRows(a: Db, b: Db)
    requires RowsStay(a, b)
    ensures forall s: Slot | HasSlot(a, s) :: HasSlot(b, s) && RowAt(b, s) == RowAt(a, s)
  {
  }

  lemma OneMoreReviewed(a: Db, b: Db, c: Db, slots: seq<Slot>, reviews: nat -> Review, n: nat)
    requires DistinctSlots(slots) && n < |slots| && AllTurned(a, b, slots, ReviewsTo(reviews, n))
    requires Reviewed(b, c, slots[n], reviews(n))
    ensures AllTurned(a, c, slots, ReviewsTo(reviews, n + 1))
  {
    ReviewedRows(b, c, slots[n], reviews(n));
    hide Reviewed, HasSlot, RowAt, RowAfterReview;
    forall i | 0 <= i < |slots|
      ensures HasSlot(a, slots[i]) && HasSlot(c, slots[i]) && RowAt(c, slots[i]) == ReviewsTo(reviews, n + 1)(i, RowAt(a, slots[i]))
    {
      assert i != n ==> slots[i] != slots[n];
    }
  }

  lemma OneMorePolled(a: Db, b: Db, c: Db, slots: seq<Slot>, ids: seq<bool>, merges: nat -> MergeAnswer, n: nat)
    requires DistinctSlots(slots) && n < |slots| == |ids| && AllTurned(a, b, slots, PollsTo(ids, merges, n))
    requires Polled(b, c, slots[n], ids[n], merges(n))
    ensures AllTurned(a, c, slots, PollsTo(ids, merges, n + 1))
  {
    PolledRows(b, c, slots[n], ids[n], merges(n));
    hide Polled, HasSlot, RowAt, RowAfterPoll;
    forall i | 0 <= i < |slots|
      ensures HasSlot(a, slots[i]) && HasSlot(c, slots[i]) && RowAt(c, slots[i]) == PollsTo(ids, merges, n + 1)(i, RowAt(a, slots[i]))
    {
      assert i != n ==> slots[i] != slots[n];
    }
  }

  lemma AllTurnedThenStay(a: Db, b: Db, c: Db, slots: seq<Slot>, after: (nat, Deliverable) -> Deliverable)
    requires AllTurned(a, b, slots, after) && RowsStay(b, c)
    ensures AllTurned(a, c, slots, after)
  {
    StayRows(b, c);
  }
}
