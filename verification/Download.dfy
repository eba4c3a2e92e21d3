/** iq3-download.py: one file fetched as byte ranges by several workers, through crashes and restarts. */
module Download {
  import opened Basics

  // ----- the plan -----

  /** range(from, size, chunk) */
  function Starts(size: nat, chunk: nat, from: nat): (r: seq<nat>)
    requires chunk > 0
    ensures forall i | 0 <= i < |r| :: from <= r[i] < size
    ensures forall i, j | 0 <= i < j < |r| :: r[i] + chunk <= r[j]
    decreases size - from
  {
    if from >= size then [] else [from] + Starts(size, chunk, from + chunk)
  }

  function Last(size: nat, chunk: nat, first: nat): int {
    (if first + chunk < size then first + chunk else size) - 1
  }

  /** The ranges to fetch: those not recorded as complete. */
  function Remaining(size: nat, chunk: nat, done: seq<nat>, from: nat): seq<nat>
    requires chunk > 0
    decreases size - from
  {
    if from >= size then []
    else if from in done then Remaining(size, chunk, done, from + chunk)
    else [from] + Remaining(size, chunk, done, from + chunk)
  }

  lemma InCons(x: nat, tail: seq<nat>, f: nat)
    ensures f in [x] + tail <==> f == x || f in tail
  {
  }

  /** One step of both lists. */
  lemma NextStart(size: nat, chunk: nat, done: seq<nat>, from: nat)
    requires chunk > 0 && from < size
    ensures Starts(size, chunk, from) == [from] + Starts(size, chunk, from + chunk)
    ensures Remaining(size, chunk, done, from)
         == if from in done then Remaining(size, chunk, done, from + chunk) else [from] + Remaining(size, chunk, done, from + chunk)
  {
  }

  lemma {:induction false} RemainingMembers(size: nat, chunk: nat, done: seq<nat>, from: nat, f: nat)
    requires chunk > 0
    ensures f in Remaining(size, chunk, done, from) <==> f in Starts(size, chunk, from) && f !in done
    decreases size - from
  {
    if from < size {
      hide Starts, Remaining;
      NextStart(size, chunk, done, from);
      RemainingMembers(size, chunk, done, from + chunk, f);
      InCons(from, Starts(size, chunk, from + chunk), f);
      InCons(from, Remaining(size, chunk, done, from + chunk), f);
    }
  }

  /** Ascending, from a bound on. */
  predicate Ascending(xs: seq<nat>, from: nat) {
    (forall i | 0 <= i < |xs| :: from <= xs[i]) && forall i, j | 0 <= i < j < |xs| :: xs[i] < xs[j]
  }

  lemma AscendingCons(x: nat, tail: seq<nat>, from: nat)
    requires Ascending(tail, from) && x < from
    ensures Ascending([x] + tail, x)
  {
  }

  lemma AscendingFrom(xs: seq<nat>, from: nat, lower: nat)
    requires Ascending(xs, from) && lower <= from
    ensures Ascending(xs, lower)
  {
  }

  lemma {:induction false} RemainingInOrder(size: nat, chunk: nat, done: seq<nat>, from: nat)
    requires chunk > 0
    ensures Ascending(Remaining(size, chunk, done, from), from)
    decreases size - from
  {
    if from < size {
      hide Starts, Remaining, Ascending;
      NextStart(size, chunk, done, from);
      RemainingInOrder(size, chunk, done, from + chunk);
      if from in done {
        AscendingFrom(Remaining(size, chunk, done, from + chunk), from + chunk, from);
      } else {
        AscendingCons(from, Remaining(size, chunk, done, from + chunk), from + chunk);
      }
    }
  }

  lemma StartsBelow(size: nat, chunk: nat, from: nat, f: nat)
    requires chunk > 0 && f in Starts(size, chunk, from)
    ensures from <= f < size
  {
  }

  /** The jobs of a plan: first and last byte of each range. */
  function Jobs(size: nat, chunk: nat, firsts: seq<nat>): seq<(nat, int)> {
    seq(|firsts|, i requires 0 <= i < |firsts| => (firsts[i], Last(size, chunk, firsts[i])))
  }

  method PlanJobs(size: nat, chunk: nat, done: seq<nat>) returns (jobs: seq<(nat, int)>)
    requires chunk > 0
    ensures jobs == Jobs(size, chunk, Remaining(size, chunk, done, 0))
  {
    hide Starts, Jobs;
    jobs := [];
    var first := 0;
    ghost var firsts: seq<nat> := [];
    JobsOfNone(size, chunk);
    while first < size
      invariant firsts + Remaining(size, chunk, done, first) == Remaining(size, chunk, done, 0)
      invariant jobs == Jobs(size, chunk, firsts)
      decreases size - first
    {
      if first !in done {
        jobs := jobs + [(first, Last(size, chunk, first))];
        Regroup(firsts, first, Remaining(size, chunk, done, first + chunk));
        JobsAppend(size, chunk, firsts, first);
        firsts := firsts + [first];
      }
      first := first + chunk;
    }
    assert firsts == firsts + Remaining(size, chunk, done, first);
  }

  lemma JobsOfNone(size: nat, chunk: nat)
    ensures Jobs(size, chunk, []) == []
  {
  }

  lemma JobsAppend(size: nat, chunk: nat, firsts: seq<nat>, x: nat)
    ensures Jobs(size, chunk, firsts + [x]) == Jobs(size, chunk, firsts) + [(x, Last(size, chunk, x))]
  {
  }

  lemma Regroup(a: seq<nat>, x: nat, b: seq<nat>)
    ensures a + ([x] + b) == (a + [x]) + b
  {
  }

  lemma {:induction false} RangeOf(size: nat, chunk: nat, from: nat, i: nat) returns (f: nat)
    requires chunk > 0 && from <= i < size
    ensures f in Starts(size, chunk, from) && f <= i <= Last(size, chunk, f)
    decreases size - from
  {
    hide Starts;
    NextStart(size, chunk, [], from);
    if i < from + chunk {
      f := from;
    } else {
      f := RangeOf(size, chunk, from + chunk, i);
    }
    InCons(from, Starts(size, chunk, from + chunk), f);
  }

  lemma StartsApart(size: nat, chunk: nat, f: nat, g: nat)
    requires chunk > 0 && f in Starts(size, chunk, 0) && g in Starts(size, chunk, 0) && f < g
    ensures f + chunk <= g
  {
    hide Starts;
    var starts := Starts(size, chunk, 0);
    var i :| 0 <= i < |starts| && starts[i] == f;
    var j :| 0 <= j < |starts| && starts[j] == g;
    assert i < j;
  }

  /** The ranges tile the file: every byte is in exactly one of them. */
  lemma RangesTile(size: nat, chunk: nat, i: nat)
    requires chunk > 0 && i < size
    ensures exists f: nat :: f in Starts(size, chunk, 0) && f <= i <= Last(size, chunk, f)
    ensures forall f: nat, g: nat | f in Starts(size, chunk, 0) && g in Starts(size, chunk, 0)
                                    && f <= i <= Last(size, chunk, f) && g <= i <= Last(size, chunk, g) :: f == g
  {
    hide Starts;
    var f := RangeOf(size, chunk, 0, i);
    forall f: nat, g: nat | f in Starts(size, chunk, 0) && g in Starts(size, chunk, 0)
                            && f <= i <= Last(size, chunk, f) && g <= i <= Last(size, chunk, g)
      ensures f == g
    {
      if f < g { StartsApart(size, chunk, f, g); }
      if g < f { StartsApart(size, chunk, g, f); }
    }
  }

  // ----- one worker, in place -----

  const ATTEMPTS := 5

  /** How one attempt goes: a prefix of the range in pieces, unless the request is refused, and then whether the range
      is recorded. */
  datatype Answer = Answer(accepted: bool, pieces: seq<nat>, recorded: bool)

  /** The bytes of a body, which is never longer than its range. */
  function Received(pieces: seq<nat>, length: nat): (n: nat)
    ensures n <= length
  {
    if pieces == [] then 0
    else
      var before := Received(pieces[..|pieces| - 1], length);
      if before + pieces[|pieces| - 1] <= length then before + pieces[|pieces| - 1] else length
  }

  function Sum(pieces: seq<nat>): nat {
    if pieces == [] then 0 else pieces[0] + Sum(pieces[1..])
  }

  lemma {:induction false} SumOfLast(pieces: seq<nat>)
    requires pieces != []
    ensures Sum(pieces) == Sum(pieces[..|pieces| - 1]) + pieces[|pieces| - 1]
  {
    if |pieces| > 1 {
      assert pieces[1..][..|pieces| - 2] == pieces[..|pieces| - 1][1..];
      SumOfLast(pieces[1..]);
    }
  }

  /** All the bytes that come are taken, up to the length of the range. */
  lemma {:induction false} ReceivesAllThatFits(pieces: seq<nat>, length: nat)
    ensures Received(pieces, length) == if Sum(pieces) < length then Sum(pieces) else length
    decreases |pieces|
  {
    if pieces != [] {
      SumOfLast(pieces);
      ReceivesAllThatFits(pieces[..|pieces| - 1], length);
    }
  }

  /** The attempt succeeds: the whole range arrives and is recorded. */
  predicate Succeeds(a: Answer, length: nat) { a.accepted && Received(a.pieces, length) == length && a.recorded }

  ghost predicate Right(data: Bytes, source: Bytes, lo: nat, hi: nat) {
    hi <= |data| && hi <= |source| && forall i | lo <= i < hi :: data[i] == source[i]
  }

  /** Write the body at its place until it ends. */
  method ReceiveBody(part: array<bv8>, source: Bytes, first: nat, last: nat, pieces: seq<nat>) returns (count: nat)
    requires part.Length == |source| && first <= last < |source|
    modifies part
    ensures count == Received(pieces, last - first + 1) && Right(part[..], source, first, first + count)
    ensures forall i | 0 <= i < part.Length :: part[i] == old(part[i]) || part[i] == source[i]
    ensures forall i | 0 <= i < part.Length && !(first <= i <= last) :: part[i] == old(part[i])
  {
    count := 0;
    for k := 0 to |pieces|
      invariant count == Received(pieces[..k], last - first + 1) && Right(part[..], source, first, first + count)
      invariant forall i | 0 <= i < part.Length :: part[i] == old(part[i]) || part[i] == source[i]
      invariant forall i | 0 <= i < part.Length && !(first <= i <= last) :: part[i] == old(part[i])
    {
      assert pieces[..k + 1][..k] == pieces[..k];
      var n := if pieces[k] <= last - first + 1 - count then pieces[k] else last - first + 1 - count;
      ghost var before := part[..];
      forall j | 0 <= j < n {
        part[first + count + j] := source[first + count + j];
      }
      assert forall i | first <= i < first + count :: part[i] == before[i];
      assert forall i | first + count <= i < first + count + n :: part[i] == source[first + count + (i - first - count)];
      count := count + n;
    }
    assert pieces[..|pieces|] == pieces;
  }

  /** download: up to five attempts at one range, each failure but the fifth followed by a refresh of the address, which may
      itself fail and then ends the range. Whatever happens nothing outside the range is touched and no byte that was right
      becomes wrong; on success the whole range is right. */
  method Fetch(part: array<bv8>, source: Bytes, first: nat, last: nat, answers: nat -> Answer, refreshes: nat -> bool)
    returns (ok: bool, attempts: nat)
    requires part.Length == |source| && first <= last < |source|
    modifies part
    ensures 1 <= attempts <= ATTEMPTS
    ensures forall k: nat | k < attempts - 1 :: !Succeeds(answers(k), last - first + 1) && refreshes(k)
    ensures ok <==> Succeeds(answers(attempts - 1), last - first + 1)
    ensures !ok ==> (attempts < ATTEMPTS <==> exists k: nat :: k < attempts && k < ATTEMPTS - 1 && !refreshes(k))
    ensures ok ==> Right(part[..], source, first, last + 1)
    ensures forall i | 0 <= i < part.Length :: part[i] == old(part[i]) || part[i] == source[i]
    ensures forall i | 0 <= i < part.Length && !(first <= i <= last) :: part[i] == old(part[i])
  {
    attempts := 0;
    while true
      invariant attempts < ATTEMPTS
      invariant forall k: nat | k < attempts :: !Succeeds(answers(k), last - first + 1) && refreshes(k)
      invariant forall i | 0 <= i < part.Length :: part[i] == old(part[i]) || part[i] == source[i]
      invariant forall i | 0 <= i < part.Length && !(first <= i <= last) :: part[i] == old(part[i])
      decreases ATTEMPTS - attempts
    {
      var answer := answers(attempts);
      attempts := attempts + 1;
      if answer.accepted {
        var count := ReceiveBody(part, source, first, last, answer.pieces);
        if count == last - first + 1 && answer.recorded {
          return true, attempts;
        }
      }
      if attempts == ATTEMPTS {
        return false, attempts;
      }
      if !refreshes(attempts - 1) {
        return false, attempts;
      }
    }
  }

  // ----- all workers, crashes and restarts -----

  /** A range being fetched: bytes written in this attempt, attempts failed, and whether it was synced. */
  datatype Progress = Progress(count: nat, failures: nat, synced: bool)

  /** cache is what reads of the part file see, stable what a crash cannot take back; recorded is the state file.
      The rest is the memory of the process, which is lost when it stops; again has the ranges whose attempt failed after
      they were put on the list of completed ones. */
  datatype System = System(
    partExists: bool, cache: Bytes, stable: Bytes, recorded: seq<nat>, target: Option<Bytes>,
    running: bool, completed: seq<nat>, queue: seq<nat>, active: map<nat, Progress>, failed: set<nat>, again: set<nat>)

  datatype Action =
    | Start
    | Take
    | Receive(first: nat, n: nat)
    | Error(first: nat, refreshed: bool)
    | Sync(first: nat)
    | Record(first: nat)
    | RecordFails(first: nat, written: bool, refreshed: bool)
    | Stop
    | Crash(survives: nat -> bool, keep: nat)
    | Publish
    | RemovePart
    | RemoveTarget

  const WORKERS := 8

  function Zeros(n: nat): Bytes { seq(n, i => 0) }

  function Initial(size: nat): System {
    System(false, Zeros(size), Zeros(size), [], None, false, [], [], map[], {}, {})
  }

  function Written(cache: Bytes, source: Bytes, lo: nat, hi: nat): (r: Bytes)
    requires |cache| == |source|
    ensures |r| == |cache|
  {
    seq(|cache|, i requires 0 <= i < |cache| => if lo <= i < hi then source[i] else cache[i])
  }

  /** After a power failure every byte that was not synced is the old or the new one. */
  function Surviving(cache: Bytes, stable: Bytes, survives: nat -> bool): (r: Bytes)
    requires |cache| == |stable|
    ensures |r| == |cache|
  {
    seq(|cache|, i requires 0 <= i < |cache| => if survives(i) then cache[i] else stable[i])
  }

  function Asleep(s: System): System {
    s.(running := false, completed := [], queue := [], active := map[], failed := {}, again := {})
  }

  predicate AllFetched(s: System) { s.queue == [] && s.active == map[] && s.failed == {} }

  /** A failed attempt is followed by another, unless it was the fifth or the address could not be refreshed. */
  function AfterFailure(s: System, first: nat, refreshed: bool): System
    requires first in s.active
  {
    if s.active[first].failures + 1 < ATTEMPTS && refreshed
    then s.(active := s.active[first := Progress(0, s.active[first].failures + 1, false)])
    else s.(active := s.active - {first}, failed := s.failed + {first})
  }

  /** A synced range put on the list of completed ones, in memory and perhaps in the state file. */
  function Listed(s: System, first: nat, written: bool): System {
    var done := s.completed + [first];
    s.(completed := done, recorded := if written then done else s.recorded, again := s.again + {first})
  }

  function Length(source: Bytes, chunk: nat, first: nat): nat {
    if first < |source| then (if first + chunk < |source| then chunk else |source| - first) else 0
  }

  function Step(source: Bytes, chunk: nat, s: System, a: Action): (t: System)
    requires chunk > 0 && |s.cache| == |s.stable| == |source|
    ensures |t.cache| == |t.stable| == |source|
  {
    match a
    case Start =>
      if s.running || s.target == Some(source) then s
      else
        var done := if s.partExists then s.recorded else [];
        s.(partExists := true,
           cache := if s.partExists then s.cache else Zeros(|source|),
           stable := if s.partExists then s.stable else Zeros(|source|),
           running := true, completed := done, queue := Remaining(|source|, chunk, done, 0),
           active := map[], failed := {}, again := {})
    case Take =>
      if s.running && s.queue != [] && |s.active| < WORKERS
      then s.(queue := s.queue[1..], active := s.active[s.queue[0] := Progress(0, 0, false)])
      else s
    case Receive(first, n) =>
      if s.running && first in s.active && !s.active[first].synced && s.active[first].count + n <= Length(source, chunk, first)
      then
        var at := first + s.active[first].count;
        s.(cache := Written(s.cache, source, at, at + n),
           active := s.active[first := s.active[first].(count := s.active[first].count + n)])
      else s
    case Error(first, refreshed) => if s.running && first in s.active then AfterFailure(s, first, refreshed) else s
    case Sync(first) =>
      if s.running && first in s.active && s.active[first].count == Length(source, chunk, first)
      then s.(stable := s.cache, active := s.active[first := s.active[first].(synced := true)])
      else s
    case Record(first) =>
      if s.running && first in s.active && s.active[first].synced
      then s.(completed := s.completed + [first], recorded := s.completed + [first], active := s.active - {first})
      else s
    case RecordFails(first, written, refreshed) =>
      if s.running && first in s.active && s.active[first].synced then
        AfterFailure(Listed(s, first, written), first, refreshed)
      else s
    case Stop => Asleep(s)
    case Crash(survives, keep) =>
      var bytes := Surviving(s.cache, s.stable, survives);
      Asleep(s).(cache := bytes, stable := bytes, recorded := if keep < |s.recorded| then s.recorded[..keep] else s.recorded)
    case Publish =>
      if s.running && AllFetched(s) && s.cache == source then Asleep(s).(target := Some(s.cache), partExists := false) else s
    case RemovePart => if s.running then s else s.(partExists := false)
    case RemoveTarget => if s.running then s else s.(target := None)
  }

  function Run(source: Bytes, chunk: nat, s: System, actions: seq<Action>): (t: System)
    requires chunk > 0 && |s.cache| == |s.stable| == |source|
    ensures |t.cache| == |t.stable| == |source|
    decreases |actions|
  {
    if actions == [] then s else Run(source, chunk, Step(source, chunk, s, actions[0]), actions[1..])
  }

  /** Nobody deletes the part file, or the finished file, behind the program's back. */
  ghost predicate Undisturbed(actions: seq<Action>) {
    forall a | a in actions :: !a.RemovePart? && !a.RemoveTarget?
  }

  // ----- invariant -----

  ghost predicate Fetched(s: System, source: Bytes, chunk: nat, first: nat) {
    Right(s.cache, source, first, first + Length(source, chunk, first))
    && Right(s.stable, source, first, first + Length(source, chunk, first))
  }

  predicate Distinct(xs: seq<nat>) { forall i, j | 0 <= i < j < |xs| :: xs[i] != xs[j] }

  /** Every recorded range is on disk; once the part is gone there is nothing to resume but the published file. */
  ghost predicate DiskOk(source: Bytes, chunk: nat, s: System)
    requires chunk > 0
  {
    && |s.cache| == |s.stable| == |source|
    && (forall f | f in s.recorded :: f in Starts(|source|, chunk, 0))
    && (s.partExists ==> forall f | f in s.recorded :: Fetched(s, source, chunk, f))
    && (s.target.Some? ==> s.target == Some(source))
    && (!s.partExists ==> s.recorded == [] || s.target == Some(source))
  }

  predicate OneOf(a: bool, b: bool, c: bool, d: bool) {
    (a || b || c || d) && !(a && b) && !(a && c) && !(a && d) && !(b && c) && !(b && d) && !(c && d)
  }

  /** On the list of completed ranges, and not being fetched again or given up since. */
  predicate Settled(s: System, f: nat) { f in s.completed && f !in s.active && f !in s.failed }

  /** Settled, queued, running and given-up ranges are all the ranges, each once. */
  ghost predicate Tiled(source: Bytes, chunk: nat, s: System)
    requires chunk > 0
  {
    && Distinct(s.queue)
    && forall f :: TiledAt(source, chunk, s, f)
  }

  ghost predicate TiledAt(source: Bytes, chunk: nat, s: System, f: nat)
    requires chunk > 0
  {
    if f in Starts(|source|, chunk, 0)
    then OneOf(Settled(s, f), f in s.queue, f in s.active, f in s.failed)
         && (f in s.completed ==> f !in s.queue && (Settled(s, f) || f in s.again))
    else f !in s.completed && f !in s.queue && f !in s.active && f !in s.failed
  }

  /** What the state file says the list says; what the list says is on disk, and in the file unless its write failed. */
  ghost predicate ListOk(source: Bytes, chunk: nat, s: System) {
    && (forall f | f in s.recorded :: f in s.completed)
    && (forall f | f in s.completed :: Fetched(s, source, chunk, f) && (f in s.recorded || f in s.active || f in s.failed))
  }

  ghost predicate ProgressOk(source: Bytes, chunk: nat, s: System, f: nat)
    requires f in s.active
  {
    var p := s.active[f];
    && p.count <= Length(source, chunk, f) && p.failures < ATTEMPTS && Right(s.cache, source, f, f + p.count)
    && (p.synced ==> Fetched(s, source, chunk, f))
  }

  ghost predicate MemoryOk(source: Bytes, chunk: nat, s: System)
    requires chunk > 0
  {
    s.running ==>
      && s.partExists && ListOk(source, chunk, s) && Tiled(source, chunk, s)
      && forall f | f in s.active :: ProgressOk(source, chunk, s, f)
  }

  ghost predicate Inv(source: Bytes, chunk: nat, s: System)
    requires chunk > 0
  {
    DiskOk(source, chunk, s) && MemoryOk(source, chunk, s)
  }

  // ----- every step keeps it -----

  lemma StartKeeps(source: Bytes, chunk: nat, s: System)
    requires chunk > 0 && Inv(source, chunk, s)
    ensures Inv(source, chunk, Step(source, chunk, s, Start))
  {
    if !s.running && s.target != Some(source) {
      var t := Step(source, chunk, s, Start);
      RemainingInOrder(|source|, chunk, t.completed, 0);
      hide Starts, Remaining, Fetched;
      forall f: nat ensures TiledAt(source, chunk, t, f) { RemainingMembers(|source|, chunk, t.completed, 0, f); }
    }
  }

  lemma QueuedIsInside(source: Bytes, chunk: nat, s: System, f: nat)
    requires chunk > 0 && TiledAt(source, chunk, s, f) && f in s.queue
    ensures f < |source|
  {
    if f in Starts(|source|, chunk, 0) { StartsBelow(|source|, chunk, 0, f); }
  }

  lemma TakeTiles(source: Bytes, chunk: nat, s: System, f: nat)
    requires chunk > 0 && s.queue != [] && Distinct(s.queue)
    requires TiledAt(source, chunk, s, f) && TiledAt(source, chunk, s, s.queue[0])
    ensures TiledAt(source, chunk, s.(queue := s.queue[1..], active := s.active[s.queue[0] := Progress(0, 0, false)]), f)
  {
    hide Starts;
    assert f in s.queue <==> f == s.queue[0] || f in s.queue[1..];
    assert s.queue[0] !in s.queue[1..];
  }

  lemma TakeKeeps(source: Bytes, chunk: nat, s: System)
    requires chunk > 0 && Inv(source, chunk, s)
    ensures Inv(source, chunk, Step(source, chunk, s, Take))
  {
    if s.running && s.queue != [] && |s.active| < WORKERS {
      var t := Step(source, chunk, s, Take);
      hide Starts, Fetched, TiledAt;
      QueuedIsInside(source, chunk, s, s.queue[0]);
      forall f: nat ensures TiledAt(source, chunk, t, f) { TakeTiles(source, chunk, s, f); }
      forall f | f in t.active ensures ProgressOk(source, chunk, t, f) {
        if f != s.queue[0] { assert ProgressOk(source, chunk, s, f); }
      }
    }
  }

  lemma WrittenKeeps(cache: Bytes, source: Bytes, lo: nat, hi: nat, a: nat, b: nat)
    requires |cache| == |source| && Right(cache, source, a, b)
    ensures Right(Written(cache, source, lo, hi), source, a, b)
  {
  }

  lemma WrittenExtends(cache: Bytes, source: Bytes, a: nat, lo: nat, hi: nat)
    requires |cache| == |source| && a <= lo <= hi <= |source| && Right(cache, source, a, lo)
    ensures Right(Written(cache, source, lo, hi), source, a, hi)
  {
  }

  lemma FetchedStays(s: System, t: System, source: Bytes, chunk: nat, f: nat, lo: nat, hi: nat)
    requires |s.cache| == |source| && Fetched(s, source, chunk, f)
    requires t.cache == Written(s.cache, source, lo, hi) && t.stable == s.stable
    ensures Fetched(t, source, chunk, f)
  {
    WrittenKeeps(s.cache, source, lo, hi, f, f + Length(source, chunk, f));
  }

  lemma LengthFits(source: Bytes, chunk: nat, first: nat)
    requires first < |source|
    ensures first + Length(source, chunk, first) <= |source|
  {
  }

  /** A range that only makes progress stays where it is. */
  lemma SameTiles(source: Bytes, chunk: nat, s: System, t: System, f: nat)
    requires chunk > 0 && TiledAt(source, chunk, s, f)
    requires t.completed == s.completed && t.queue == s.queue && t.failed == s.failed && t.again == s.again
    requires f in t.active <==> f in s.active
    ensures TiledAt(source, chunk, t, f)
  {
    hide Starts;
  }

  lemma ReceiveKeeps(source: Bytes, chunk: nat, s: System, first: nat, n: nat)
    requires chunk > 0 && Inv(source, chunk, s)
    ensures Inv(source, chunk, Step(source, chunk, s, Receive(first, n)))
  {
    if s.running && first in s.active && !s.active[first].synced && s.active[first].count + n <= Length(source, chunk, first) {
      var t := Step(source, chunk, s, Receive(first, n));
      var at := first + s.active[first].count;
      assert TiledAt(source, chunk, s, first) && ProgressOk(source, chunk, s, first);
      LengthFits(source, chunk, first);
      WrittenExtends(s.cache, source, first, at, at + n);
      hide Starts, Fetched, Length, Right, Written, TiledAt;
      forall f: nat ensures TiledAt(source, chunk, t, f) { SameTiles(source, chunk, s, t, f); }
      forall f | f in t.completed ensures Fetched(t, source, chunk, f) { FetchedStays(s, t, source, chunk, f, at, at + n); }
      forall f | f in t.active ensures ProgressOk(source, chunk, t, f) {
        assert ProgressOk(source, chunk, s, f);
        WrittenKeeps(s.cache, source, at, at + n, f, f + s.active[f].count);
        if s.active[f].synced { FetchedStays(s, t, source, chunk, f, at, at + n); }
      }
    }
  }

  /** After a failure the range runs again or is given up; the files are as they were. */
  lemma FailureKeeps(source: Bytes, chunk: nat, s: System, first: nat, refreshed: bool)
    requires chunk > 0 && Inv(source, chunk, s) && s.running && first in s.active
    ensures Inv(source, chunk, AfterFailure(s, first, refreshed))
  {
    var t := AfterFailure(s, first, refreshed);
    assert TiledAt(source, chunk, s, first);
    assert Right(s.cache, source, first, first);
    hide Starts, Fetched, Length, Right;
    forall f ensures TiledAt(source, chunk, t, f) { assert TiledAt(source, chunk, s, f); }
    forall f | f in t.active ensures ProgressOk(source, chunk, t, f) {
      if f in s.active { assert ProgressOk(source, chunk, s, f); }
    }
  }

  lemma ErrorKeeps(source: Bytes, chunk: nat, s: System, first: nat, refreshed: bool)
    requires chunk > 0 && Inv(source, chunk, s)
    ensures Inv(source, chunk, Step(source, chunk, s, Error(first, refreshed)))
  {
    hide Inv;
    if s.running && first in s.active { FailureKeeps(source, chunk, s, first, refreshed); }
  }

  lemma ListedMembers(s: System, first: nat, written: bool, f: nat)
    ensures f in Listed(s, first, written).completed <==> f in s.completed || f == first
    ensures f in Listed(s, first, written).recorded <==> if written then f in s.completed || f == first else f in s.recorded
  {
  }

  lemma ListedTiles(source: Bytes, chunk: nat, s: System, first: nat, written: bool, f: nat)
    requires chunk > 0 && TiledAt(source, chunk, s, f) && TiledAt(source, chunk, s, first) && first in s.active
    ensures TiledAt(source, chunk, Listed(s, first, written), f)
  {
    hide Starts;
    ListedMembers(s, first, written, f);
  }

  lemma ListKeeps(source: Bytes, chunk: nat, s: System, first: nat, written: bool)
    requires chunk > 0 && Inv(source, chunk, s) && s.running && first in s.active && s.active[first].synced
    ensures Inv(source, chunk, Listed(s, first, written))
  {
    var t := Listed(s, first, written);
    assert TiledAt(source, chunk, s, first) && ProgressOk(source, chunk, s, first);
    hide Starts, Fetched, Length, Right, TiledAt;
    forall f: nat ensures TiledAt(source, chunk, t, f) { ListedTiles(source, chunk, s, first, written, f); }
    forall f | f in t.active ensures ProgressOk(source, chunk, t, f) { assert ProgressOk(source, chunk, s, f); }
    forall f | f in t.completed
      ensures Fetched(t, source, chunk, f) && (f in t.recorded || f in t.active || f in t.failed)
    {
      ListedMembers(s, first, written, f);
      SameBytes(s, t, source, chunk, f);
    }
    forall f | f in t.recorded
      ensures f in t.completed && Fetched(t, source, chunk, f) && f in Starts(|source|, chunk, 0)
    {
      ListedMembers(s, first, written, f);
      ListedStart(source, chunk, s, f);
      ListedStart(source, chunk, s, first);
    }
  }

  lemma SameBytes(s: System, t: System, source: Bytes, chunk: nat, f: nat)
    requires t.cache == s.cache && t.stable == s.stable
    ensures Fetched(t, source, chunk, f) == Fetched(s, source, chunk, f)
  {
  }

  lemma ListedStart(source: Bytes, chunk: nat, s: System, f: nat)
    requires chunk > 0 && TiledAt(source, chunk, s, f)
    ensures f in s.completed || f in s.active ==> f in Starts(|source|, chunk, 0)
  {
  }

  lemma RecordFailsKeeps(source: Bytes, chunk: nat, s: System, first: nat, written: bool, refreshed: bool)
    requires chunk > 0 && Inv(source, chunk, s)
    ensures Inv(source, chunk, Step(source, chunk, s, RecordFails(first, written, refreshed)))
  {
    hide MemoryOk, Starts, Fetched;
    if s.running && first in s.active && s.active[first].synced {
      ListKeeps(source, chunk, s, first, written);
      FailureKeeps(source, chunk, Listed(s, first, written), first, refreshed);
    }
  }

  lemma SyncKeeps(source: Bytes, chunk: nat, s: System, first: nat)
    requires chunk > 0 && Inv(source, chunk, s)
    ensures Inv(source, chunk, Step(source, chunk, s, Sync(first)))
  {
    if s.running && first in s.active && s.active[first].count == Length(source, chunk, first) {
      var t := Step(source, chunk, s, Sync(first));
      hide Starts, Length, Right, TiledAt;
      forall f: nat ensures TiledAt(source, chunk, t, f) { SameTiles(source, chunk, s, t, f); }
      forall f | f in t.active ensures ProgressOk(source, chunk, t, f) {
        assert ProgressOk(source, chunk, s, f);
      }
    }
  }

  lemma RecordTiles(source: Bytes, chunk: nat, s: System, first: nat, f: nat)
    requires chunk > 0 && first in s.active && TiledAt(source, chunk, s, f) && TiledAt(source, chunk, s, first)
    ensures var done := s.completed + [first];
            TiledAt(source, chunk, s.(completed := done, recorded := done, active := s.active - {first}), f)
  {
    hide Starts;
    assert f in s.completed + [first] <==> f in s.completed || f == first;
  }

  lemma RecordKeeps(source: Bytes, chunk: nat, s: System, first: nat)
    requires chunk > 0 && Inv(source, chunk, s)
    ensures Inv(source, chunk, Step(source, chunk, s, Record(first)))
  {
    if s.running && first in s.active && s.active[first].synced {
      var t := Step(source, chunk, s, Record(first));
      assert TiledAt(source, chunk, s, first) && ProgressOk(source, chunk, s, first);
      hide Starts, Fetched, Length, Right, TiledAt;
      forall f: nat ensures TiledAt(source, chunk, t, f) { RecordTiles(source, chunk, s, first, f); }
      forall f | f in t.active ensures ProgressOk(source, chunk, t, f) { assert ProgressOk(source, chunk, s, f); }
      forall f | f in t.recorded ensures Fetched(t, source, chunk, f) && f in Starts(|source|, chunk, 0) {
        SameBytes(s, t, source, chunk, f);
        ListedStart(source, chunk, s, f);
      }
    }
  }

  lemma CrashKeeps(source: Bytes, chunk: nat, s: System, survives: nat -> bool, keep: nat)
    requires chunk > 0 && Inv(source, chunk, s)
    ensures Inv(source, chunk, Step(source, chunk, s, Crash(survives, keep)))
  {
    var t := Step(source, chunk, s, Crash(survives, keep));
    hide Starts;
    assert forall f | f in t.recorded :: f in s.recorded;
    if s.partExists {
      forall f | f in t.recorded ensures Fetched(t, source, chunk, f) { assert Fetched(s, source, chunk, f); }
    }
  }

  lemma StepKeeps(source: Bytes, chunk: nat, s: System, a: Action)
    requires chunk > 0 && Inv(source, chunk, s) && !a.RemovePart? && !a.RemoveTarget?
    ensures Inv(source, chunk, Step(source, chunk, s, a))
  {
    if a.Start? { StartKeeps(source, chunk, s); }
    else if a.Take? { TakeKeeps(source, chunk, s); }
    else if a.Receive? { ReceiveKeeps(source, chunk, s, a.first, a.n); }
    else if a.Error? { ErrorKeeps(source, chunk, s, a.first, a.refreshed); }
    else if a.RecordFails? { RecordFailsKeeps(source, chunk, s, a.first, a.written, a.refreshed); }
    else if a.Sync? { SyncKeeps(source, chunk, s, a.first); }
    else if a.Record? { RecordKeeps(source, chunk, s, a.first); }
    else if a.Crash? { CrashKeeps(source, chunk, s, a.survives, a.keep); }
    else { hide Starts, Fetched; }
  }

  lemma {:induction false} RunKeeps(source: Bytes, chunk: nat, s: System, actions: seq<Action>)
    requires chunk > 0 && Inv(source, chunk, s) && Undisturbed(actions)
    ensures |s.cache| == |s.stable| == |source| && Inv(source, chunk, Run(source, chunk, s, actions))
    decreases |actions|
  {
    hide Step, MemoryOk;
    if actions != [] {
      assert actions[0] in actions;
      StepKeeps(source, chunk, s, actions[0]);
      RunKeeps(source, chunk, Step(source, chunk, s, actions[0]), actions[1..]);
    }
  }

  // ----- main results -----

  /** Through any crashes and any interleaving of the workers, every byte of a recorded range is on disk,
      in the cache and past any crash. A published file is the source because publishing checks the digest;
      that the check succeeds is CompletionIsComplete. */
  lemma RecordedRangesAreOnDisk(source: Bytes, chunk: nat, actions: seq<Action>, f: nat, i: nat)
    requires chunk > 0 && Undisturbed(actions)
    ensures var s := Run(source, chunk, Initial(|source|), actions);
            && (s.partExists && f in s.recorded && f <= i <= Last(|source|, chunk, f) ==>
                  i < |source| && s.cache[i] == source[i] && s.stable[i] == source[i])
            && (s.target.Some? ==> s.target.value == source)
  {
    hide Run, Starts;
    RunKeeps(source, chunk, Initial(|source|), actions);
    var s := Run(source, chunk, Initial(|source|), actions);
    if s.partExists && f in s.recorded { assert Fetched(s, source, chunk, f); }
  }

  /** While the program runs, the settled, queued, running and given-up ranges are all ranges, each once; with RangesTile,
      they tile the file. A range on the list of completed ones is queued never, and is running again or given up only after
      an attempt that failed once it was listed. The state file has every settled range and nothing that is not listed. */
  lemma EveryRangeIsAccountedFor(source: Bytes, chunk: nat, actions: seq<Action>, f: nat)
    requires chunk > 0 && Undisturbed(actions)
    ensures var s := Run(source, chunk, Initial(|source|), actions);
            s.running ==>
              && (if f in Starts(|source|, chunk, 0)
                  then OneOf(Settled(s, f), f in s.queue, f in s.active, f in s.failed)
                       && (f in s.completed ==> f !in s.queue && (Settled(s, f) || f in s.again))
                  else f !in s.completed && f !in s.queue && f !in s.active && f !in s.failed)
              && (Settled(s, f) ==> f in s.recorded) && (f in s.recorded ==> f in s.completed)
  {
    hide Run, Starts, Fetched;
    RunKeeps(source, chunk, Initial(|source|), actions);
    var s := Run(source, chunk, Initial(|source|), actions);
    assert s.running ==> TiledAt(source, chunk, s, f);
  }

  /** When every range was fetched the part file is the source, the state file records exactly the offsets
      verify_model_shards.py asks for, and publishing succeeds. */
  lemma CompletionIsComplete(source: Bytes, chunk: nat, actions: seq<Action>)
    requires chunk > 0 && Undisturbed(actions)
    requires var s := Run(source, chunk, Initial(|source|), actions); s.running && AllFetched(s)
    ensures var s := Run(source, chunk, Initial(|source|), actions);
            && s.cache == source == s.stable
            && (set f | f in s.recorded) == (set f | f in Starts(|source|, chunk, 0))
            && Step(source, chunk, s, Publish).target == Some(source)
  {
    hide Run, Starts;
    RunKeeps(source, chunk, Initial(|source|), actions);
    var s := Run(source, chunk, Initial(|source|), actions);
    forall f: nat ensures f in s.recorded <==> f in Starts(|source|, chunk, 0) { assert TiledAt(source, chunk, s, f); }
    forall i | 0 <= i < |source| ensures s.cache[i] == source[i] && s.stable[i] == source[i] {
      var f := RangeOf(|source|, chunk, 0, i);
      assert Fetched(s, source, chunk, f);
    }
  }

  // ----- when the part file is deleted but the state file is kept -----

  predicate SomeByteIsNotZero(source: Bytes, lo: nat, hi: nat) {
    exists i: nat | lo <= i < hi && i < |source| :: source[i] != 0
  }

  /** The program forgets the recorded ranges in memory but not in the state file: stopped before it records anything,
      it takes the fresh, empty part file for fetched at the next start, and never fetches those ranges again.
      For a source without an empty range that is right exactly when nothing was recorded. */
  lemma DeletedPartNeedsDeletedState(source: Bytes, chunk: nat, s: System)
    requires chunk > 0 && Inv(source, chunk, s) && !s.running && s.target.None?
    requires forall f | f in Starts(|source|, chunk, 0) :: SomeByteIsNotZero(source, f, f + Length(source, chunk, f))
    ensures var t := Run(source, chunk, s, [RemovePart, Start, Stop, Start]);
            && t.running && (forall f | f in s.recorded :: f in t.completed && f !in t.queue)
            && ((forall f | f in t.recorded :: Fetched(t, source, chunk, f)) <==> s.recorded == [])
  {
    var u := s.(partExists := true, cache := Zeros(|source|), stable := Zeros(|source|),
                completed := s.recorded, queue := Remaining(|source|, chunk, s.recorded, 0), active := map[], failed := {},
                again := {}, running := true);
    assert [RemovePart, Start, Stop, Start] == [RemovePart] + ([Start] + ([Stop] + ([Start] + [])));
    TwoStarts(source, chunk, s);
    hide Run;
    forall f | f in s.recorded ensures f !in u.queue && !Fetched(u, source, chunk, f) {
      RemainingMembers(|source|, chunk, s.recorded, 0, f);
      assert f in Starts(|source|, chunk, 0);
      var i: nat :| f <= i < f + Length(source, chunk, f) && i < |source| && source[i] != 0;
      assert u.cache[i] == 0;
    }
    if s.recorded != [] { assert s.recorded[0] in u.recorded; }
  }

  lemma TwoStarts(source: Bytes, chunk: nat, s: System)
    requires chunk > 0 && |s.cache| == |s.stable| == |source| && !s.running && s.target.None?
    ensures Run(source, chunk, s, [RemovePart] + ([Start] + ([Stop] + ([Start] + []))))
         == s.(partExists := true, cache := Zeros(|source|), stable := Zeros(|source|),
               completed := s.recorded, queue := Remaining(|source|, chunk, s.recorded, 0), active := map[], failed := {},
               again := {}, running := true)
  {
    hide Run, Remaining;
    var a := s.(partExists := false);
    var b := s.(partExists := true, cache := Zeros(|source|), stable := Zeros(|source|),
                completed := [], queue := Remaining(|source|, chunk, [], 0), active := map[], failed := {},
                again := {}, running := true);
    var c := Asleep(b);
    RunNext(source, chunk, s, RemovePart, [Start] + ([Stop] + ([Start] + [])));
    RunNext(source, chunk, a, Start, [Stop] + ([Start] + []));
    RunNext(source, chunk, b, Stop, [Start] + []);
    RunNext(source, chunk, c, Start, []);
    RunNone(source, chunk, Step(source, chunk, c, Start));
  }

  lemma RunNext(source: Bytes, chunk: nat, s: System, a: Action, rest: seq<Action>)
    requires chunk > 0 && |s.cache| == |s.stable| == |source|
    ensures Run(source, chunk, s, [a] + rest) == Run(source, chunk, Step(source, chunk, s, a), rest)
  {
    hide Step;
    assert ([a] + rest)[1..] == rest;
  }

  lemma RunNone(source: Bytes, chunk: nat, s: System)
    requires chunk > 0 && |s.cache| == |s.stable| == |source|
    ensures Run(source, chunk, s, []) == s
  {
  }
}
