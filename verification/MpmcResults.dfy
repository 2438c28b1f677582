/** The results about the queue, over every schedule of every number of threads. */
module MpmcResults {
  import opened Wrappers
  import opened MpmcQueue
  import opened MpmcInvariant
  import MpmcProof
  import opened MpmcSteps

  // ---------------------------------------------------------------- runs

  datatype Tick = Tick(thread: nat, choice: Choice)

  ghost predicate IsSchedule(n: nat, sched: seq<Tick>) {
    forall i | 0 <= i < |sched| :: sched[i].thread < n
  }

  /** The world after the steps of `sched`, in a queue with `n` epoch slots. */
  ghost function Run(n: nat, stub: Ptr, sched: seq<Tick>): (w: World)
    requires IsSchedule(n, sched)
    ensures Shaped(w) && |w.pcs| == n
    decreases |sched|
  {
    if sched == [] then Initial(n, stub)
    else
      var last := sched[|sched| - 1];
      Step(Run(n, stub, sched[..|sched| - 1]), last.thread, last.choice)
  }

  /** In none of the worlds of the run the 64-bit epoch counter stands on its last value. */
  ghost predicate EpochLasts(n: nat, stub: Ptr, sched: seq<Tick>)
    requires IsSchedule(n, sched)
  {
    forall i | 0 <= i <= |sched| :: NoWrap(Run(n, stub, sched[..i]))
  }

  lemma EpochStep(w: World, t: nat, c: Choice)
    requires Shaped(w) && t < |w.pcs|
    ensures Step(w, t, c).epoch <= w.epoch + 1
  {
    hide Links, SwingsTail, SwingsHead, Deletes, Without, AfterScan;
  }

  lemma {:induction false} EpochIsBounded(n: nat, stub: Ptr, sched: seq<Tick>)
    requires IsSchedule(n, sched)
    ensures Run(n, stub, sched).epoch <= |sched| + 1
    decreases |sched|
  {
    hide Step;
    if sched != [] {
      var last := sched[|sched| - 1];
      EpochIsBounded(n, stub, sched[..|sched| - 1]);
      EpochStep(Run(n, stub, sched[..|sched| - 1]), last.thread, last.choice);
    }
  }

  /** The counter lasts for every run of fewer than 2^64 - 2 steps. */
  lemma {:induction false} ShortRunsLast(n: nat, stub: Ptr, sched: seq<Tick>)
    requires IsSchedule(n, sched) && |sched| < WORD - 2
    ensures EpochLasts(n, stub, sched)
  {
    forall i | 0 <= i <= |sched| ensures NoWrap(Run(n, stub, sched[..i])) {
      EpochIsBounded(n, stub, sched[..i]);
    }
  }

  // ---------------------------------------------------------------- the sequential specification

  /** Where one operation stands: between its call and its return it takes effect exactly once. */
  datatype Status = Outside | PushPending(v: Value) | PopPending(sawEmpty: bool) | Done(res: Response)

  datatype Spec = Spec(queue: seq<Value>, ops: seq<Status>)

  /** One operation moves on, with the queue before and after. A pop may return nothing only if the
      queue was empty at some moment since its call. */
  ghost predicate Moves(before: Status, after: Status, q: seq<Value>, q': seq<Value>) {
    || (before == after && q' == q)
    || (before.Outside? && (after.PushPending? || after == PopPending(false)) && q' == q)
    || (before.PushPending? && after == Done(Pushed) && q' == q + [before.v])
    || (before.PopPending? && |q| > 0 && after == Done(Popped(Some(q[0]))) && q' == q[1..])
    || (before.PopPending? && q == [] && after == PopPending(true) && q' == q)
    || (before == PopPending(true) && after == Done(Popped(None)) && q' == q)
    || (before.Done? && after.Outside? && q' == q)
  }

  /** Thread `t` of the atomic queue makes a step, or nothing happens. */
  ghost predicate SpecStep(a: Spec, b: Spec, t: nat) {
    && t < |a.ops| == |b.ops|
    && b.ops == a.ops[t := b.ops[t]]
    && Moves(a.ops[t], b.ops[t], a.queue, b.queue)
  }

  /** What the program counter of a thread says about its operation, whatever the history. */
  predicate Agrees(pc: Pc, s: Status) {
    match pc
    case Free => s.Outside?
    case ClaimLoad => s.Outside?
    case ClaimStore(_) => s.Outside?
    case Idle => s.Outside?
    case EnterLoad(op) => if op.Push? then s == PushPending(op.value) else s.PopPending?
    case EnterStore(op, _) => if op.Push? then s == PushPending(op.value) else s.PopPending?
    case EnterPublish(op) => if op.Push? then s == PushPending(op.value) else s.PopPending?
    case Leave(res) => s == Done(res)
    case _ => !s.Outside?
  }

  function Pending(op: Op, m: Marks): Status {
    if op.Push? then PushPending(op.value) else PopPending(m.sawEmpty)
  }

  function StatusOf(pc: Pc, m: Marks, vals: seq<Value>): Status {
    match pc
    case EnterLoad(op) => Pending(op, m)
    case EnterStore(op, _) => Pending(op, m)
    case EnterPublish(op) => Pending(op, m)
    case PushAlloc(v) => PushPending(v)
    case PushTail(v, _) => PushPending(v)
    case PushNext(v, _, _) => PushPending(v)
    case PushCheck(v, _, _, _) => PushPending(v)
    case PushLink(v, _, _) => PushPending(v)
    case PushHelp(v, _, _, _) => PushPending(v)
    case PushSwing(_, _) => Done(Pushed)
    case PushCount => Done(Pushed)
    case PopHead => PopPending(m.sawEmpty)
    case PopTail(_) => PopPending(m.sawEmpty)
    case PopNext(_, _) => PopPending(m.sawEmpty)
    case PopCheck(_, _, _) => PopPending(m.sawEmpty)
    case PopHelp(_, _) => PopPending(m.sawEmpty)
    case PopSwing(_, _) => PopPending(m.sawEmpty)
    case PopTake(_, _) => Done(Popped(if m.head < |vals| then Some(vals[m.head]) else None))
    case PopCount(_, out) => Done(Popped(out))
    case PopRetire(_, out) => Done(Popped(out))
    case PopBump(out) => Done(Popped(out))
    case ScanStart(out) => Done(Popped(out))
    case ScanOccupied(out, _, _) => Done(Popped(out))
    case ScanActive(out, _, _) => Done(Popped(out))
    case ScanEpoch(out, _, _) => Done(Popped(out))
    case Sweep(out, _, _) => Done(Popped(out))
    case Leave(res) => Done(res)
    case _ => Outside
  }

  ghost function Abs(w: World, h: History): Spec
    requires Base(w, h) && h.headPos <= |h.vals|
  {
    Spec(Queue(h), seq(|w.pcs|, t requires 0 <= t < |w.pcs| => StatusOf(w.pcs[t], h.marks[t], h.vals)))
  }

  // ---------------------------------------------------------------- refinement, step by step

  lemma StatusFrame(w: World, h: History, t: nat, c: Choice, u: nat)
    requires Inv(w, h) && t < |w.pcs| && u < |w.pcs| && u != t
    ensures var w', h' := Step(w, t, c), Record(w, h, t, c);
      |w'.pcs| == |w.pcs| && |h'.marks| == |w.pcs| &&
      StatusOf(w'.pcs[u], h'.marks[u], h'.vals) == StatusOf(w.pcs[u], h.marks[u], h.vals)
  {
    hide Linked, Buried, Counted, Private, ScanBounds, Shields, Numbered, Step, Record, Knows;
    assert ThreadInv(w, h, u);
    var h' := Record(w, h, t, c);
    StepLeaves(w, h, t, c, u);
    TakingIsKnown(w, h, u);
    assert |h.vals| <= |h'.vals| && forall p | 0 <= p < |h.vals| :: h'.vals[p] == h.vals[p];
  }

  /** A step of `t` leaves the program counter and the marks of `u`, and the values linked before. */
  lemma StepLeaves(w: World, h: History, t: nat, c: Choice, u: nat)
    requires Base(w, h) && t < |w.pcs| && u < |w.pcs| && u != t
    ensures var w', h' := Step(w, t, c), Record(w, h, t, c);
      && |w'.pcs| == |w.pcs| && |h'.marks| == |w.pcs|
      && w'.pcs[u] == w.pcs[u] && h'.marks[u] == h.marks[u]
      && |h.vals| <= |h'.vals| && h'.vals[..|h.vals|] == h.vals
  {
    hide Links, SwingsTail, SwingsHead, Deletes, Without, AfterScan;
    OnlyMoverSteps(w, t, c, u);
    hide Step;
  }

  lemma OnlyMoverSteps(w: World, t: nat, c: Choice, u: nat)
    requires Shaped(w) && t < |w.pcs| && u < |w.pcs| && u != t
    ensures Step(w, t, c).pcs[u] == w.pcs[u]
  {
    hide StepEnter, StepPush, StepPop, StepReclaim;
    EnterMovesOne(w, t, c, u);
    PushMovesOne(w, t, c, u);
    PopMovesOne(w, t, c, u);
    ReclaimMovesOne(w, t, c, u);
  }

  lemma EnterMovesOne(w: World, t: nat, c: Choice, u: nat)
    requires Shaped(w) && t < |w.pcs| && u < |w.pcs| && u != t
    ensures StepEnter(w, t, c).pcs[u] == w.pcs[u]
  {
  }

  lemma PushMovesOne(w: World, t: nat, c: Choice, u: nat)
    requires Shaped(w) && t < |w.pcs| && u < |w.pcs| && u != t
    ensures StepPush(w, t, c).pcs[u] == w.pcs[u]
  {
    hide Links, SwingsTail;
  }

  lemma PopMovesOne(w: World, t: nat, c: Choice, u: nat)
    requires Shaped(w) && t < |w.pcs| && u < |w.pcs| && u != t
    ensures StepPop(w, t, c).pcs[u] == w.pcs[u]
  {
    hide SwingsHead, SwingsTail;
  }

  lemma ReclaimMovesOne(w: World, t: nat, c: Choice, u: nat)
    requires Shaped(w) && t < |w.pcs| && u < |w.pcs| && u != t
    ensures StepReclaim(w, t, c).pcs[u] == w.pcs[u]
  {
    hide Deletes, Without, AfterScan;
  }

  lemma TakingIsKnown(w: World, h: History, u: nat)
    requires Base(w, h) && u < |w.pcs| && Knows(w, h, u)
    ensures w.pcs[u].PopTake? ==> h.marks[u].head < |h.vals|
  {
  }

  /** Each step of the program is a step of the atomic queue by the same thread, or invisible. A push
      takes effect at its compare-and-swap on `next`, a pop at its compare-and-swap on `head_`. */
  lemma {:induction false} Refines(w: World, h: History, t: nat, c: Choice)
    requires Inv(w, h) && t < |w.pcs| && NoWrap(Step(w, t, c))
    ensures Inv(Step(w, t, c), Record(w, h, t, c))
    ensures SpecStep(Abs(w, h), Abs(Step(w, t, c), Record(w, h, t, c)), t)
  {
    hide Linked, Buried, Counted, Private, ScanBounds, Shields, Moves;
    StepKeeps(w, h, t, c);
    var w', h' := Step(w, t, c), Record(w, h, t, c);
    var a, b := Abs(w, h), Abs(w', h');
    assert b.ops == a.ops[t := b.ops[t]] by {
      forall u | 0 <= u < |w.pcs| && u != t ensures b.ops[u] == a.ops[u] {
        StatusFrame(w, h, t, c, u);
      }
    }
    RefinesMover(w, h, t, c);
  }

  lemma RefinesMover(w: World, h: History, t: nat, c: Choice)
    requires Inv(w, h) && t < |w.pcs|
    requires Fits(Step(w, t, c), Record(w, h, t, c)) && Record(w, h, t, c).headPos <= |Record(w, h, t, c).vals|
    ensures var w', h' := Step(w, t, c), Record(w, h, t, c);
      Moves(StatusOf(w.pcs[t], h.marks[t], h.vals), StatusOf(w'.pcs[t], h'.marks[t], h'.vals), Queue(h), Queue(h'))
  {
    hide Linked, Buried, Counted, Private, ScanBounds, Shields, Moves, StatusOf;
    assert ThreadInv(w, h, t);
    var pc := w.pcs[t];
    if Links(w, pc, c) || SwingsHead(w, pc, c) {
      if SwingsHead(w, pc, c) {
        HeadTaken(w, h, t);
      }
      RefinesCommit(w, h, t, c);
    } else {
      if pc.PopNext? {
        NullNextMeansEmpty(w, h, t);
      }
      RefinesRest(w, h, t, c);
    }
  }

  lemma RefinesCommit(w: World, h: History, t: nat, c: Choice)
    requires Base(w, h) && h.headPos <= |h.vals| && t < |w.pcs|
    requires Links(w, w.pcs[t], c) || (SwingsHead(w, w.pcs[t], c) && h.marks[t].head == h.headPos < |h.vals|
                                       && h.vals[h.headPos + 1..] == Queue(h)[1..])
    ensures var w', h' := Step(w, t, c), Record(w, h, t, c);
      |h'.marks| == |w'.pcs| == |w.pcs| && h'.headPos <= |h'.vals| &&
      Moves(StatusOf(w.pcs[t], h.marks[t], h.vals), StatusOf(w'.pcs[t], h'.marks[t], h'.vals), Queue(h), Queue(h'))
  {
    if Links(w, w.pcs[t], c) {
      assert (h.vals + [w.pcs[t].v])[h.headPos..] == h.vals[h.headPos..] + [w.pcs[t].v];
    }
  }

  predicate InPush(pc: Pc) {
    || pc.PushAlloc? || pc.PushTail? || pc.PushNext? || pc.PushCheck?
    || pc.PushLink? || pc.PushHelp? || pc.PushSwing? || pc.PushCount?
  }

  predicate InPop(pc: Pc) {
    || pc.PopHead? || pc.PopTail? || pc.PopNext? || pc.PopCheck?
    || pc.PopHelp? || pc.PopSwing? || pc.PopTake? || pc.PopCount?
  }

  lemma RefinesRest(w: World, h: History, t: nat, c: Choice)
    requires Base(w, h) && h.headPos <= |h.vals| && t < |w.pcs| && Knows(w, h, t)
    requires !Links(w, w.pcs[t], c) && !SwingsHead(w, w.pcs[t], c)
    requires w.pcs[t].PopNext? ==>
               w.pcs[t].head in w.heap && (w.heap[w.pcs[t].head].next.None? ==> h.headPos == |h.vals|)
    ensures var w', h' := Step(w, t, c), Record(w, h, t, c);
      |h'.marks| == |w'.pcs| == |w.pcs| && h'.headPos <= |h'.vals| &&
      Moves(StatusOf(w.pcs[t], h.marks[t], h.vals), StatusOf(w'.pcs[t], h'.marks[t], h'.vals), Queue(h), Queue(h'))
  {
    hide Moves, StatusOf, Knows;
    if InPush(w.pcs[t]) {
      RefinesPush(w, h, t, c);
    } else if InPop(w.pcs[t]) {
      RefinesPop(w, h, t, c);
    } else if !Inside(w.pcs[t]) || w.pcs[t].Leave? {
      RefinesEnter(w, h, t, c);
    } else {
      RefinesReclaim(w, h, t, c);
    }
  }

  lemma RefinesEnter(w: World, h: History, t: nat, c: Choice)
    requires Base(w, h) && h.headPos <= |h.vals| && t < |w.pcs| && (!Inside(w.pcs[t]) || w.pcs[t].Leave?)
    ensures var w', h' := Step(w, t, c), Record(w, h, t, c);
      |h'.marks| == |w'.pcs| == |w.pcs| && h'.headPos <= |h'.vals| &&
      Moves(StatusOf(w.pcs[t], h.marks[t], h.vals), StatusOf(w'.pcs[t], h'.marks[t], h'.vals), Queue(h), Queue(h'))
  {
    EnterIsQuiet(w, h, t, c);
    hide Step, Record, StatusOf;
  }

  /** Entering and leaving change no queue: an operation is called, goes on as it was, or returns. */
  lemma EnterIsQuiet(w: World, h: History, t: nat, c: Choice)
    requires Base(w, h) && t < |w.pcs| && (!Inside(w.pcs[t]) || w.pcs[t].Leave?)
    ensures var w', h' := Step(w, t, c), Record(w, h, t, c);
      && |h'.marks| == |h.marks| && h'.vals == h.vals && h'.headPos == h.headPos
      && var (a, b) := (StatusOf(w.pcs[t], h.marks[t], h.vals), StatusOf(w'.pcs[t], h'.marks[t], h.vals));
         b == a || (a.Outside? && (b.PushPending? || b == PopPending(false))) || (a.Done? && b.Outside?)
  {
    assert Step(w, t, c) == StepEnter(w, t, c);
    hide Step;
  }

  lemma RefinesPush(w: World, h: History, t: nat, c: Choice)
    requires Base(w, h) && h.headPos <= |h.vals| && t < |w.pcs| && InPush(w.pcs[t])
    requires !Links(w, w.pcs[t], c)
    ensures var w', h' := Step(w, t, c), Record(w, h, t, c);
      |h'.marks| == |w'.pcs| == |w.pcs| && h'.headPos <= |h'.vals| &&
      Moves(StatusOf(w.pcs[t], h.marks[t], h.vals), StatusOf(w'.pcs[t], h'.marks[t], h'.vals), Queue(h), Queue(h'))
  {
    PushIsQuiet(w, h, t, c);
    hide Step, Record, StatusOf;
  }

  /** Until it links its node a push changes nothing. */
  lemma PushIsQuiet(w: World, h: History, t: nat, c: Choice)
    requires Base(w, h) && t < |w.pcs| && InPush(w.pcs[t]) && !Links(w, w.pcs[t], c)
    ensures var w', h' := Step(w, t, c), Record(w, h, t, c);
      && |h'.marks| == |h.marks| && h'.vals == h.vals && h'.headPos == h.headPos
      && StatusOf(w'.pcs[t], h'.marks[t], h.vals) == StatusOf(w.pcs[t], h.marks[t], h.vals)
  {
    assert Step(w, t, c) == StepPush(w, t, c);
    hide Step, SwingsTail;
  }

  lemma RefinesPop(w: World, h: History, t: nat, c: Choice)
    requires Base(w, h) && h.headPos <= |h.vals| && t < |w.pcs| && Knows(w, h, t) && InPop(w.pcs[t])
    requires !SwingsHead(w, w.pcs[t], c)
    requires w.pcs[t].PopNext? ==>
               w.pcs[t].head in w.heap && (w.heap[w.pcs[t].head].next.None? ==> h.headPos == |h.vals|)
    ensures var w', h' := Step(w, t, c), Record(w, h, t, c);
      |h'.marks| == |w'.pcs| == |w.pcs| && h'.headPos <= |h'.vals| &&
      Moves(StatusOf(w.pcs[t], h.marks[t], h.vals), StatusOf(w'.pcs[t], h'.marks[t], h'.vals), Queue(h), Queue(h'))
  {
    hide Knows, Step, Record, StatusOf;
    PopKnows(w, h, t);
    if w.pcs[t].PopHead? || w.pcs[t].PopTail? || w.pcs[t].PopNext? {
      PopLoadsAreQuiet(w, h, t, c);
    } else {
      PopRestIsQuiet(w, h, t, c);
    }
  }

  /** A load of a pop changes nothing, unless it sees that there is no next node. */
  lemma PopLoadsAreQuiet(w: World, h: History, t: nat, c: Choice)
    requires Base(w, h) && t < |w.pcs| && (w.pcs[t].PopHead? || w.pcs[t].PopTail? || w.pcs[t].PopNext?)
    ensures var w', h' := Step(w, t, c), Record(w, h, t, c);
      && |h'.marks| == |h.marks| && h'.vals == h.vals && h'.headPos == h.headPos
      && var (a, b) := (StatusOf(w.pcs[t], h.marks[t], h.vals), StatusOf(w'.pcs[t], h'.marks[t], h.vals));
         b == a || (a.PopPending? && b == PopPending(true) && w.pcs[t].PopNext? && w.pcs[t].head in w.heap
                    && w.heap[w.pcs[t].head].next.None?)
  {
    assert Step(w, t, c) == StepPop(w, t, c);
    hide Step;
  }

  /** Nor does the rest of a pop but for its swap, and it takes the value it is to return. */
  lemma PopRestIsQuiet(w: World, h: History, t: nat, c: Choice)
    requires Base(w, h) && t < |w.pcs| && InPop(w.pcs[t]) && !SwingsHead(w, w.pcs[t], c)
    requires !w.pcs[t].PopHead? && !w.pcs[t].PopTail? && !w.pcs[t].PopNext?
    requires w.pcs[t].PopCheck? && w.pcs[t].next.None? ==> h.marks[t].sawEmpty
    requires w.pcs[t].PopTake? ==>
      && w.pcs[t].succ in w.heap && h.marks[t].head < |h.vals|
      && w.heap[w.pcs[t].succ].value == Some(h.vals[h.marks[t].head])
    ensures var w', h' := Step(w, t, c), Record(w, h, t, c);
      && h'.marks == h.marks && h'.vals == h.vals && h'.headPos == h.headPos
      && var (a, b) := (StatusOf(w.pcs[t], h.marks[t], h.vals), StatusOf(w'.pcs[t], h.marks[t], h.vals));
         b == a || (a == PopPending(true) && b == Done(Popped(None)))
  {
    assert Step(w, t, c) == StepPop(w, t, c);
    hide Step, SwingsTail;
  }

  lemma PopKnows(w: World, h: History, t: nat)
    requires Base(w, h) && t < |w.pcs| && Knows(w, h, t)
    ensures w.pcs[t].PopCheck? && w.pcs[t].next.None? ==> h.marks[t].sawEmpty
    ensures w.pcs[t].PopTake? ==>
      && w.pcs[t].succ in w.heap && h.marks[t].head < |h.vals|
      && w.heap[w.pcs[t].succ].value == Some(h.vals[h.marks[t].head])
  {
  }

  lemma RefinesReclaim(w: World, h: History, t: nat, c: Choice)
    requires Base(w, h) && h.headPos <= |h.vals| && t < |w.pcs|
    requires Inside(w.pcs[t]) && !InPush(w.pcs[t]) && !InPop(w.pcs[t]) && !w.pcs[t].Leave?
    ensures var w', h' := Step(w, t, c), Record(w, h, t, c);
      |h'.marks| == |w'.pcs| == |w.pcs| && h'.headPos <= |h'.vals| &&
      Moves(StatusOf(w.pcs[t], h.marks[t], h.vals), StatusOf(w'.pcs[t], h'.marks[t], h'.vals), Queue(h), Queue(h'))
  {
    ReclaimIsQuiet(w, h, t, c);
    hide Step, Record;
  }

  /** Reclaiming changes neither the queue nor what the operation is about to return. */
  lemma ReclaimIsQuiet(w: World, h: History, t: nat, c: Choice)
    requires Base(w, h) && t < |w.pcs|
    requires Inside(w.pcs[t]) && !InPush(w.pcs[t]) && !InPop(w.pcs[t]) && !w.pcs[t].Leave?
    ensures var w', h' := Step(w, t, c), Record(w, h, t, c);
      && |w'.pcs| == |w.pcs| && h'.marks == h.marks && h'.vals == h.vals && h'.headPos == h.headPos
      && StatusOf(w'.pcs[t], h.marks[t], h.vals) == StatusOf(w.pcs[t], h.marks[t], h.vals)
  {
    hide Deletes, Without, AfterScan;
    assert Step(w, t, c) == StepReclaim(w, t, c);
    hide Step;
    forall out: Option<Value>, min: nat, k: nat
      ensures StatusOf(AfterScan(w, out, min, k), h.marks[t], h.vals) == Done(Popped(out))
    {
      AfterScanReturns(w, h, t, out, min, k);
    }
  }

  lemma AfterScanReturns(w: World, h: History, t: nat, out: Option<Value>, min: nat, k: nat)
    requires t < |h.marks|
    ensures StatusOf(AfterScan(w, out, min, k), h.marks[t], h.vals) == Done(Popped(out))
  {
  }

  lemma HeadTaken(w: World, h: History, t: nat)
    requires Inv(w, h) && t < |w.pcs| && w.pcs[t].PopSwing? && w.head == w.pcs[t].head
    ensures h.marks[t].head == h.headPos < |h.vals|
    ensures h.vals[h.headPos + 1..] == Queue(h)[1..]
  {
    hide Linked, Buried, Counted, Private, ScanBounds, Shields;
    MpmcProof.HeadStep(w, h, t);
  }

  // ---------------------------------------------------------------- what the heap holds

  lemma {:induction false} ChainFrom(w: World, h: History, p: nat)
    requires Base(w, h) && Numbered(w, h) && Linked(w, h)
    requires h.headPos <= p < |h.ids|
    ensures Live(h, p) && h.ids[p] in w.heap
    ensures Chain(w.heap, w.heap[h.ids[p]].next, h.vals[p..])
    decreases |h.ids| - p
  {
    LinkedAt(w, h, p);
    if p + 1 < |h.ids| {
      hide Linked, Numbered, Live;
      LinkedAt(w, h, p + 1);
      ChainFrom(w, h, p + 1);
      assert h.vals[p..][1..] == h.vals[p + 1..];
    }
  }

  lemma LinkedAt(w: World, h: History, p: nat)
    requires Base(w, h) && Numbered(w, h) && Linked(w, h) && h.headPos <= p < |h.ids|
    ensures Live(h, p) && h.ids[p] in w.heap && w.heap[h.ids[p]].next == NextId(h, p)
    ensures p > h.headPos ==> w.heap[h.ids[p]].value == Some(h.vals[p - 1])
  {
    assert Live(h, p);
  }

  /** The values linked after `head_` are the abstract queue. */
  lemma {:induction false} HeapHoldsQueue(w: World, h: History)
    requires Inv(w, h)
    ensures Holds(w, Queue(h))
  {
    ChainFrom(w, h, h.headPos);
  }

  lemma {:induction false} ChainUnique(heap: map<Ptr, Node>, p: Option<Ptr>, vs: seq<Value>, us: seq<Value>)
    requires Chain(heap, p, vs) && Chain(heap, p, us)
    ensures vs == us
    decreases |vs|
  {
    if |vs| > 0 && |us| > 0 {
      ChainUnique(heap, heap[p.value].next, vs[1..], us[1..]);
      assert vs == [vs[0]] + vs[1..] && us == [us[0]] + us[1..];
    }
  }

  /** A world holds at most one sequence. */
  lemma {:induction false} HoldsUnique(w: World, vs: seq<Value>, us: seq<Value>)
    requires Holds(w, vs) && Holds(w, us)
    ensures vs == us
  {
    ChainUnique(w.heap, w.heap[w.head].next, vs, us);
  }

  // ---------------------------------------------------------------- whole runs

  lemma {:induction false} NoOnes(n: nat, p: Pc -> bool)
    requires !p(Free)
    ensures Ones(seq(n, _ => Free), p) == 0
  {
    if n > 0 {
      assert seq(n, _ => Free)[1..] == seq(n - 1, _ => Free);
      NoOnes(n - 1, p);
    }
  }

  lemma InitialInv(n: nat, stub: Ptr)
    ensures Inv(Initial(n, stub), InitialHistory(n, stub))
  {
    NoOnes(n, UNCOUNTED_PUSH);
    NoOnes(n, UNCOUNTED_POP);
    var w, h := Initial(n, stub), InitialHistory(n, stub);
    assert forall p: nat | Live(h, p) :: p == 0;
    forall t | 0 <= t < n ensures ThreadInv(w, h, t) {
      assert w.pcs[t] == Free;
    }
  }

  /** A run of the atomic queue by the same threads, whose queue the heap holds after every step, and
      whose calls and returns are those of the program. */
  ghost predicate Explains(n: nat, stub: Ptr, sched: seq<Tick>, abs: seq<Spec>)
    requires IsSchedule(n, sched)
  {
    && |abs| == |sched| + 1
    && abs[0] == Spec([], seq(n, _ => Outside))
    && (forall i | 0 <= i < |sched| :: SpecStep(abs[i], abs[i + 1], sched[i].thread))
    && (forall i | 0 <= i <= |sched| :: Matches(Run(n, stub, sched[..i]), abs[i]))
  }

  ghost predicate Matches(w: World, a: Spec) {
    && Holds(w, a.queue)
    && |a.ops| == |w.pcs|
    && forall t | 0 <= t < |w.pcs| :: Agrees(w.pcs[t], a.ops[t])
  }

  lemma AbsMatches(w: World, h: History)
    requires Inv(w, h)
    ensures Matches(w, Abs(w, h))
  {
    HeapHoldsQueue(w, h);
    hide Inv;
    forall t | 0 <= t < |w.pcs| ensures Agrees(w.pcs[t], StatusOf(w.pcs[t], h.marks[t], h.vals)) {}
  }

  lemma {:induction false} HistoryOf(n: nat, stub: Ptr, sched: seq<Tick>) returns (h: History, abs: seq<Spec>)
    requires IsSchedule(n, sched) && EpochLasts(n, stub, sched)
    ensures Inv(Run(n, stub, sched), h)
    ensures Explains(n, stub, sched, abs) && abs[|sched|] == Abs(Run(n, stub, sched), h)
    decreases |sched|
  {
    hide Linked, Buried, Counted, AllThreads, Step, Record, Abs, Matches, SpecStep, EpochLasts, NoWrap;
    if sched == [] {
      h := InitialHistory(n, stub);
      abs := ExplainsNothing(n, stub);
    } else {
      var k := |sched| - 1;
      var prev, last := sched[..k], sched[k];
      EpochLasted(n, stub, sched);
      var h0, abs0 := HistoryOf(n, stub, prev);
      var w0 := Run(n, stub, prev);
      Refines(w0, h0, last.thread, last.choice);
      h := Record(w0, h0, last.thread, last.choice);
      abs := abs0 + [Abs(Run(n, stub, sched), h)];
      AbsMatches(Run(n, stub, sched), h);
      ExplainsGrows(n, stub, sched, abs0, abs[|sched|]);
    }
  }

  lemma {:induction false} EpochLasted(n: nat, stub: Ptr, sched: seq<Tick>)
    requires IsSchedule(n, sched) && EpochLasts(n, stub, sched) && sched != []
    ensures EpochLasts(n, stub, sched[..|sched| - 1]) && NoWrap(Run(n, stub, sched))
  {
    hide NoWrap, Run;
    var prev := sched[..|sched| - 1];
    assert sched[..|sched|] == sched;
    forall i | 0 <= i <= |prev| ensures NoWrap(Run(n, stub, prev[..i])) {
      assert prev[..i] == sched[..i];
    }
  }

  lemma ExplainsNothing(n: nat, stub: Ptr) returns (abs: seq<Spec>)
    ensures Inv(Initial(n, stub), InitialHistory(n, stub))
    ensures Explains(n, stub, [], abs) && abs[0] == Abs(Initial(n, stub), InitialHistory(n, stub))
  {
    hide Matches;
    InitialInv(n, stub);
    abs := [Abs(Initial(n, stub), InitialHistory(n, stub))];
    AbsMatches(Initial(n, stub), InitialHistory(n, stub));
  }

  lemma {:induction false} ExplainsGrows(n: nat, stub: Ptr, sched: seq<Tick>, abs0: seq<Spec>, a: Spec)
    requires IsSchedule(n, sched) && |sched| > 0
    requires Explains(n, stub, sched[..|sched| - 1], abs0)
    requires SpecStep(abs0[|sched| - 1], a, sched[|sched| - 1].thread)
    requires Matches(Run(n, stub, sched), a)
    ensures Explains(n, stub, sched, abs0 + [a])
  {
    hide SpecStep, Matches, Run;
    var abs, k := abs0 + [a], |sched| - 1;
    forall i | 0 <= i <= |sched| ensures Matches(Run(n, stub, sched[..i]), abs[i]) {
      if i == |sched| {
        assert sched[..i] == sched;
      } else {
        assert sched[..k][..i] == sched[..i];
        assert Matches(Run(n, stub, sched[..k][..i]), abs0[i]);
      }
    }
    forall i | 0 <= i < |sched| ensures SpecStep(abs[i], abs[i + 1], sched[i].thread) {
      if i < k {
        assert sched[..k][i] == sched[i];
        assert SpecStep(abs0[i], abs0[i + 1], sched[..k][i].thread);
      }
    }
  }

  /** Linearizability: every run of any number of threads is explained by a run of the atomic queue, and
      never touches memory that is not allocated. */
  lemma {:induction false} Linearizable(n: nat, stub: Ptr, sched: seq<Tick>)
    requires IsSchedule(n, sched) && EpochLasts(n, stub, sched)
    ensures !Run(n, stub, sched).fault
    ensures exists abs :: Explains(n, stub, sched, abs)
  {
    var h, abs := HistoryOf(n, stub, sched);
  }

  // ---------------------------------------------------------------- what linearizability gives

  /** Thread `ts[i]` makes the step from `abs[i]` to `abs[i + 1]`. */
  ghost predicate SpecRun(abs: seq<Spec>, ts: seq<nat>) {
    && |abs| == |ts| + 1
    && abs[0].queue == []
    && forall i | 0 <= i < |ts| :: SpecStep(abs[i], abs[i + 1], ts[i])
  }

  /** The values whose pushes took effect, in that order. */
  ghost function Enqueued(abs: seq<Spec>, ts: seq<nat>): seq<Value>
    requires |abs| == |ts| + 1
  {
    if ts == [] then []
    else
      var k := |ts| - 1;
      var rest := Enqueued(abs[..k + 1], ts[..k]);
      if ts[k] < |abs[k].ops| && ts[k] < |abs[k + 1].ops|
         && abs[k].ops[ts[k]].PushPending? && abs[k + 1].ops[ts[k]] == Done(Pushed)
      then rest + [abs[k].ops[ts[k]].v] else rest
  }

  /** The values popped, in the order in which the pops took effect. */
  ghost function Dequeued(abs: seq<Spec>, ts: seq<nat>): seq<Value>
    requires |abs| == |ts| + 1
  {
    if ts == [] then []
    else
      var k := |ts| - 1;
      var rest := Dequeued(abs[..k + 1], ts[..k]);
      if ts[k] < |abs[k].ops| && ts[k] < |abs[k + 1].ops| && abs[k].ops[ts[k]].PopPending?
         && abs[k + 1].ops[ts[k]].Done? && abs[k + 1].ops[ts[k]].res.Popped? && abs[k + 1].ops[ts[k]].res.value.Some?
      then rest + [abs[k + 1].ops[ts[k]].res.value.value] else rest
  }

  /** First in, first out, each value once: what was popped is a prefix of what was pushed, and the rest
      is still queued. */
  lemma {:induction false} FirstInFirstOut(abs: seq<Spec>, ts: seq<nat>)
    requires SpecRun(abs, ts)
    ensures Enqueued(abs, ts) == Dequeued(abs, ts) + abs[|ts|].queue
    decreases |ts|
  {
    if |ts| > 0 {
      var k := |ts| - 1;
      FirstInFirstOut(abs[..k + 1], ts[..k]);
      assert SpecStep(abs[k], abs[k + 1], ts[k]);
      var (q, done) := (abs[k].queue, Dequeued(abs[..k + 1], ts[..k]));
      if |q| > 0 {
        assert done + q == done + [q[0]] + q[1..];
      }
    }
  }

  /** A pop that returns nothing saw the queue empty between its call and its return. */
  lemma {:induction false} EmptyPopSawEmpty(abs: seq<Spec>, ts: seq<nat>, j: nat, t: nat) returns (i: nat)
    requires SpecRun(abs, ts) && j <= |ts| && t < |abs[0].ops| && abs[0].ops[t].Outside?
    requires forall k | 0 <= k <= |ts| :: |abs[k].ops| == |abs[0].ops|
    requires abs[j].ops[t] == Done(Popped(None)) || abs[j].ops[t] == PopPending(true)
    ensures i <= j && abs[i].queue == []
    ensures forall k | i <= k <= j :: !abs[k].ops[t].Outside?
    decreases j
  {
    var a, b := abs[j - 1], abs[j];
    assert SpecStep(a, b, ts[j - 1]);
    if a.ops[t] == Done(Popped(None)) || a.ops[t] == PopPending(true) {
      i := EmptyPopSawEmpty(abs, ts, j - 1, t);
    } else {
      i := j;
    }
  }

  function Threads(sched: seq<Tick>): seq<nat> {
    seq(|sched|, i requires 0 <= i < |sched| => sched[i].thread)
  }

  lemma ExplainedRun(n: nat, stub: Ptr, sched: seq<Tick>, abs: seq<Spec>)
    requires IsSchedule(n, sched) && Explains(n, stub, sched, abs)
    ensures |abs| == |sched| + 1 && abs[0] == Spec([], seq(n, _ => Outside)) && SpecRun(abs, Threads(sched))
    ensures forall k | 0 <= k <= |sched| :: Matches(Run(n, stub, sched[..k]), abs[k])
  {
    hide SpecStep, Matches, Run;
  }

  /** In every run, of the atomic run that explains it: what was popped is a prefix of what was pushed, and the
      rest is what the heap holds. */
  lemma {:induction false} RunIsFifo(n: nat, stub: Ptr, sched: seq<Tick>, vs: seq<Value>)
    requires IsSchedule(n, sched) && EpochLasts(n, stub, sched) && Holds(Run(n, stub, sched), vs)
    ensures exists abs ::
              && Explains(n, stub, sched, abs)
              && Enqueued(abs, Threads(sched)) == Dequeued(abs, Threads(sched)) + vs
  {
    hide Run, EpochLasts, Inv, Explains, SpecRun, Holds, Enqueued, Dequeued;
    var _, abs := HistoryOf(n, stub, sched);
    ExplainedRun(n, stub, sched, abs);
    FirstInFirstOut(abs, Threads(sched));
    assert sched[..|sched|] == sched;
    assert Matches(Run(n, stub, sched[..|sched|]), abs[|sched|]);
    HoldsUnique(Run(n, stub, sched), vs, abs[|sched|].queue);
  }

  /** Between the call of an operation and its return. */
  predicate InCall(pc: Pc) {
    !pc.Free? && !pc.ClaimLoad? && !pc.ClaimStore? && !pc.Idle?
  }

  lemma InsideCall(w: World, a: Spec, t: nat)
    requires Matches(w, a) && t < |w.pcs| && !a.ops[t].Outside?
    ensures InCall(w.pcs[t])
  {
    assert Agrees(w.pcs[t], a.ops[t]);
  }

  /** In every run, a pop that is about to return nothing has seen the heap hold the empty queue since it was
      called. */
  lemma {:induction false} EmptyPopWasEmpty(n: nat, stub: Ptr, sched: seq<Tick>, t: nat) returns (i: nat)
    requires IsSchedule(n, sched) && EpochLasts(n, stub, sched) && t < n
    requires Run(n, stub, sched).pcs[t] == Leave(Popped(None))
    ensures i <= |sched| && Holds(Run(n, stub, sched[..i]), [])
    ensures forall k | i <= k <= |sched| :: InCall(Run(n, stub, sched[..k]).pcs[t])
  {
    hide Run, EpochLasts, Inv, SpecRun, Holds, Agrees, InCall;
    var _, abs := HistoryOf(n, stub, sched);
    ExplainedRun(n, stub, sched, abs);
    assert sched[..|sched|] == sched;
    var last := Run(n, stub, sched);
    assert Matches(last, abs[|sched|]);
    LeavesWith(last, abs[|sched|], t);
    assert forall k | 0 <= k <= |sched| :: |abs[k].ops| == |Run(n, stub, sched[..k]).pcs| == n;
    i := EmptyPopSawEmpty(abs, Threads(sched), |sched|, t);
    assert Matches(Run(n, stub, sched[..i]), abs[i]);
    forall k | i <= k <= |sched| ensures InCall(Run(n, stub, sched[..k]).pcs[t]) {
      InsideCall(Run(n, stub, sched[..k]), abs[k], t);
    }
  }

  lemma LeavesWith(w: World, a: Spec, t: nat)
    requires Matches(w, a) && t < |w.pcs| && w.pcs[t].Leave?
    ensures a.ops[t] == Done(w.pcs[t].res)
  {
    assert Agrees(w.pcs[t], a.ops[t]);
  }

  // ---------------------------------------------------------------- the linked list

  /** A path that starts at a linked node follows the link order. */
  lemma {:induction false} PathNumbers(w: World, h: History, path: seq<Ptr>, p: nat, i: nat)
    requires |h.ids| == |h.vals| + 1 && Linked(w, h)
    requires IsPath(w.heap, path) && |h.fates| <= p < |h.ids| && path[0] == h.ids[p] && i < |path|
    ensures p + i < |h.ids| && path[i] == h.ids[p + i]
  {
    hide Linked;
    if i > 0 {
      PathNumbers(w, h, path, p, i - 1);
      assert w.heap[path[i - 1]].next == Some(path[i]);
      NextNumbered(w, h, p + (i - 1), path[i]);
    }
  }

  lemma NextNumbered(w: World, h: History, q: nat, ptr: Ptr)
    requires |h.ids| == |h.vals| + 1 && |h.fates| <= q < |h.ids| && Linked(w, h)
    requires h.ids[q] in w.heap && w.heap[h.ids[q]].next == Some(ptr)
    ensures q + 1 < |h.ids| && ptr == h.ids[q + 1]
  {
    assert Live(h, q);
  }

  lemma LinkedPath(w: World, h: History)
    requires Base(w, h) && Numbered(w, h) && Linked(w, h)
    ensures Reaches(w.heap, w.head, w.tail)
  {
    var path := h.ids[h.headPos..h.tailPos + 1];
    forall i | 0 <= i < |path| - 1 ensures path[i] in w.heap && w.heap[path[i]].next == Some(path[i + 1]) {
      assert Live(h, h.headPos + i);
    }
    assert IsPath(w.heap, path);
  }

  /** `head_` reaches `tail_`, and at most one node is linked behind `tail_`. */
  lemma TailIsNearTheEnd(w: World, h: History)
    requires Inv(w, h)
    ensures Reaches(w.heap, w.head, w.tail)
    ensures w.tail in w.heap
    ensures w.heap[w.tail].next.Some? ==>
      w.heap[w.tail].next.value in w.heap && w.heap[w.heap[w.tail].next.value].next.None?
  {
    hide AllThreads, Buried, Counted, IsPath;
    LinkedPath(w, h);
    assert Live(h, h.tailPos);
    if h.tailPos + 1 < |h.ids| {
      assert Live(h, h.tailPos + 1);
    }
  }

  /** In every run, too. */
  lemma {:induction false} TailKeepsUp(n: nat, stub: Ptr, sched: seq<Tick>)
    requires IsSchedule(n, sched) && EpochLasts(n, stub, sched)
    ensures var w := Run(n, stub, sched);
      && Reaches(w.heap, w.head, w.tail)
      && w.tail in w.heap
      && (w.heap[w.tail].next.Some? ==>
            w.heap[w.tail].next.value in w.heap && w.heap[w.heap[w.tail].next.value].next.None?)
  {
    hide Run, EpochLasts, Inv, Explains, Reaches;
    var h, _ := HistoryOf(n, stub, sched);
    TailIsNearTheEnd(Run(n, stub, sched), h);
  }

  /** Reclamation safety: a node that a sweep deletes is allocated, is in the locals of no thread, and
      cannot be reached from `head_` or `tail_`. */
  lemma {:induction false} DeletedIsUnreachable(w: World, h: History, t: nat)
    requires Inv(w, h) && t < |w.pcs| && Deletes(w, t)
    ensures var node := w.slots[t].retired[w.pcs[t].i].node;
      && node in w.heap
      && (forall u | 0 <= u < |w.pcs| :: node !in Locals(w.pcs[u]))
      && !Reaches(w.heap, w.head, node)
      && !Reaches(w.heap, w.tail, node)
  {
    var node, p := w.slots[t].retired[w.pcs[t].i].node, h.graves[t][w.pcs[t].i];
    MpmcProof.DeleteIsUnshielded(w, h, t, t);
    assert Live(h, p) && h.ids[p] == node;
    forall u | 0 <= u < |w.pcs| ensures node !in Locals(w.pcs[u]) {
      MpmcProof.DeleteIsUnshielded(w, h, t, u);
      assert ThreadInv(w, h, u);
      LocalsAreLater(w, h, u, p);
    }
    forall path | IsPath(w.heap, path) && (path[0] == w.head || path[0] == w.tail) ensures path[|path| - 1] != node {
      var start := if path[0] == w.head then h.headPos else h.tailPos;
      PathNumbers(w, h, path, start, |path| - 1);
      assert Live(h, start + (|path| - 1));
    }
  }

  /** The locals of an active thread are nodes it entered before, or its own unlinked node. */
  lemma LocalsAreLater(w: World, h: History, u: nat, p: nat)
    requires Base(w, h) && Linked(w, h) && u < |w.pcs| && ThreadInv(w, h, u)
    requires Live(h, p) && (w.slots[u].active ==> h.marks[u].enter > p)
    ensures h.ids[p] !in Locals(w.pcs[u])
  {
    hide ScanBounds, Locals;
    forall ptr | ptr in Locals(w.pcs[u]) ensures ptr != h.ids[p] {
      LocalsAreKnown(w, h, u, ptr);
      if !(HasPrivate(w.pcs[u]) && ptr == w.pcs[u].n) {
        var q: nat :| At(h, u, q, ptr);
        assert Live(h, q);
      }
    }
  }

  lemma LocalsAreKnown(w: World, h: History, u: nat, ptr: Ptr)
    requires Base(w, h) && u < |w.pcs| && Knows(w, h, u) && Announced(w, u)
    requires ptr in Locals(w.pcs[u])
    ensures w.slots[u].active
    ensures (HasPrivate(w.pcs[u]) && ptr == w.pcs[u].n) || exists q: nat :: At(h, u, q, ptr)
  {
    var m := h.marks[u];
    if !(HasPrivate(w.pcs[u]) && ptr == w.pcs[u].n) {
      assert At(h, u, m.head, ptr) || At(h, u, m.tail, ptr) || At(h, u, m.head + 1, ptr) || At(h, u, m.tail + 1, ptr);
    }
  }

  /** The two facts above, in every run: nothing a step deletes is still in use. */
  lemma {:induction false} NoUseAfterFree(n: nat, stub: Ptr, sched: seq<Tick>, t: nat)
    requires IsSchedule(n, sched) && EpochLasts(n, stub, sched) && t < n
    requires Deletes(Run(n, stub, sched), t)
    ensures var w := Run(n, stub, sched);
      var node := w.slots[t].retired[w.pcs[t].i].node;
      && node in w.heap
      && (forall u | 0 <= u < n :: node !in Locals(w.pcs[u]))
      && !Reaches(w.heap, w.head, node)
      && !Reaches(w.heap, w.tail, node)
  {
    var h, _ := HistoryOf(n, stub, sched);
    DeletedIsUnreachable(Run(n, stub, sched), h, t);
  }

  /** `size_` is the length plus pops not yet subtracted minus pushes not yet added, mod 2^64. */
  ghost predicate SizeFollows(w: World, length: nat) {
    && (w.size + Ones(w.pcs, UNCOUNTED_PUSH)) % WORD == (length + Ones(w.pcs, UNCOUNTED_POP)) % WORD
    && (Ones(w.pcs, UNCOUNTED_PUSH) == 0 && Ones(w.pcs, UNCOUNTED_POP) == 0 ==> w.size == length % WORD)
  }

  /** In every run `size_` follows the length of the queue the heap holds. */
  lemma {:induction false} SizeFollowsLength(n: nat, stub: Ptr, sched: seq<Tick>, vs: seq<Value>)
    requires IsSchedule(n, sched) && EpochLasts(n, stub, sched)
    requires Holds(Run(n, stub, sched), vs)
    ensures SizeFollows(Run(n, stub, sched), |vs|)
  {
    var h, _ := HistoryOf(n, stub, sched);
    SizeOf(Run(n, stub, sched), h, vs);
  }

  lemma SizeOf(w: World, h: History, vs: seq<Value>)
    requires Inv(w, h) && Holds(w, vs)
    ensures SizeFollows(w, |vs|)
  {
    HeapHoldsQueue(w, h);
    HoldsUnique(w, vs, Queue(h));
    hide Linked, Buried, AllThreads, Holds, Ones, Queue;
    assert Counted(w, h) && |vs| == |h.vals| - h.headPos by {
      QueueLength(w, h);
    }
    SmallIsItself(w.size);
  }

  lemma QueueLength(w: World, h: History)
    requires Numbered(w, h)
    ensures |Queue(h)| == |h.vals| - h.headPos
  {
  }

  lemma SmallIsItself(n: nat)
    requires n < WORD
    ensures n % WORD == n
  {
  }
}
