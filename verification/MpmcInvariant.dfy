/**
The history of the queue and the invariant that ties it to the memory of `MpmcQueue`.

A `History` numbers the nodes that were ever linked, in link order: node number `p` got address
`ids[p]`, and for p > 0 carried the value `vals[p - 1]`. It is only recorded: `Step` never reads it.
*/
module MpmcInvariant {
  import opened Wrappers
  import opened MpmcQueue

  /** What became of a node that `head_` has left behind. */
  datatype Fate = Popping(owner: nat) | Retired(owner: nat, epoch: nat) | Freed

  /** Node numbers a thread remembers: `head_` when it became active, and its local `head` and `tail`.
      `sawEmpty` says that the running pop has seen the queue empty. */
  datatype Marks = Marks(enter: nat, head: nat, tail: nat, sawEmpty: bool)

  datatype History = History(
    ids: seq<Ptr>,
    vals: seq<Value>,
    headPos: nat,
    tailPos: nat,
    fates: seq<Fate>,
    marks: seq<Marks>,
    graves: seq<seq<nat>>)   // graves[t][i] is the node number of slots[t].retired[i]

  function InitialHistory(n: nat, stub: Ptr): History {
    History([stub], [], 0, 0, [], seq(n, _ => Marks(0, 0, 0, false)), seq(n, _ => []))
  }

  ghost predicate Fits(w: World, h: History) {
    && Shaped(w)
    && |h.marks| == |w.pcs|
    && |h.graves| == |w.pcs|
    && (forall t | 0 <= t < |w.pcs| :: |h.graves[t]| == |w.slots[t].retired|)
  }

  function Mark(h: History, t: nat, m: Marks): History
    requires t < |h.marks|
  {
    h.(marks := h.marks[t := m])
  }

  /** What the history notes about one step. */
  ghost function Record(w: World, h: History, t: nat, c: Choice): History
    requires Fits(w, h) && t < |w.pcs|
  {
    var pc := w.pcs[t];
    var m := h.marks[t];
    match pc
    case Idle => Mark(h, t, m.(sawEmpty := false))
    case EnterPublish(_) => Mark(h, t, m.(enter := h.headPos))
    case PushTail(_, _) => Mark(h, t, m.(tail := h.tailPos))
    case PushLink(v, n, _) =>
      if Links(w, pc, c) then h.(ids := h.ids + [n], vals := h.vals + [v]) else h
    case PushHelp(_, _, _, _) => if SwingsTail(w, pc, c) then h.(tailPos := h.tailPos + 1) else h
    case PushSwing(_, _) => if SwingsTail(w, pc, c) then h.(tailPos := h.tailPos + 1) else h
    case PopHelp(_, _) => if SwingsTail(w, pc, c) then h.(tailPos := h.tailPos + 1) else h
    case PopHead => Mark(h, t, m.(head := h.headPos))
    case PopTail(_) => Mark(h, t, m.(tail := h.tailPos))
    case PopNext(head, _) =>
      if head in w.heap && w.heap[head].next.None? then Mark(h, t, m.(sawEmpty := true)) else h
    case PopSwing(_, _) =>
      if SwingsHead(w, pc, c) then h.(headPos := h.headPos + 1, fates := h.fates + [Popping(t)]) else h
    case PopRetire(_, _) =>
      if m.head >= |h.fates| then h else
      h.(fates := h.fates[m.head := Retired(t, w.epoch)], graves := h.graves[t := h.graves[t] + [m.head]])
    case Sweep(_, _, i) =>
      if Deletes(w, t) && h.graves[t][i] < |h.fates| then
        h.(fates := h.fates[h.graves[t][i] := Freed], graves := h.graves[t := Without(h.graves[t], i)])
      else h
    case _ => h
  }

  /** The queue as a plain sequence. */
  function Queue(h: History): seq<Value>
    requires h.headPos <= |h.vals|
  {
    h.vals[h.headPos..]
  }

  // ---------------------------------------------------------------- the invariant

  ghost predicate Live(h: History, p: nat) {
    p < |h.ids| && (p < |h.fates| ==> h.fates[p] != Freed)
  }

  ghost predicate Numbered(w: World, h: History) {
    && |h.ids| == |h.vals| + 1
    && |h.fates| == h.headPos <= h.tailPos < |h.ids| <= h.tailPos + 2
    && w.head == h.ids[h.headPos]
    && w.tail == h.ids[h.tailPos]
  }

  function NextId(h: History, p: nat): Option<Ptr> {
    if p + 1 < |h.ids| then Some(h.ids[p + 1]) else None
  }

  /** Linked nodes that were not freed are allocated, distinct, and linked in number order. */
  ghost predicate Linked(w: World, h: History)
    requires |h.ids| == |h.vals| + 1
  {
    && (forall p: nat {:trigger Live(h, p)} | Live(h, p) :: h.ids[p] in w.heap && w.heap[h.ids[p]].next == NextId(h, p))
    && (forall p: nat {:trigger Live(h, p)} | Live(h, p) && p > |h.fates| :: w.heap[h.ids[p]].value == Some(h.vals[p - 1]))
    && (forall p: nat, q: nat {:trigger Live(h, p), Live(h, q)} | Live(h, p) && Live(h, q) && h.ids[p] == h.ids[q] :: p == q)
  }

  /** Retired lists hold distinct unfreed nodes in number order, each with the epoch it was retired in. */
  ghost predicate Buried(w: World, h: History)
    requires Fits(w, h)
  {
    && (forall t, i | 0 <= t < |h.graves| && 0 <= i < |h.graves[t]| ::
          var p := h.graves[t][i];
          && p < |h.ids| && p < |h.fates|
          && w.slots[t].retired[i].node == h.ids[p]
          && h.fates[p] == Retired(t, w.slots[t].retired[i].epoch))
    && (forall t, i, j | 0 <= t < |h.graves| && 0 <= i < j < |h.graves[t]| :: h.graves[t][i] < h.graves[t][j])
  }

  predicate Inside(pc: Pc) {
    !(pc.Free? || pc.ClaimLoad? || pc.ClaimStore? || pc.Idle? || pc.EnterLoad? || pc.EnterStore? || pc.EnterPublish?)
  }

  ghost predicate Announced(w: World, t: nat)
    requires Shaped(w) && t < |w.pcs|
  {
    && (w.slots[t].active <==> Inside(w.pcs[t]))
    && (w.slots[t].occupied <==> !w.pcs[t].Free?)
    && w.slots[t].epoch <= w.epoch
    && (w.pcs[t].ClaimStore? ==> w.pcs[t].epoch <= w.epoch)
    && (w.pcs[t].EnterStore? ==> w.pcs[t].epoch <= w.epoch)
    && (w.pcs[t].Free? ==> w.slots[t].retired == [])
  }

  /** A node that `head_` left after `t` became active is not freed, and is retired at `t`'s epoch or later. */
  ghost predicate Shields(w: World, h: History, t: nat)
    requires Fits(w, h) && t < |w.pcs|
  {
    w.slots[t].active ==>
      && h.marks[t].enter <= h.headPos
      && forall p | h.marks[t].enter <= p < |h.fates| ::
           h.fates[p] != Freed && (h.fates[p].Retired? ==> h.fates[p].epoch >= w.slots[t].epoch)
  }

  /** How far the scan of a thread has got, and the smallest epoch it has seen. */
  predicate Scanned(pc: Pc, n: nat, u: nat, min: nat) {
    match pc
    case ScanOccupied(_, m, k) => u < k && min == m
    case ScanActive(_, m, k) => u < k && min == m
    case ScanEpoch(_, m, k) => u < k && min == m
    case Sweep(_, m, _) => u < n && min == m
    case _ => false
  }

  /** Every slot the scan of `t` has passed either is not active, or entered after `t` retired
      everything it holds, or bounds the scanned minimum. */
  ghost predicate ScanBounds(w: World, h: History, t: nat)
    requires Fits(w, h) && t < |w.pcs|
  {
    forall u, i, min: nat | 0 <= u < |w.slots| && 0 <= i < |h.graves[t]| && Scanned(w.pcs[t], |w.slots|, u, min) ::
      w.slots[u].active && h.marks[u].enter <= h.graves[t][i] ==> min <= w.slots[u].epoch
  }

  ghost predicate At(h: History, t: nat, p: nat, ptr: Ptr)
    requires t < |h.marks|
  {
    h.marks[t].enter <= p < |h.ids| && h.ids[p] == ptr
  }

  predicate HasPrivate(pc: Pc) {
    pc.PushTail? || pc.PushNext? || pc.PushCheck? || pc.PushLink? || pc.PushHelp?
  }

  /** The node a push has allocated and not yet linked is in nobody else's way. */
  ghost predicate Private(w: World, h: History, t: nat)
    requires t < |w.pcs|
  {
    HasPrivate(w.pcs[t]) ==>
      && w.pcs[t].n in w.heap
      && w.heap[w.pcs[t].n] == Node(None, Some(w.pcs[t].v))
      && (forall p: nat | Live(h, p) :: h.ids[p] != w.pcs[t].n)
      && (forall u | 0 <= u < |w.pcs| && u != t && HasPrivate(w.pcs[u]) :: w.pcs[u].n != w.pcs[t].n)
  }

  ghost predicate Owns(h: History, t: nat, head: Ptr)
    requires t < |h.marks| && t < |h.graves|
  {
    var p := h.marks[t].head;
    && At(h, t, p, head)
    && p < |h.fates|
    && h.fates[p] == Popping(t)
    && (forall i | 0 <= i < |h.graves[t]| :: h.graves[t][i] < p)
  }

  /** What the locals of thread `t` stand for at each program point. */
  ghost predicate Knows(w: World, h: History, t: nat)
    requires Base(w, h) && t < |w.pcs|
  {
    var m := h.marks[t];
    match w.pcs[t]
    case PushNext(_, _, tail) => At(h, t, m.tail, tail) && m.tail <= h.tailPos
    case PushCheck(_, _, tail, next) =>
      && At(h, t, m.tail, tail) && m.tail <= h.tailPos
      && (next.Some? ==> NextId(h, m.tail) == next)
    case PushLink(_, _, tail) => At(h, t, m.tail, tail) && m.tail <= h.tailPos
    case PushHelp(_, _, tail, succ) => At(h, t, m.tail, tail) && m.tail <= h.tailPos && NextId(h, m.tail) == Some(succ)
    case PushSwing(n, tail) => At(h, t, m.tail, tail) && m.tail <= h.tailPos && NextId(h, m.tail) == Some(n)
    case PopTail(head) => At(h, t, m.head, head) && m.head <= h.headPos
    case PopNext(head, tail) =>
      At(h, t, m.head, head) && m.head <= h.headPos && At(h, t, m.tail, tail) && m.head <= m.tail <= h.tailPos
    case PopCheck(head, tail, next) =>
      && At(h, t, m.head, head) && m.head <= h.headPos
      && At(h, t, m.tail, tail) && m.head <= m.tail <= h.tailPos
      && (if next.Some? then NextId(h, m.head) == next else m.sawEmpty)
    case PopHelp(tail, succ) => At(h, t, m.tail, tail) && m.tail <= h.tailPos && NextId(h, m.tail) == Some(succ)
    case PopSwing(head, succ) =>
      && At(h, t, m.head, head) && m.head <= h.headPos && m.head < h.tailPos
      && NextId(h, m.head) == Some(succ)
    case PopTake(head, succ) =>
      && Owns(h, t, head)
      && NextId(h, m.head) == Some(succ)
      && succ in w.heap && w.heap[succ].value == Some(h.vals[m.head])
    case PopCount(head, out) => Owns(h, t, head) && m.head < |h.vals| && out == Some(h.vals[m.head])
    case PopRetire(head, out) => Owns(h, t, head) && m.head < |h.vals| && out == Some(h.vals[m.head])
    case PopBump(out) => out.Some?
    case ScanStart(out) => out.Some?
    case ScanOccupied(out, _, k) => out.Some? && k < |w.slots|
    case ScanActive(out, _, k) => out.Some? && k < |w.slots|
    case ScanEpoch(out, _, k) => out.Some? && k < |w.slots|
    case Sweep(out, _, _) => out.Some?
    case Leave(res) => res == Popped(None) ==> m.sawEmpty
    case _ => true
  }

  function Ones(pcs: seq<Pc>, p: Pc -> bool): nat {
    if pcs == [] then 0 else (if p(pcs[0]) then 1 else 0) + Ones(pcs[1..], p)
  }

  /** Pushes that are linked and not yet counted, and pops that are unlinked and not yet counted. */
  const UNCOUNTED_PUSH: Pc -> bool := (pc: Pc) => pc.PushSwing? || pc.PushCount?
  const UNCOUNTED_POP: Pc -> bool := (pc: Pc) => pc.PopTake? || pc.PopCount?

  /** `size_` is the length, plus pops not yet subtracted, minus pushes not yet added, mod 2^64. */
  ghost predicate Counted(w: World, h: History) {
    && w.size < WORD
    && (w.size + Ones(w.pcs, UNCOUNTED_PUSH)) % WORD
       == (|h.vals| - h.headPos + Ones(w.pcs, UNCOUNTED_POP)) % WORD
  }

  ghost predicate ThreadInv(w: World, h: History, t: nat)
    requires Base(w, h) && t < |w.pcs|
  {
    && Announced(w, t)
    && Shields(w, h, t)
    && ScanBounds(w, h, t)
    && Private(w, h, t)
    && Knows(w, h, t)
  }

  /** The epoch counter has not run through all its 2^64 values. */
  predicate NoWrap(w: World) {
    w.epoch < WORD - 1
  }

  ghost predicate Base(w: World, h: History) {
    Fits(w, h) && |h.ids| == |h.vals| + 1
  }

  /** The shared part of the invariant. */
  ghost predicate Core(w: World, h: History) {
    && Base(w, h)
    && !w.fault
    && NoWrap(w)
    && Numbered(w, h)
    && Linked(w, h)
    && Buried(w, h)
    && Counted(w, h)
  }

  ghost predicate AllThreads(w: World, h: History)
    requires Base(w, h)
  {
    forall t | 0 <= t < |w.pcs| :: ThreadInv(w, h, t)
  }

  ghost predicate Inv(w: World, h: History) {
    Core(w, h) && AllThreads(w, h)
  }
}
