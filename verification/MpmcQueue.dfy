/**
The multi-producer multi-consumer linked queue, one atomic action per step.

A `World` is what the program can see: the heap of nodes, the shared atomics, the epoch slots and,
per slot, the program counter of the thread that owns it together with the locals it will still use.
`Step` is the program. Every load, store, compare-and-swap and fetch-and-add is one step; the
scheduler picks the thread, and a `Choice` resolves what the program does not determine (the next
operation, the address `new` returns, the spurious failure of a weak compare-and-swap).

Addresses are reused: `new` may return any address that is not allocated at that moment.
Dereferencing or deleting an address that is not allocated sets `fault`.
*/
module MpmcQueue {
  import opened Wrappers

  type Ptr = nat
  type Value(==, !new, 0)

  /** 2^64, the modulus of `std::size_t` and `std::uint64_t`. */
  const WORD: nat := 0x1_0000_0000_0000_0000
  const RETIRE_THRESHOLD: nat := 32

  datatype Node = Node(next: Option<Ptr>, value: Option<Value>)
  datatype RetiredNode = RetiredNode(node: Ptr, epoch: nat)
  datatype Slot = Slot(occupied: bool, active: bool, epoch: nat, retired: seq<RetiredNode>)

  datatype Op = Push(value: Value) | Pop
  datatype Response = Pushed | Popped(value: Option<Value>)

  /** The next atomic action of a thread, with the locals that are still live. */
  datatype Pc =
    | Free                                          // the slot has not been handed out
    | ClaimLoad                                     // acquire_slot: occupied won, epoch not yet loaded
    | ClaimStore(epoch: nat)
    | Idle
    | EnterLoad(op: Op)                             // enter_critical
    | EnterStore(op: Op, epoch: nat)
    | EnterPublish(op: Op)
    | PushAlloc(v: Value)                           // push_with_token
    | PushTail(v: Value, n: Ptr)
    | PushNext(v: Value, n: Ptr, tail: Ptr)
    | PushCheck(v: Value, n: Ptr, tail: Ptr, next: Option<Ptr>)
    | PushLink(v: Value, n: Ptr, tail: Ptr)
    | PushHelp(v: Value, n: Ptr, tail: Ptr, succ: Ptr)
    | PushSwing(n: Ptr, tail: Ptr)
    | PushCount
    | PopHead                                       // try_pop_with_token
    | PopTail(head: Ptr)
    | PopNext(head: Ptr, tail: Ptr)
    | PopCheck(head: Ptr, tail: Ptr, next: Option<Ptr>)
    | PopHelp(tail: Ptr, succ: Ptr)
    | PopSwing(head: Ptr, succ: Ptr)
    | PopTake(head: Ptr, succ: Ptr)
    | PopCount(head: Ptr, out: Option<Value>)
    | PopRetire(head: Ptr, out: Option<Value>)
    | PopBump(out: Option<Value>)                   // collect_retired and min_active_epoch
    | ScanStart(out: Option<Value>)
    | ScanOccupied(out: Option<Value>, min: nat, k: nat)
    | ScanActive(out: Option<Value>, min: nat, k: nat)
    | ScanEpoch(out: Option<Value>, min: nat, k: nat)
    | Sweep(out: Option<Value>, min: nat, i: nat)
    | Leave(res: Response)                          // leave_critical, then return

  datatype World = World(
    heap: map<Ptr, Node>,
    head: Ptr,
    tail: Ptr,
    size: nat,
    epoch: nat,
    slots: seq<Slot>,
    pcs: seq<Pc>,
    fault: bool)

  datatype Choice = Choice(op: Op, addr: Ptr, spurious: bool)

  ghost predicate Shaped(w: World) {
    |w.slots| == |w.pcs|
  }

  /** A new queue with `n` epoch slots and its stub node at address `stub`. */
  function Initial(n: nat, stub: Ptr): World {
    World(map[stub := Node(None, None)], stub, stub, 0, 1,
          seq(n, _ => Slot(false, false, 0, [])), seq(n, _ => Free), false)
  }

  function Goto(w: World, t: nat, pc: Pc): World
    requires t < |w.pcs|
  {
    w.(pcs := w.pcs[t := pc])
  }

  function WithSlot(w: World, t: nat, slot: Slot): World
    requires t < |w.slots|
  {
    w.(slots := w.slots[t := slot])
  }

  function Crash(w: World): World {
    w.(fault := true)
  }

  function AfterScan(w: World, out: Option<Value>, min: nat, k: nat): Pc {
    if k + 1 < |w.slots| then ScanOccupied(out, min, k + 1) else Sweep(out, min, 0)
  }

  function Without<T>(s: seq<T>, i: nat): seq<T>
    requires i < |s|
  {
    s[..i] + s[i + 1..]
  }

  /** Whether the weak compare-and-swap of a thread about to link its node goes through. */
  predicate Links(w: World, pc: Pc, c: Choice) {
    pc.PushLink? && pc.tail in w.heap && w.heap[pc.tail].next.None? && !c.spurious
  }

  /** Whether the thread is about to move `tail_` forward and succeeds (the first one is a strong CAS). */
  predicate SwingsTail(w: World, pc: Pc, c: Choice) {
    || (pc.PushSwing? && w.tail == pc.tail)
    || ((pc.PushHelp? || pc.PopHelp?) && w.tail == pc.tail && !c.spurious)
  }

  predicate SwingsHead(w: World, pc: Pc, c: Choice) {
    pc.PopSwing? && w.head == pc.head && !c.spurious
  }

  /** Whether the thread's next action deletes the retired node its sweep stands on. */
  predicate Deletes(w: World, t: nat)
    requires Shaped(w) && t < |w.pcs|
  {
    && w.pcs[t].Sweep?
    && w.pcs[t].i < |w.slots[t].retired|
    && w.slots[t].retired[w.pcs[t].i].epoch < w.pcs[t].min
  }

  function StepEnter(w: World, t: nat, c: Choice): (w': World)
    requires Shaped(w) && t < |w.pcs|
    ensures |w'.pcs| == |w'.slots| == |w.pcs|
  {
    var slot := w.slots[t];
    match w.pcs[t]
    case Free =>
      if slot.occupied then w
      else Goto(WithSlot(w, t, slot.(occupied := true, retired := [])), t, ClaimLoad)
    case ClaimLoad => Goto(w, t, ClaimStore(w.epoch))
    case ClaimStore(e) => Goto(WithSlot(w, t, slot.(epoch := e)), t, Idle)
    case Idle => Goto(w, t, EnterLoad(c.op))
    case EnterLoad(op) => Goto(w, t, EnterStore(op, w.epoch))
    case EnterStore(op, e) => Goto(WithSlot(w, t, slot.(epoch := e)), t, EnterPublish(op))
    case EnterPublish(op) =>
      Goto(WithSlot(w, t, slot.(active := true)), t, if op.Push? then PushAlloc(op.value) else PopHead)
    case Leave(_) => Goto(WithSlot(w, t, slot.(active := false)), t, Idle)
    case _ => w
  }

  function StepPush(w: World, t: nat, c: Choice): (w': World)
    requires Shaped(w) && t < |w.pcs|
    ensures |w'.pcs| == |w'.slots| == |w.pcs|
  {
    match w.pcs[t]
    case PushAlloc(v) =>
      if c.addr in w.heap then w
      else Goto(w.(heap := w.heap[c.addr := Node(None, Some(v))]), t, PushTail(v, c.addr))
    case PushTail(v, n) => Goto(w, t, PushNext(v, n, w.tail))
    case PushNext(v, n, tail) =>
      if tail !in w.heap then Crash(w) else Goto(w, t, PushCheck(v, n, tail, w.heap[tail].next))
    case PushCheck(v, n, tail, next) =>
      Goto(w, t, if tail != w.tail then PushTail(v, n)
                 else if next.None? then PushLink(v, n, tail)
                 else PushHelp(v, n, tail, next.value))
    case PushLink(v, n, tail) =>
      if tail !in w.heap then Crash(w)
      else if Links(w, w.pcs[t], c) then
        Goto(w.(heap := w.heap[tail := w.heap[tail].(next := Some(n))]), t, PushSwing(n, tail))
      else Goto(w, t, PushTail(v, n))
    case PushHelp(v, n, tail, succ) =>
      Goto(if SwingsTail(w, w.pcs[t], c) then w.(tail := succ) else w, t, PushTail(v, n))
    case PushSwing(n, tail) =>
      Goto(if SwingsTail(w, w.pcs[t], c) then w.(tail := n) else w, t, PushCount)
    case PushCount => Goto(w.(size := (w.size + 1) % WORD), t, Leave(Pushed))
    case _ => w
  }

  function StepPop(w: World, t: nat, c: Choice): (w': World)
    requires Shaped(w) && t < |w.pcs|
    ensures |w'.pcs| == |w'.slots| == |w.pcs|
  {
    match w.pcs[t]
    case PopHead => Goto(w, t, PopTail(w.head))
    case PopTail(head) => Goto(w, t, PopNext(head, w.tail))
    case PopNext(head, tail) =>
      if head !in w.heap then Crash(w) else Goto(w, t, PopCheck(head, tail, w.heap[head].next))
    case PopCheck(head, tail, next) =>
      Goto(w, t, if head != w.head then PopHead
                 else if next.None? then Leave(Popped(None))
                 else if head == tail then PopHelp(tail, next.value)
                 else PopSwing(head, next.value))
    case PopHelp(tail, succ) =>
      Goto(if SwingsTail(w, w.pcs[t], c) then w.(tail := succ) else w, t, PopHead)
    case PopSwing(head, succ) =>
      if SwingsHead(w, w.pcs[t], c) then Goto(w.(head := succ), t, PopTake(head, succ)) else Goto(w, t, PopHead)
    case PopTake(head, succ) =>
      if succ !in w.heap then Crash(w)
      else Goto(w.(heap := w.heap[succ := w.heap[succ].(value := None)]), t, PopCount(head, w.heap[succ].value))
    case PopCount(head, out) => Goto(w.(size := (w.size + (WORD - 1)) % WORD), t, PopRetire(head, out))
    case _ => w
  }

  function StepReclaim(w: World, t: nat, c: Choice): (w': World)
    requires Shaped(w) && t < |w.pcs|
    ensures |w'.pcs| == |w'.slots| == |w.pcs|
  {
    var slot := w.slots[t];
    match w.pcs[t]
    case PopRetire(head, out) =>
      var retired := slot.retired + [RetiredNode(head, w.epoch)];
      Goto(WithSlot(w, t, slot.(retired := retired)), t,
           if |retired| >= RETIRE_THRESHOLD then PopBump(out) else Leave(Popped(out)))
    case PopBump(out) => Goto(w.(epoch := (w.epoch + 1) % WORD), t, ScanStart(out))
    case ScanStart(out) => Goto(w, t, ScanOccupied(out, (w.epoch + 1) % WORD, 0))
    case ScanOccupied(out, min, k) =>
      if k >= |w.slots| then w
      else Goto(w, t, if w.slots[k].occupied then ScanActive(out, min, k) else AfterScan(w, out, min, k))
    case ScanActive(out, min, k) =>
      if k >= |w.slots| then w
      else Goto(w, t, if w.slots[k].active then ScanEpoch(out, min, k) else AfterScan(w, out, min, k))
    case ScanEpoch(out, min, k) =>
      if k >= |w.slots| then w
      else Goto(w, t, AfterScan(w, out, if w.slots[k].epoch < min then w.slots[k].epoch else min, k))
    case Sweep(out, min, i) =>
      if i >= |slot.retired| then Goto(w, t, Leave(Popped(out)))
      else if !Deletes(w, t) then Goto(w, t, Sweep(out, min, i + 1))
      else if slot.retired[i].node !in w.heap then Crash(w)
      else WithSlot(w.(heap := w.heap - {slot.retired[i].node}), t, slot.(retired := Without(slot.retired, i)))
    case _ => w
  }

  /** One atomic action of thread `t`. */
  function Step(w: World, t: nat, c: Choice): (w': World)
    requires Shaped(w) && t < |w.pcs|
    ensures |w'.pcs| == |w'.slots| == |w.pcs|
  {
    var pc := w.pcs[t];
    if pc.PushAlloc? || pc.PushTail? || pc.PushNext? || pc.PushCheck? || pc.PushLink? || pc.PushHelp?
       || pc.PushSwing? || pc.PushCount? then StepPush(w, t, c)
    else if pc.PopHead? || pc.PopTail? || pc.PopNext? || pc.PopCheck? || pc.PopHelp? || pc.PopSwing?
            || pc.PopTake? || pc.PopCount? then StepPop(w, t, c)
    else if pc.PopRetire? || pc.PopBump? || pc.ScanStart? || pc.ScanOccupied? || pc.ScanActive?
            || pc.ScanEpoch? || pc.Sweep? then StepReclaim(w, t, c)
    else StepEnter(w, t, c)
  }

  /** The addresses a thread may still dereference or compare. */
  function Locals(pc: Pc): set<Ptr> {
    match pc
    case PushTail(_, n) => {n}
    case PushNext(_, n, tail) => {n, tail}
    case PushCheck(_, n, tail, next) => {n, tail} + if next.Some? then {next.value} else {}
    case PushLink(_, n, tail) => {n, tail}
    case PushHelp(_, n, tail, succ) => {n, tail, succ}
    case PushSwing(n, tail) => {n, tail}
    case PopTail(head) => {head}
    case PopNext(head, tail) => {head, tail}
    case PopCheck(head, tail, next) => {head, tail} + if next.Some? then {next.value} else {}
    case PopHelp(tail, succ) => {tail, succ}
    case PopSwing(head, succ) => {head, succ}
    case PopTake(head, succ) => {head, succ}
    case PopCount(head, _) => {head}
    case PopRetire(head, _) => {head}
    case _ => {}
  }

  /** `path` follows `next` links from its first address to its last one. */
  predicate IsPath(heap: map<Ptr, Node>, path: seq<Ptr>) {
    && |path| > 0
    && forall i | 0 <= i < |path| - 1 :: path[i] in heap && heap[path[i]].next == Some(path[i + 1])
  }

  ghost predicate Reaches(heap: map<Ptr, Node>, from: Ptr, to: Ptr) {
    exists path :: IsPath(heap, path) && path[0] == from && path[|path| - 1] == to
  }

  /** The nodes linked from `p` on carry exactly the values `vs`, in order. */
  predicate Chain(heap: map<Ptr, Node>, p: Option<Ptr>, vs: seq<Value>)
    decreases |vs|
  {
    if |vs| == 0 then p.None?
    else p.Some? && p.value in heap && heap[p.value].value == Some(vs[0]) && Chain(heap, heap[p.value].next, vs[1..])
  }

  /** The queue held in the heap is `vs`: the values linked after the node `head_` points at. */
  predicate Holds(w: World, vs: seq<Value>) {
    w.head in w.heap && Chain(w.heap, w.heap[w.head].next, vs)
  }
}
