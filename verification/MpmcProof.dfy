/** Every step of every thread keeps the invariant of `MpmcInvariant`. */
module MpmcProof {
  import opened Wrappers
  import opened MpmcQueue
  import opened MpmcInvariant

  lemma {:induction false} OnesUpdate(pcs: seq<Pc>, t: nat, pc: Pc, p: Pc -> bool)
    requires t < |pcs|
    ensures Ones(pcs[t := pc], p) + (if p(pcs[t]) then 1 else 0) == Ones(pcs, p) + (if p(pc) then 1 else 0)
  {
    if t == 0 {
      assert pcs[t := pc][1..] == pcs[1..];
    } else {
      assert pcs[t := pc][1..] == pcs[1..][t - 1 := pc];
      OnesUpdate(pcs[1..], t - 1, pc, p);
    }
  }

  lemma ModAdd(a: int, b: int, k: int)
    requires a % WORD == b % WORD
    ensures (a + k) % WORD == (b + k) % WORD
  {
    var q, r := a / WORD, b / WORD;
    assert a + k == (b + k) + (q - r) * WORD;
    ModPeriod(b + k, q - r);
  }

  lemma {:induction false} ModPeriod(a: int, q: int)
    ensures (a + q * WORD) % WORD == a % WORD
    decreases if q < 0 then -q else q
  {
    if q > 0 {
      ModPeriod(a, q - 1);
      assert a + q * WORD == (a + (q - 1) * WORD) + WORD;
    } else if q < 0 {
      ModPeriod(a, q + 1);
      assert a + q * WORD == (a + (q + 1) * WORD) - WORD;
    }
  }

  /** Node numbers only grow: what was linked stays linked under the same number. */
  ghost predicate Grows(h: History, h': History) {
    && |h.ids| <= |h'.ids| && h'.ids[..|h.ids|] == h.ids
    && |h.vals| <= |h'.vals| && h'.vals[..|h.vals|] == h.vals
    && h.headPos <= h'.headPos
    && h.tailPos <= h'.tailPos
  }

  /** A thread that is not scheduled keeps what it knows, as long as nodes are only added behind
      what it holds, nodes it is popping stay its own, and the value it is about to take is left alone. */
  lemma KnowsFrame(w: World, h: History, w': World, h': History, u: nat)
    requires Base(w, h) && Base(w', h') && u < |w.pcs| == |w'.pcs|
    requires Knows(w, h, u)
    requires w'.pcs[u] == w.pcs[u] && h'.marks[u] == h.marks[u] && h'.graves[u] == h.graves[u]
    requires Grows(h, h')
    requires |h.fates| <= |h'.fates|
    requires forall p | 0 <= p < |h.fates| && h.fates[p] == Popping(u) :: h'.fates[p] == Popping(u)
    requires w.pcs[u].PopTake? ==>
               w.pcs[u].succ in w'.heap && w'.heap[w.pcs[u].succ].value == w.heap[w.pcs[u].succ].value
    ensures Knows(w', h', u)
  {
    assert forall p | 0 <= p < |h.ids| :: h'.ids[p] == h'.ids[..|h.ids|][p] == h.ids[p];
    assert forall p | 0 <= p < |h.vals| :: h'.vals[p] == h'.vals[..|h.vals|][p] == h.vals[p];
    assert forall p: nat | NextId(h, p).Some? :: NextId(h', p) == NextId(h, p);
  }

  /** The shield over an unscheduled thread survives if no node is freed or retired behind it. */
  lemma ShieldsFrame(w: World, h: History, w': World, h': History, u: nat)
    requires Fits(w, h) && Fits(w', h') && u < |w.pcs| == |w'.pcs|
    requires Shields(w, h, u)
    requires w'.slots[u].active == w.slots[u].active && w'.slots[u].epoch == w.slots[u].epoch
    requires h'.marks[u] == h.marks[u]
    requires |h.fates| <= |h'.fates| && h.headPos <= h'.headPos
    requires forall p | 0 <= p < |h.fates| && h'.fates[p] != h.fates[p] && w.slots[u].active && h.marks[u].enter <= p ::
               h'.fates[p] != Freed && (h'.fates[p].Retired? ==> h'.fates[p].epoch >= w.slots[u].epoch)
    requires forall p | |h.fates| <= p < |h'.fates| :: h'.fates[p].Popping?
    ensures Shields(w', h', u)
  {
  }

  /** An unscheduled scanner keeps its bounds if the other slots keep theirs. */
  lemma ScanFrame(w: World, h: History, w': World, h': History, u: nat)
    requires Fits(w, h) && Fits(w', h') && u < |w.pcs| == |w'.pcs|
    requires ScanBounds(w, h, u)
    requires w'.pcs[u] == w.pcs[u] && h'.graves[u] == h.graves[u]
    requires forall v, i | 0 <= v < |w.slots| && 0 <= i < |h.graves[u]| && w'.slots[v].active && h'.marks[v].enter <= h.graves[u][i] ::
               w.slots[v].active && h.marks[v].enter <= h.graves[u][i] && w'.slots[v].epoch == w.slots[v].epoch
    ensures ScanBounds(w', h', u)
  {
  }

  /** Nodes are the same, live and linked as before. */
  ghost predicate SameNodes(w: World, h: History, w': World, h': History) {
    && w'.heap == w.heap && w'.head == w.head && w'.tail == w.tail && w'.fault == w.fault
    && h'.ids == h.ids && h'.vals == h.vals && h'.headPos == h.headPos && h'.tailPos == h.tailPos
    && h'.fates == h.fates
  }

  lemma NodesFrame(w: World, h: History, w': World, h': History)
    requires SameNodes(w, h, w', h')
    requires |h.ids| == |h.vals| + 1
    ensures Numbered(w, h) ==> Numbered(w', h')
    ensures Linked(w, h) ==> Linked(w', h')
    ensures forall p: nat :: Live(h', p) == Live(h, p)
    ensures forall p: nat :: NextId(h', p) == NextId(h, p)
  {
    assert forall p: nat :: Live(h', p) == Live(h, p);
  }

  lemma CountFrame(w: World, h: History, t: nat, pc: Pc, w': World, h': History)
    requires Counted(w, h) && t < |w.pcs|
    requires w'.pcs == w.pcs[t := pc]
    requires w'.size == w.size && |h'.vals| - h'.headPos == |h.vals| - h.headPos
    requires UNCOUNTED_PUSH(pc) == UNCOUNTED_PUSH(w.pcs[t])
    requires UNCOUNTED_POP(pc) == UNCOUNTED_POP(w.pcs[t])
    ensures Counted(w', h')
  {
    OnesUpdate(w.pcs, t, pc, UNCOUNTED_PUSH);
    OnesUpdate(w.pcs, t, pc, UNCOUNTED_POP);
  }

  lemma PrivateFrame(w: World, h: History, w': World, h': History, u: nat)
    requires u < |w.pcs| == |w'.pcs|
    requires Private(w, h, u)
    requires w'.pcs[u] == w.pcs[u]
    requires HasPrivate(w.pcs[u]) ==> w.pcs[u].n in w'.heap && w'.heap[w.pcs[u].n] == w.heap[w.pcs[u].n]
    requires forall p: nat | Live(h', p) && !(Live(h, p) && h.ids[p] == h'.ids[p]) && HasPrivate(w.pcs[u]) :: h'.ids[p] != w.pcs[u].n
    requires forall v | 0 <= v < |w.pcs| && v != u && HasPrivate(w'.pcs[v]) && HasPrivate(w.pcs[u]) ::
               w'.pcs[v].n != w.pcs[u].n || (HasPrivate(w.pcs[v]) && w.pcs[v].n == w'.pcs[v].n)
    ensures Private(w', h', u)
  {
  }

  /** The other threads, given what a step must leave alone for each of them. */
  lemma OtherFrame(w: World, h: History, w': World, h': History, u: nat)
    requires Base(w, h) && Base(w', h') && u < |w.pcs| == |w'.pcs|
    requires ThreadInv(w, h, u)
    requires w'.pcs[u] == w.pcs[u] && w'.slots[u] == w.slots[u] && w.epoch <= w'.epoch
    requires h'.marks[u] == h.marks[u] && h'.graves[u] == h.graves[u]
    requires Grows(h, h') && |h.fates| <= |h'.fates|
    requires forall p | 0 <= p < |h.fates| && h.fates[p] == Popping(u) :: h'.fates[p] == Popping(u)
    requires w.pcs[u].PopTake? ==>
               w.pcs[u].succ in w'.heap && w'.heap[w.pcs[u].succ].value == w.heap[w.pcs[u].succ].value
    requires Shields(w', h', u) && ScanBounds(w', h', u) && Private(w', h', u)
    ensures ThreadInv(w', h', u)
  {
    KnowsFrame(w, h, w', h', u);
  }

  /** A move between pcs that neither changes what the thread has published nor what it has counted. */
  predicate Quiet(a: Pc, b: Pc, epoch: nat) {
    && Inside(a) == Inside(b)
    && a.Free? == b.Free?
    && (b.ClaimStore? ==> b.epoch <= epoch)
    && (b.EnterStore? ==> b.epoch <= epoch)
    && (HasPrivate(b) ==> HasPrivate(a) && a.n == b.n && a.v == b.v)
    && UNCOUNTED_PUSH(a) == UNCOUNTED_PUSH(b)
    && UNCOUNTED_POP(a) == UNCOUNTED_POP(b)
  }

  // ---------------------------------------------------------------- one thread moves

  /** A step that moves one thread and touches neither shared memory nor its own slot. */
  lemma QuietStep(w: World, h: History, t: nat, pc: Pc, m: Marks)
    requires Inv(w, h) && t < |w.pcs|
    requires Quiet(w.pcs[t], pc, w.epoch)
    requires m.enter == h.marks[t].enter
    requires Knows(Goto(w, t, pc), Mark(h, t, m), t)
    requires ScanBounds(Goto(w, t, pc), Mark(h, t, m), t)
    ensures Inv(Goto(w, t, pc), Mark(h, t, m))
  {
    QuietCore(w, h, t, pc, m);
    QuietThreads(w, h, t, pc, m);
  }

  lemma QuietCore(w: World, h: History, t: nat, pc: Pc, m: Marks)
    requires Core(w, h) && t < |w.pcs|
    requires Quiet(w.pcs[t], pc, w.epoch)
    ensures Core(Goto(w, t, pc), Mark(h, t, m))
  {
    var w', h' := Goto(w, t, pc), Mark(h, t, m);
    NodesFrame(w, h, w', h');
    CountFrame(w, h, t, pc, w', h');
  }

  lemma QuietThreads(w: World, h: History, t: nat, pc: Pc, m: Marks)
    requires Base(w, h) && AllThreads(w, h) && t < |w.pcs|
    requires Quiet(w.pcs[t], pc, w.epoch)
    requires m.enter == h.marks[t].enter
    requires Knows(Goto(w, t, pc), Mark(h, t, m), t)
    requires ScanBounds(Goto(w, t, pc), Mark(h, t, m), t)
    ensures AllThreads(Goto(w, t, pc), Mark(h, t, m))
  {
    forall u | 0 <= u < |w.pcs| ensures ThreadInv(Goto(w, t, pc), Mark(h, t, m), u) {
      if u == t {
        QuietMover(w, h, t, pc, m);
      } else {
        QuietOther(w, h, t, pc, m, u);
      }
    }
  }

  lemma QuietMover(w: World, h: History, t: nat, pc: Pc, m: Marks)
    requires Base(w, h) && t < |w.pcs| && ThreadInv(w, h, t)
    requires Quiet(w.pcs[t], pc, w.epoch)
    requires m.enter == h.marks[t].enter
    requires Knows(Goto(w, t, pc), Mark(h, t, m), t)
    requires ScanBounds(Goto(w, t, pc), Mark(h, t, m), t)
    ensures ThreadInv(Goto(w, t, pc), Mark(h, t, m), t)
  {
    NodesFrame(w, h, Goto(w, t, pc), Mark(h, t, m));
  }

  lemma QuietOther(w: World, h: History, t: nat, pc: Pc, m: Marks, u: nat)
    requires Base(w, h) && t < |w.pcs| && u < |w.pcs| && u != t && ThreadInv(w, h, u)
    requires Quiet(w.pcs[t], pc, w.epoch)
    requires m.enter == h.marks[t].enter
    ensures ThreadInv(Goto(w, t, pc), Mark(h, t, m), u)
  {
    var w', h' := Goto(w, t, pc), Mark(h, t, m);
    ShieldsFrame(w, h, w', h', u);
    ScanFrame(w, h, w', h', u);
    PrivateFrame(w, h, w', h', u);
    OtherFrame(w, h, w', h', u);
  }

  /** A step in which a thread updates the flags and the epoch of its own slot. */
  ghost predicate SlotMove(w: World, h: History, t: nat, slot: Slot, pc: Pc, m: Marks)
    requires Base(w, h) && t < |w.pcs|
  {
    && slot.retired == w.slots[t].retired && slot.epoch <= w.epoch
    && slot.active == Inside(pc) && slot.occupied && !pc.Free?
    && (pc.ClaimLoad? || pc.Idle? || pc.EnterPublish? || pc.PushAlloc? || pc.PopHead?)
    && (slot.active ==> !w.slots[t].active && m.enter == h.headPos)
    && !UNCOUNTED_PUSH(w.pcs[t]) && !UNCOUNTED_POP(w.pcs[t])
  }

  lemma SlotStep(w: World, h: History, t: nat, slot: Slot, pc: Pc, m: Marks)
    requires Inv(w, h) && t < |w.pcs|
    requires SlotMove(w, h, t, slot, pc, m)
    ensures Inv(Goto(WithSlot(w, t, slot), t, pc), Mark(h, t, m))
  {
    SlotCore(w, h, t, slot, pc, m);
    forall u | 0 <= u < |w.pcs| ensures ThreadInv(Goto(WithSlot(w, t, slot), t, pc), Mark(h, t, m), u) {
      if u == t {
        SlotMover(w, h, t, slot, pc, m);
      } else {
        SlotOther(w, h, t, slot, pc, m, u);
      }
    }
  }

  lemma SlotCore(w: World, h: History, t: nat, slot: Slot, pc: Pc, m: Marks)
    requires Core(w, h) && t < |w.pcs|
    requires SlotMove(w, h, t, slot, pc, m)
    ensures Core(Goto(WithSlot(w, t, slot), t, pc), Mark(h, t, m))
  {
    var w', h' := Goto(WithSlot(w, t, slot), t, pc), Mark(h, t, m);
    NodesFrame(w, h, w', h');
    CountFrame(w, h, t, pc, w', h');
  }

  lemma SlotMover(w: World, h: History, t: nat, slot: Slot, pc: Pc, m: Marks)
    requires Base(w, h) && Numbered(w, h) && t < |w.pcs|
    requires SlotMove(w, h, t, slot, pc, m)
    ensures ThreadInv(Goto(WithSlot(w, t, slot), t, pc), Mark(h, t, m), t)
  {
  }

  lemma SlotOther(w: World, h: History, t: nat, slot: Slot, pc: Pc, m: Marks, u: nat)
    requires Base(w, h) && t < |w.pcs| && u < |w.pcs| && u != t && ThreadInv(w, h, u) && Buried(w, h)
    requires |h.fates| == h.headPos
    requires SlotMove(w, h, t, slot, pc, m)
    ensures ThreadInv(Goto(WithSlot(w, t, slot), t, pc), Mark(h, t, m), u)
  {
    var w', h' := Goto(WithSlot(w, t, slot), t, pc), Mark(h, t, m);
    ShieldsFrame(w, h, w', h', u);
    assert forall i | 0 <= i < |h.graves[u]| :: h.graves[u][i] < h.headPos;
    ScanFrame(w, h, w', h', u);
    PrivateFrame(w, h, w', h', u);
    OtherFrame(w, h, w', h', u);
  }

  // ---------------------------------------------------------------- shared memory

  /** What a step on the shared atomics leaves alone for thread `u`: every slot, mark, retired list and
      fate, and the value `u` is about to take. */
  ghost predicate Spares(w: World, h: History, w': World, h': History, u: nat)
    requires Base(w, h) && Base(w', h') && u < |w.pcs| == |w'.pcs|
  {
    && w'.slots == w.slots && w.epoch <= w'.epoch
    && h'.marks == h.marks && h'.graves == h.graves && Grows(h, h')
    && w'.pcs[u] == w.pcs[u]
    && |h.fates| <= |h'.fates| && h'.fates[..|h.fates|] == h.fates
    && (forall p | |h.fates| <= p < |h'.fates| :: h'.fates[p].Popping?)
    && (w.pcs[u].PopTake? && w.pcs[u].succ in w.heap ==>
          w.pcs[u].succ in w'.heap && w'.heap[w.pcs[u].succ].value == w.heap[w.pcs[u].succ].value)
  }

  lemma SparedThread(w: World, h: History, w': World, h': History, u: nat)
    requires Base(w, h) && Base(w', h') && u < |w.pcs| == |w'.pcs|
    requires ThreadInv(w, h, u)
    requires Spares(w, h, w', h', u)
    requires Private(w', h', u)
    ensures ThreadInv(w', h', u)
  {
    assert forall p | 0 <= p < |h.fates| :: h'.fates[p] == h'.fates[..|h.fates|][p] == h.fates[p];
    ShieldsFrame(w, h, w', h', u);
    ScanFrame(w, h, w', h', u);
    KnowsFrame(w, h, w', h', u);
  }

  /** `tail_` advances to the next linked node. */
  lemma TailMoves(w: World, h: History)
    requires Inv(w, h) && h.tailPos + 1 < |h.ids|
    ensures Inv(w.(tail := h.ids[h.tailPos + 1]), h.(tailPos := h.tailPos + 1))
  {
    var w', h' := w.(tail := h.ids[h.tailPos + 1]), h.(tailPos := h.tailPos + 1);
    TailCore(w, h);
    forall u | 0 <= u < |w.pcs| ensures ThreadInv(w', h', u) {
      TailOther(w, h, u);
    }
  }

  lemma TailCore(w: World, h: History)
    requires Core(w, h) && h.tailPos + 1 < |h.ids|
    ensures Core(w.(tail := h.ids[h.tailPos + 1]), h.(tailPos := h.tailPos + 1))
  {
    hide Linked, Buried, Counted;
    var w', h' := w.(tail := h.ids[h.tailPos + 1]), h.(tailPos := h.tailPos + 1);
    CoreFrame(w, h, w', h');
  }

  /** Moving `tail_` or the epoch touches no node, no retired list and no count. */
  lemma CoreFrame(w: World, h: History, w': World, h': History)
    requires Base(w, h) && Linked(w, h) && Buried(w, h) && Counted(w, h)
    requires w'.heap == w.heap && w'.slots == w.slots && w'.pcs == w.pcs && w'.size == w.size
    requires h'.ids == h.ids && h'.vals == h.vals && h'.headPos == h.headPos && h'.fates == h.fates
    requires h'.marks == h.marks && h'.graves == h.graves
    ensures Base(w', h') && Linked(w', h') && Buried(w', h') && Counted(w', h')
  {
    hide Ones;
    assert forall p: nat :: Live(h', p) == Live(h, p);
    assert forall p: nat :: NextId(h', p) == NextId(h, p);
  }

  lemma TailOther(w: World, h: History, u: nat)
    requires Base(w, h) && u < |w.pcs| && ThreadInv(w, h, u) && h.tailPos + 1 < |h.ids|
    ensures ThreadInv(w.(tail := h.ids[h.tailPos + 1]), h.(tailPos := h.tailPos + 1), u)
  {
    var w', h' := w.(tail := h.ids[h.tailPos + 1]), h.(tailPos := h.tailPos + 1);
    assert forall p: nat :: Live(h', p) == Live(h, p);
    SparedThread(w, h, w', h', u);
  }

  /** The epoch counter advances without wrapping. */
  lemma EpochMoves(w: World, h: History)
    requires Inv(w, h) && w.epoch + 1 < WORD - 1
    ensures Inv(w.(epoch := w.epoch + 1), h)
  {
    hide ThreadInv, Linked, Buried, Counted;
    var w' := w.(epoch := w.epoch + 1);
    CoreFrame(w, h, w', h);
    forall u | 0 <= u < |w.pcs| ensures ThreadInv(w', h, u) {
      EpochOther(w, h, u);
    }
  }

  lemma EpochOther(w: World, h: History, u: nat)
    requires Base(w, h) && u < |w.pcs| && ThreadInv(w, h, u)
    ensures ThreadInv(w.(epoch := w.epoch + 1), h, u)
  {
    SparedThread(w, h, w.(epoch := w.epoch + 1), h, u);
  }

  // ---------------------------------------------------------------- pushing

  lemma AllocStep(w: World, h: History, t: nat, c: Choice)
    requires Inv(w, h) && t < |w.pcs| && w.pcs[t].PushAlloc? && c.addr !in w.heap
    ensures Inv(Step(w, t, c), h)
  {
    assert ThreadInv(w, h, t);
    CountFrame(w, h, t, Step(w, t, c).pcs[t], Step(w, t, c), h);
    forall u | 0 <= u < |w.pcs| ensures ThreadInv(Step(w, t, c), h, u) {
      if u == t {
        AllocMover(w, h, t, c);
      } else {
        AllocOther(w, h, t, c, u);
      }
    }
  }

  lemma AllocMover(w: World, h: History, t: nat, c: Choice)
    requires Base(w, h) && Linked(w, h) && AllThreads(w, h)
    requires t < |w.pcs| && w.pcs[t].PushAlloc? && c.addr !in w.heap
    ensures ThreadInv(Step(w, t, c), h, t)
  {
    assert ThreadInv(w, h, t);
    forall u | 0 <= u < |w.pcs| && HasPrivate(w.pcs[u]) ensures w.pcs[u].n != c.addr {
      assert ThreadInv(w, h, u);
    }
  }

  lemma AllocOther(w: World, h: History, t: nat, c: Choice, u: nat)
    requires Base(w, h) && t < |w.pcs| && w.pcs[t].PushAlloc? && c.addr !in w.heap
    requires u < |w.pcs| && u != t && ThreadInv(w, h, u)
    ensures ThreadInv(Step(w, t, c), h, u)
  {
    var w' := Step(w, t, c);
    PrivateFrame(w, h, w', h, u);
    SparedThread(w, h, w', h, u);
  }

  /** The new node becomes the last one, and the push takes effect. */
  lemma {:induction false} LinkStep(w: World, h: History, t: nat, c: Choice)
    requires Inv(w, h) && t < |w.pcs| && Links(w, w.pcs[t], c)
    ensures Inv(Step(w, t, c), Record(w, h, t, c))
    ensures h.marks[t].tail == h.tailPos == |h.ids| - 1
  {
    LinkAtEnd(w, h, t, c);
    LinkCore(w, h, t, c);
    forall u | 0 <= u < |w.pcs| ensures ThreadInv(Step(w, t, c), Record(w, h, t, c), u) {
      if u == t {
        LinkMover(w, h, t, c);
      } else {
        LinkOther(w, h, t, c, u);
      }
    }
  }

  /** A compare-and-swap on a null `next` can only succeed at the last node. */
  lemma LinkAtEnd(w: World, h: History, t: nat, c: Choice)
    requires Core(w, h) && t < |w.pcs| && Links(w, w.pcs[t], c) && ThreadInv(w, h, t)
    ensures h.marks[t].tail == h.tailPos == |h.ids| - 1
    ensures w.pcs[t].tail == h.ids[|h.ids| - 1] && Live(h, |h.ids| - 1)
  {
    assert Live(h, h.marks[t].tail);
  }

  lemma LinkCore(w: World, h: History, t: nat, c: Choice)
    requires Core(w, h) && t < |w.pcs| && Links(w, w.pcs[t], c)
    requires Private(w, h, t)
    requires h.tailPos == |h.ids| - 1
    requires w.pcs[t].tail == h.ids[|h.ids| - 1] && Live(h, |h.ids| - 1)
    ensures Core(Step(w, t, c), Record(w, h, t, c))
  {
    LinkLinked(w, h, t, c);
    LinkCounted(w, h, t, c);
  }

  lemma LinkCounted(w: World, h: History, t: nat, c: Choice)
    requires Base(w, h) && Counted(w, h) && t < |w.pcs| && Links(w, w.pcs[t], c)
    ensures Counted(Step(w, t, c), Record(w, h, t, c))
  {
    var pc := Step(w, t, c).pcs[t];
    OnesUpdate(w.pcs, t, pc, UNCOUNTED_PUSH);
    OnesUpdate(w.pcs, t, pc, UNCOUNTED_POP);
    ModAdd(w.size + Ones(w.pcs, UNCOUNTED_PUSH), |h.vals| - h.headPos + Ones(w.pcs, UNCOUNTED_POP), 1);
  }

  lemma LinkLinked(w: World, h: History, t: nat, c: Choice)
    requires Base(w, h) && |h.fates| == h.headPos && h.headPos < |h.ids|
    requires Linked(w, h) && t < |w.pcs| && Links(w, w.pcs[t], c)
    requires Private(w, h, t)
    requires w.pcs[t].tail == h.ids[|h.ids| - 1] && Live(h, |h.ids| - 1)
    ensures Linked(Step(w, t, c), Record(w, h, t, c))
  {
    var w', h' := Step(w, t, c), Record(w, h, t, c);
    var last, n := |h.ids| - 1, w.pcs[t].n;
    assert forall p: nat | p <= last :: h'.ids[p] == h.ids[p];
    assert forall p: nat :: Live(h', p) <==> Live(h, p) || p == last + 1;
    forall p: nat | Live(h', p)
      ensures h'.ids[p] in w'.heap && w'.heap[h'.ids[p]].next == NextId(h', p)
      ensures p > |h.fates| ==> w'.heap[h'.ids[p]].value == Some(h'.vals[p - 1])
    {
      if p < last {
        assert Live(h, p);
        assert NextId(h', p) == NextId(h, p);
      }
    }
  }

  lemma LinkMover(w: World, h: History, t: nat, c: Choice)
    requires Base(w, h) && t < |w.pcs| && Links(w, w.pcs[t], c)
    requires ThreadInv(w, h, t) && h.marks[t].tail == h.tailPos == |h.ids| - 1
    ensures ThreadInv(Step(w, t, c), Record(w, h, t, c), t)
  {
  }

  lemma LinkOther(w: World, h: History, t: nat, c: Choice, u: nat)
    requires Base(w, h) && t < |w.pcs| && Links(w, w.pcs[t], c) && Private(w, h, t)
    requires |h.fates| == h.headPos && h.headPos < |h.ids|
    requires w.pcs[t].tail == h.ids[|h.ids| - 1] && Live(h, |h.ids| - 1)
    requires u < |w.pcs| && u != t && ThreadInv(w, h, u)
    ensures ThreadInv(Step(w, t, c), Record(w, h, t, c), u)
  {
    var w', h' := Step(w, t, c), Record(w, h, t, c);
    assert forall p: nat :: Live(h', p) <==> Live(h, p) || p == |h.ids|;
    PrivateFrame(w, h, w', h', u);
    SparedThread(w, h, w', h', u);
  }

  lemma SizeArithmetic(size: int, p: int, q: int)
    requires (size + p) % WORD == q % WORD
    ensures ((size + 1) % WORD + (p - 1)) % WORD == q % WORD
    ensures ((size + (WORD - 1)) % WORD + p) % WORD == (q - 1) % WORD
  {
    ModAdd((size + 1) % WORD, size + 1, p - 1);
    ModAdd((size + (WORD - 1)) % WORD, size + (WORD - 1), p);
    ModPeriod(size - 1 + p, 1);
    ModAdd(size + p, q, -1);
  }

  /** A thread counts its push or its pop in `size_`. */
  ghost predicate CountsIn(w: World, t: nat, size: nat, pc: Pc)
    requires t < |w.pcs|
  {
    || (w.pcs[t].PushCount? && size == (w.size + 1) % WORD && pc == Leave(Pushed))
    || (w.pcs[t].PopCount? && size == (w.size + (WORD - 1)) % WORD && pc == PopRetire(w.pcs[t].head, w.pcs[t].out))
  }

  lemma SizeStep(w: World, h: History, t: nat, size: nat, pc: Pc)
    requires Inv(w, h) && t < |w.pcs| && CountsIn(w, t, size, pc)
    ensures Inv(Goto(w.(size := size), t, pc), h)
  {
    var w' := Goto(w.(size := size), t, pc);
    SizeCounted(w, h, t, size, pc);
    NodesFrame(w, h, w', h);
    hide Linked, Counted, ThreadInv;
    forall u | 0 <= u < |w.pcs| ensures ThreadInv(w', h, u) {
      assert ThreadInv(w, h, u);
      if u != t {
        SizeOther(w, h, t, size, pc, u);
      } else {
        SizeMover(w, h, t, size, pc);
      }
    }
  }

  lemma SizeMover(w: World, h: History, t: nat, size: nat, pc: Pc)
    requires Base(w, h) && t < |w.pcs| && CountsIn(w, t, size, pc) && ThreadInv(w, h, t)
    ensures ThreadInv(Goto(w.(size := size), t, pc), h, t)
  {
  }

  lemma SizeCounted(w: World, h: History, t: nat, size: nat, pc: Pc)
    requires Base(w, h) && Counted(w, h) && t < |w.pcs| && CountsIn(w, t, size, pc)
    ensures Counted(Goto(w.(size := size), t, pc), h)
  {
    OnesUpdate(w.pcs, t, pc, UNCOUNTED_PUSH);
    OnesUpdate(w.pcs, t, pc, UNCOUNTED_POP);
    SizeArithmetic(w.size, Ones(w.pcs, UNCOUNTED_PUSH), |h.vals| - h.headPos + Ones(w.pcs, UNCOUNTED_POP));
  }

  lemma SizeOther(w: World, h: History, t: nat, size: nat, pc: Pc, u: nat)
    requires Base(w, h) && t < |w.pcs| && CountsIn(w, t, size, pc)
    requires u < |w.pcs| && u != t && ThreadInv(w, h, u)
    ensures ThreadInv(Goto(w.(size := size), t, pc), h, u)
  {
    SparedThread(w, h, Goto(w.(size := size), t, pc), h, u);
  }

  // ---------------------------------------------------------------- popping

  function HeadWorld(w: World, t: nat): World
    requires t < |w.pcs| && w.pcs[t].PopSwing?
  {
    Goto(w.(head := w.pcs[t].succ), t, PopTake(w.pcs[t].head, w.pcs[t].succ))
  }

  function HeadHistory(h: History, t: nat): History {
    h.(headPos := h.headPos + 1, fates := h.fates + [Popping(t)])
  }

  /** `head_` advances: the pop takes effect and owns the node it left behind. */
  lemma {:induction false} HeadStep(w: World, h: History, t: nat)
    requires Inv(w, h) && t < |w.pcs| && w.pcs[t].PopSwing? && w.head == w.pcs[t].head
    ensures Inv(HeadWorld(w, t), HeadHistory(h, t))
    ensures h.marks[t].head == h.headPos < h.tailPos
  {
    assert ThreadInv(w, h, t);
    HeadAtHead(w, h, t);
    HeadCore(w, h, t);
    var w', h' := HeadWorld(w, t), HeadHistory(h, t);
    forall u | 0 <= u < |w.pcs| ensures ThreadInv(w', h', u) {
      if u == t {
        HeadMover(w, h, t);
      } else {
        HeadOther(w, h, t, u);
      }
    }
  }

  /** Comparing addresses is as good as comparing node numbers, because the thread's node is not freed. */
  lemma HeadAtHead(w: World, h: History, t: nat)
    requires Base(w, h) && Numbered(w, h) && Linked(w, h)
    requires t < |w.pcs| && w.pcs[t].PopSwing? && w.head == w.pcs[t].head
    requires Shields(w, h, t) && Knows(w, h, t) && w.slots[t].active
    ensures h.marks[t].head == h.headPos < h.tailPos
    ensures w.pcs[t].succ == h.ids[h.headPos + 1]
  {
    assert Live(h, h.marks[t].head) && Live(h, h.headPos);
  }

  lemma HeadCore(w: World, h: History, t: nat)
    requires Core(w, h) && t < |w.pcs| && w.pcs[t].PopSwing?
    requires h.headPos < h.tailPos && w.pcs[t].succ == h.ids[h.headPos + 1]
    ensures Core(HeadWorld(w, t), HeadHistory(h, t))
  {
    HeadLinked(w, h, t);
    HeadRest(w, h, t);
  }

  lemma HeadRest(w: World, h: History, t: nat)
    requires Base(w, h) && Numbered(w, h) && Counted(w, h) && t < |w.pcs| && w.pcs[t].PopSwing?
    requires h.headPos < h.tailPos && w.pcs[t].succ == h.ids[h.headPos + 1]
    ensures Base(HeadWorld(w, t), HeadHistory(h, t)) && Numbered(HeadWorld(w, t), HeadHistory(h, t))
    ensures Counted(HeadWorld(w, t), HeadHistory(h, t))
  {
    OnesUpdate(w.pcs, t, HeadWorld(w, t).pcs[t], UNCOUNTED_PUSH);
    OnesUpdate(w.pcs, t, HeadWorld(w, t).pcs[t], UNCOUNTED_POP);
  }

  lemma HeadLinked(w: World, h: History, t: nat)
    requires Base(w, h) && Linked(w, h) && t < |w.pcs| && w.pcs[t].PopSwing?
    ensures Linked(HeadWorld(w, t), HeadHistory(h, t))
  {
    var h' := HeadHistory(h, t);
    assert forall p: nat :: Live(h', p) == Live(h, p);
    assert forall p: nat :: NextId(h', p) == NextId(h, p);
  }

  lemma HeadMover(w: World, h: History, t: nat)
    requires Base(w, h) && Linked(w, h) && Buried(w, h) && |h.fates| == h.headPos
    requires t < |w.pcs| && w.pcs[t].PopSwing? && ThreadInv(w, h, t)
    requires h.marks[t].head == h.headPos < h.tailPos < |h.ids|
    ensures ThreadInv(HeadWorld(w, t), HeadHistory(h, t), t)
  {
    var w', h' := HeadWorld(w, t), HeadHistory(h, t);
    assert Live(h, h.headPos + 1);
    assert Knows(w', h', t) by {
      HeadKnows(w, h, t);
    }
    ShieldsFrame(w, h, w', h', t);
  }

  lemma HeadKnows(w: World, h: History, t: nat)
    requires Base(w, h) && Linked(w, h) && Buried(w, h) && |h.fates| == h.headPos
    requires t < |w.pcs| && w.pcs[t].PopSwing? && Knows(w, h, t)
    requires h.marks[t].head == h.headPos < h.tailPos < |h.ids| && Live(h, h.headPos + 1)
    ensures Knows(HeadWorld(w, t), HeadHistory(h, t), t)
  {
    var h' := HeadHistory(h, t);
    assert NextId(h', h.headPos) == NextId(h, h.headPos);
    assert forall i | 0 <= i < |h.graves[t]| :: h.graves[t][i] < |h.fates|;
  }

  lemma HeadOther(w: World, h: History, t: nat, u: nat)
    requires Base(w, h) && t < |w.pcs| && w.pcs[t].PopSwing?
    requires u < |w.pcs| && u != t && ThreadInv(w, h, u)
    ensures ThreadInv(HeadWorld(w, t), HeadHistory(h, t), u)
  {
    var w', h' := HeadWorld(w, t), HeadHistory(h, t);
    assert forall p: nat | Live(h', p) :: Live(h, p);
    SparedThread(w, h, w', h', u);
  }

  function TakeWorld(w: World, t: nat): World
    requires t < |w.pcs| && w.pcs[t].PopTake? && w.pcs[t].succ in w.heap
  {
    var pc := w.pcs[t];
    Goto(w.(heap := w.heap[pc.succ := w.heap[pc.succ].(value := None)]), t, PopCount(pc.head, w.heap[pc.succ].value))
  }

  /** The pop moves the value out of the new first node; nobody else reads it. */
  lemma {:induction false} TakeStep(w: World, h: History, t: nat)
    requires Inv(w, h) && t < |w.pcs| && w.pcs[t].PopTake?
    ensures w.pcs[t].succ in w.heap && Inv(TakeWorld(w, t), h)
  {
    assert ThreadInv(w, h, t);
    TakeLive(w, h, t);
    TakeCore(w, h, t);
    var w' := TakeWorld(w, t);
    forall u | 0 <= u < |w.pcs| ensures ThreadInv(w', h, u) {
      if u == t {
        TakeMover(w, h, t);
      } else {
        assert ThreadInv(w, h, u);
        TakeOther(w, h, t, u);
      }
    }
  }

  lemma TakeLive(w: World, h: History, t: nat)
    requires Base(w, h) && t < |w.pcs| && w.pcs[t].PopTake?
    requires Announced(w, t) && Shields(w, h, t) && Knows(w, h, t)
    ensures Live(h, h.marks[t].head + 1) && h.ids[h.marks[t].head + 1] == w.pcs[t].succ
    ensures h.marks[t].head < |h.fates|
  {
  }

  lemma TakeCore(w: World, h: History, t: nat)
    requires Core(w, h) && t < |w.pcs| && w.pcs[t].PopTake? && w.pcs[t].succ in w.heap
    requires h.marks[t].head < |h.fates|
    requires Live(h, h.marks[t].head + 1) && h.ids[h.marks[t].head + 1] == w.pcs[t].succ
    ensures Core(TakeWorld(w, t), h)
  {
    CountFrame(w, h, t, TakeWorld(w, t).pcs[t], TakeWorld(w, t), h);
  }

  lemma TakeMover(w: World, h: History, t: nat)
    requires Base(w, h) && t < |w.pcs| && w.pcs[t].PopTake? && w.pcs[t].succ in w.heap && ThreadInv(w, h, t)
    ensures ThreadInv(TakeWorld(w, t), h, t)
  {
  }

  lemma TakeOther(w: World, h: History, t: nat, u: nat)
    requires Base(w, h) && Linked(w, h) && t < |w.pcs| && w.pcs[t].PopTake? && w.pcs[t].succ in w.heap
    requires u < |w.pcs| && u != t && ThreadInv(w, h, u)
    requires Knows(w, h, t)
    requires Live(h, h.marks[t].head + 1) && h.ids[h.marks[t].head + 1] == w.pcs[t].succ
    ensures ThreadInv(TakeWorld(w, t), h, u)
  {
    hide Linked, ScanBounds, Announced, Shields, Private;
    if w.pcs[u].PopTake? {
      TakesApart(w, h, t, u);
    }
    TakePrivate(w, h, t, u);
    SparedThread(w, h, TakeWorld(w, t), h, u);
  }

  /** Two pops that take values take different ones. */
  lemma TakesApart(w: World, h: History, t: nat, u: nat)
    requires Base(w, h) && Linked(w, h) && t < |w.pcs| && u < |w.pcs| && u != t
    requires w.pcs[t].PopTake? && w.pcs[u].PopTake? && Knows(w, h, t) && ThreadInv(w, h, u)
    requires Live(h, h.marks[t].head + 1) && h.ids[h.marks[t].head + 1] == w.pcs[t].succ
    ensures w.pcs[u].succ != w.pcs[t].succ
  {
    hide ScanBounds, Private;
    TakeLive(w, h, u);
  }

  lemma TakePrivate(w: World, h: History, t: nat, u: nat)
    requires Base(w, h) && t < |w.pcs| && w.pcs[t].PopTake? && w.pcs[t].succ in w.heap
    requires u < |w.pcs| && u != t && Private(w, h, u)
    requires Live(h, h.marks[t].head + 1) && h.ids[h.marks[t].head + 1] == w.pcs[t].succ
    ensures Private(TakeWorld(w, t), h, u)
  {
  }

  // ---------------------------------------------------------------- retiring

  function RetireWorld(w: World, t: nat, pc: Pc): World
    requires Shaped(w) && t < |w.pcs| && w.pcs[t].PopRetire?
  {
    var slot := w.slots[t];
    Goto(WithSlot(w, t, slot.(retired := slot.retired + [RetiredNode(w.pcs[t].head, w.epoch)])), t, pc)
  }

  function RetireHistory(w: World, h: History, t: nat): History
    requires t < |h.graves| && t < |h.marks| && h.marks[t].head < |h.fates|
  {
    var p := h.marks[t].head;
    h.(fates := h.fates[p := Retired(t, w.epoch)], graves := h.graves[t := h.graves[t] + [p]])
  }

  /** A retired node gets the current epoch, which no active thread's epoch exceeds. */
  lemma {:induction false} RetireStep(w: World, h: History, t: nat, pc: Pc)
    requires Inv(w, h) && t < |w.pcs| && w.pcs[t].PopRetire?
    requires pc == PopBump(w.pcs[t].out) || pc == Leave(Popped(w.pcs[t].out))
    ensures h.marks[t].head < |h.fates| && Inv(RetireWorld(w, t, pc), RetireHistory(w, h, t))
  {
    hide Linked, Buried, Counted, Numbered, Private, ScanBounds, Shields, Announced;
    assert ThreadInv(w, h, t);
    RetireCore(w, h, t, pc);
    var w', h' := RetireWorld(w, t, pc), RetireHistory(w, h, t);
    forall u | 0 <= u < |w.pcs| ensures ThreadInv(w', h', u) {
      assert ThreadInv(w, h, u);
      if u == t {
        RetireMover(w, h, t, pc);
      } else {
        RetireOther(w, h, t, pc, u);
      }
    }
  }

  lemma RetireCore(w: World, h: History, t: nat, pc: Pc)
    requires Core(w, h) && t < |w.pcs| && w.pcs[t].PopRetire? && Knows(w, h, t)
    requires pc == PopBump(w.pcs[t].out) || pc == Leave(Popped(w.pcs[t].out))
    ensures h.marks[t].head < |h.fates| && Core(RetireWorld(w, t, pc), RetireHistory(w, h, t))
  {
    hide Linked, Buried, Counted;
    var w', h' := RetireWorld(w, t, pc), RetireHistory(w, h, t);
    CountFrame(w, h, t, pc, w', h');
    RetireBuried(w, h, t, pc);
    RetireLinked(w, h, t, pc);
  }

  lemma RetireLinked(w: World, h: History, t: nat, pc: Pc)
    requires Base(w, h) && Linked(w, h) && t < |w.pcs| && w.pcs[t].PopRetire? && Knows(w, h, t)
    ensures Linked(RetireWorld(w, t, pc), RetireHistory(w, h, t))
  {
    var h' := RetireHistory(w, h, t);
    assert forall p: nat :: Live(h', p) == Live(h, p);
    assert forall p: nat :: NextId(h', p) == NextId(h, p);
  }

  lemma RetireBuried(w: World, h: History, t: nat, pc: Pc)
    requires Base(w, h) && Buried(w, h) && t < |w.pcs| && w.pcs[t].PopRetire? && Knows(w, h, t)
    ensures Buried(RetireWorld(w, t, pc), RetireHistory(w, h, t))
  {
  }

  lemma RetireMover(w: World, h: History, t: nat, pc: Pc)
    requires Base(w, h) && t < |w.pcs| && w.pcs[t].PopRetire? && ThreadInv(w, h, t)
    requires pc == PopBump(w.pcs[t].out) || pc == Leave(Popped(w.pcs[t].out))
    ensures ThreadInv(RetireWorld(w, t, pc), RetireHistory(w, h, t), t)
  {
  }

  lemma RetireOther(w: World, h: History, t: nat, pc: Pc, u: nat)
    requires Base(w, h) && t < |w.pcs| && w.pcs[t].PopRetire? && Knows(w, h, t)
    requires pc.PopBump? || pc.Leave?
    requires u < |w.pcs| && u != t && ThreadInv(w, h, u)
    ensures ThreadInv(RetireWorld(w, t, pc), RetireHistory(w, h, t), u)
  {
    var w', h' := RetireWorld(w, t, pc), RetireHistory(w, h, t);
    assert forall p: nat :: Live(h', p) == Live(h, p);
    ShieldsFrame(w, h, w', h', u);
    ScanFrame(w, h, w', h', u);
    PrivateFrame(w, h, w', h', u);
    OtherFrame(w, h, w', h', u);
  }

  // ---------------------------------------------------------------- deleting

  function DeleteWorld(w: World, t: nat): World
    requires Shaped(w) && t < |w.pcs| && Deletes(w, t)
  {
    var slot, i := w.slots[t], w.pcs[t].i;
    WithSlot(w.(heap := w.heap - {slot.retired[i].node}), t, slot.(retired := Without(slot.retired, i)))
  }

  function DeleteHistory(h: History, t: nat, i: nat): History
    requires t < |h.graves| && i < |h.graves[t]| && h.graves[t][i] < |h.fates|
  {
    h.(fates := h.fates[h.graves[t][i] := Freed], graves := h.graves[t := Without(h.graves[t], i)])
  }

  /** No active thread entered before the node a sweep deletes was left behind: every slot was scanned,
      so such a thread's epoch would bound the minimum from above and the node's epoch from below. */
  lemma DeleteIsUnshielded(w: World, h: History, t: nat, u: nat)
    requires Core(w, h) && AllThreads(w, h) && t < |w.pcs| && Deletes(w, t) && u < |w.pcs|
    ensures h.graves[t][w.pcs[t].i] < |h.fates|
    ensures w.slots[u].active ==> h.marks[u].enter > h.graves[t][w.pcs[t].i]
  {
    assert ThreadInv(w, h, t) && ThreadInv(w, h, u);
    var i := w.pcs[t].i;
    var p := h.graves[t][i];
    if w.slots[u].active && h.marks[u].enter <= p {
      assert Scanned(w.pcs[t], |w.slots|, u, w.pcs[t].min);
    }
  }

  lemma {:induction false} DeleteStep(w: World, h: History, t: nat)
    requires Inv(w, h) && t < |w.pcs| && Deletes(w, t)
    ensures h.graves[t][w.pcs[t].i] < |h.fates| && w.slots[t].retired[w.pcs[t].i].node in w.heap
    ensures Inv(DeleteWorld(w, t), DeleteHistory(h, t, w.pcs[t].i))
  {
    var p := h.graves[t][w.pcs[t].i];
    DeleteIsUnshielded(w, h, t, t);
    assert Live(h, p);
    DeleteCore(w, h, t);
    var w', h' := DeleteWorld(w, t), DeleteHistory(h, t, w.pcs[t].i);
    forall u | 0 <= u < |w.pcs| ensures ThreadInv(w', h', u) {
      assert ThreadInv(w, h, u);
      DeleteIsUnshielded(w, h, t, u);
      if u == t {
        DeleteMover(w, h, t);
      } else {
        DeleteOther(w, h, t, u);
      }
    }
  }

  lemma DeleteCore(w: World, h: History, t: nat)
    requires Core(w, h) && t < |w.pcs| && Deletes(w, t)
    requires Live(h, h.graves[t][w.pcs[t].i]) && h.graves[t][w.pcs[t].i] < |h.fates|
    ensures Core(DeleteWorld(w, t), DeleteHistory(h, t, w.pcs[t].i))
  {
    DeleteLinked(w, h, t);
    DeleteBuried(w, h, t);
    DeleteRest(w, h, t);
  }

  lemma DeleteRest(w: World, h: History, t: nat)
    requires Base(w, h) && Numbered(w, h) && Counted(w, h) && t < |w.pcs| && Deletes(w, t)
    requires h.graves[t][w.pcs[t].i] < |h.fates|
    ensures Base(DeleteWorld(w, t), DeleteHistory(h, t, w.pcs[t].i))
    ensures Numbered(DeleteWorld(w, t), DeleteHistory(h, t, w.pcs[t].i))
    ensures Counted(DeleteWorld(w, t), DeleteHistory(h, t, w.pcs[t].i))
  {
  }

  lemma DeleteLinked(w: World, h: History, t: nat)
    requires Base(w, h) && Linked(w, h) && Buried(w, h) && t < |w.pcs| && Deletes(w, t)
    requires Live(h, h.graves[t][w.pcs[t].i]) && h.graves[t][w.pcs[t].i] < |h.fates|
    ensures Linked(DeleteWorld(w, t), DeleteHistory(h, t, w.pcs[t].i))
  {
    var h' := DeleteHistory(h, t, w.pcs[t].i);
    assert forall p: nat :: Live(h', p) <==> Live(h, p) && p != h.graves[t][w.pcs[t].i];
    assert forall p: nat :: NextId(h', p) == NextId(h, p);
  }

  lemma DeleteBuried(w: World, h: History, t: nat)
    requires Base(w, h) && Buried(w, h) && t < |w.pcs| && Deletes(w, t)
    requires h.graves[t][w.pcs[t].i] < |h.fates|
    ensures Buried(DeleteWorld(w, t), DeleteHistory(h, t, w.pcs[t].i))
  {
  }

  lemma DeleteMover(w: World, h: History, t: nat)
    requires Base(w, h) && Buried(w, h) && t < |w.pcs| && Deletes(w, t)
    requires ThreadInv(w, h, t)
    requires h.graves[t][w.pcs[t].i] < |h.fates|
    requires h.marks[t].enter > h.graves[t][w.pcs[t].i]
    ensures ThreadInv(DeleteWorld(w, t), DeleteHistory(h, t, w.pcs[t].i), t)
  {
    var w', h' := DeleteWorld(w, t), DeleteHistory(h, t, w.pcs[t].i);
    ShieldsFrame(w, h, w', h', t);
    assert ScanBounds(w', h', t);
  }

  lemma DeleteOther(w: World, h: History, t: nat, u: nat)
    requires Base(w, h) && Linked(w, h) && Buried(w, h) && t < |w.pcs| && Deletes(w, t) && |h.fates| == h.headPos
    requires u < |w.pcs| && u != t && ThreadInv(w, h, u)
    requires Live(h, h.graves[t][w.pcs[t].i]) && h.graves[t][w.pcs[t].i] < |h.fates|
    requires w.slots[u].active ==> h.marks[u].enter > h.graves[t][w.pcs[t].i]
    ensures ThreadInv(DeleteWorld(w, t), DeleteHistory(h, t, w.pcs[t].i), u)
  {
    var w', h' := DeleteWorld(w, t), DeleteHistory(h, t, w.pcs[t].i);
    assert forall p: nat | Live(h', p) :: Live(h, p);
    if w.pcs[u].PopTake? {
      TakeLive(w, h, u);
    }
    ShieldsFrame(w, h, w', h', u);
    ScanFrame(w, h, w', h', u);
    PrivateFrame(w, h, w', h', u);
    OtherFrame(w, h, w', h', u);
  }
}
