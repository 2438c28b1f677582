/** Each program point of `MpmcQueue`, and with them every step, keeps the invariant. */
module MpmcSteps {
  import opened Wrappers
  import opened MpmcQueue
  import opened MpmcInvariant
  import opened MpmcProof

  // ---------------------------------------------------------------- every step keeps the invariant

  /** The node an active thread remembers under a number it entered before is linked and allocated. */
  lemma HeldIsLive(w: World, h: History, t: nat, p: nat, ptr: Ptr)
    requires Base(w, h) && Linked(w, h) && t < |w.pcs|
    requires Shields(w, h, t) && w.slots[t].active && At(h, t, p, ptr)
    ensures Live(h, p) && ptr in w.heap && w.heap[ptr].next == NextId(h, p)
  {
    assert Live(h, p);
  }

  lemma EnterKeeps(w: World, h: History, t: nat, c: Choice)
    requires Inv(w, h) && t < |w.pcs|
    requires !Inside(w.pcs[t]) || w.pcs[t].Leave?
    ensures Inv(Step(w, t, c), Record(w, h, t, c))
  {
    hide Inv, Step, Record;
    if w.pcs[t].ClaimLoad? || w.pcs[t].Idle? || w.pcs[t].EnterLoad? {
      EnterLoadsKeep(w, h, t, c);
    } else {
      EnterStoresKeep(w, h, t, c);
    }
  }

  lemma EnterLoadsKeep(w: World, h: History, t: nat, c: Choice)
    requires Inv(w, h) && t < |w.pcs| && (w.pcs[t].ClaimLoad? || w.pcs[t].Idle? || w.pcs[t].EnterLoad?)
    ensures Inv(Step(w, t, c), Record(w, h, t, c))
  {
    hide Linked, Buried, Counted, Private, ScanBounds, Shields;
    assert ThreadInv(w, h, t);
    var m := h.marks[t];
    assert Mark(h, t, m) == h;
    NoScan(w, h, t, Step(w, t, c).pcs[t]);
    match w.pcs[t]
    case ClaimLoad => QuietStep(w, h, t, ClaimStore(w.epoch), m);
    case Idle => QuietStep(w, h, t, EnterLoad(c.op), m.(sawEmpty := false));
    case EnterLoad(op) => QuietStep(w, h, t, EnterStore(op, w.epoch), m);
  }

  lemma EnterStoresKeep(w: World, h: History, t: nat, c: Choice)
    requires Inv(w, h) && t < |w.pcs| && (!Inside(w.pcs[t]) || w.pcs[t].Leave?)
    requires !w.pcs[t].ClaimLoad? && !w.pcs[t].Idle? && !w.pcs[t].EnterLoad?
    ensures Inv(Step(w, t, c), Record(w, h, t, c))
  {
    hide Linked, Buried, Counted, Private;
    assert ThreadInv(w, h, t);
    var slot, m := w.slots[t], h.marks[t];
    assert Mark(h, t, m) == h;
    match w.pcs[t]
    case Free => SlotStep(w, h, t, slot.(occupied := true, retired := []), ClaimLoad, m);
    case ClaimStore(e) => SlotStep(w, h, t, slot.(epoch := e), Idle, m);
    case EnterStore(op, e) => SlotStep(w, h, t, slot.(epoch := e), EnterPublish(op), m);
    case EnterPublish(op) =>
      SlotStep(w, h, t, slot.(active := true), if op.Push? then PushAlloc(op.value) else PopHead, m.(enter := h.headPos));
    case Leave(_) => SlotStep(w, h, t, slot.(active := false), Idle, m);
  }

  lemma PushTailKeeps(w: World, h: History, t: nat, c: Choice)
    requires Inv(w, h) && t < |w.pcs| && w.pcs[t].PushTail?
    ensures Inv(Step(w, t, c), Record(w, h, t, c))
  {
    hide Linked, Buried, Counted, Private, ScanBounds;
    assert ThreadInv(w, h, t);
    var pc := PushNext(w.pcs[t].v, w.pcs[t].n, w.tail);
    NoScan(w, h, t, pc);
    QuietStep(w, h, t, pc, h.marks[t].(tail := h.tailPos));
  }

  lemma PushNextKeeps(w: World, h: History, t: nat, c: Choice)
    requires Inv(w, h) && t < |w.pcs| && w.pcs[t].PushNext?
    ensures Inv(Step(w, t, c), Record(w, h, t, c))
  {
    hide Linked, Numbered, Buried, Counted, Private, ScanBounds, Shields;
    assert ThreadInv(w, h, t);
    var pc, m := w.pcs[t], h.marks[t];
    HeldIsLive(w, h, t, m.tail, pc.tail);
    var pc' := PushCheck(pc.v, pc.n, pc.tail, w.heap[pc.tail].next);
    NoScan(w, h, t, pc');
    assert Mark(h, t, m) == h;
    QuietStep(w, h, t, pc', m);
  }

  lemma PushCheckKeeps(w: World, h: History, t: nat, c: Choice)
    requires Inv(w, h) && t < |w.pcs| && w.pcs[t].PushCheck?
    ensures Inv(Step(w, t, c), Record(w, h, t, c))
  {
    hide Linked, Numbered, Buried, Counted, Private, ScanBounds, Shields;
    assert ThreadInv(w, h, t);
    NoScan(w, h, t, Step(w, t, c).pcs[t]);
    assert Mark(h, t, h.marks[t]) == h;
    QuietStep(w, h, t, Step(w, t, c).pcs[t], h.marks[t]);
  }

  lemma PushLinkKeeps(w: World, h: History, t: nat, c: Choice)
    requires Inv(w, h) && t < |w.pcs| && w.pcs[t].PushLink?
    ensures Inv(Step(w, t, c), Record(w, h, t, c))
  {
    hide Linked, Buried, Counted, Private, ScanBounds, Shields;
    assert ThreadInv(w, h, t);
    HeldIsLive(w, h, t, h.marks[t].tail, w.pcs[t].tail);
    if Links(w, w.pcs[t], c) {
      LinkStep(w, h, t, c);
    } else {
      assert Mark(h, t, h.marks[t]) == h;
      NoScan(w, h, t, PushTail(w.pcs[t].v, w.pcs[t].n));
      QuietStep(w, h, t, PushTail(w.pcs[t].v, w.pcs[t].n), h.marks[t]);
    }
  }

  lemma PushSwingsKeep(w: World, h: History, t: nat, c: Choice)
    requires Inv(w, h) && t < |w.pcs| && (w.pcs[t].PushHelp? || w.pcs[t].PushSwing?)
    ensures Inv(Step(w, t, c), Record(w, h, t, c))
  {
    hide Linked, Buried, Counted, Private, Shields, ScanBounds;
    assert Mark(h, t, h.marks[t]) == h;
    var pc := if w.pcs[t].PushHelp? then PushTail(w.pcs[t].v, w.pcs[t].n) else PushCount;
    if SwingsTail(w, w.pcs[t], c) {
      SwingKeeps(w, h, t, if w.pcs[t].PushHelp? then w.pcs[t].succ else w.pcs[t].n, pc);
    } else {
      NoScan(w, h, t, pc);
      QuietStep(w, h, t, pc, h.marks[t]);
    }
  }

  /** Outside a scan there is nothing to bound. */
  lemma NoScan(w: World, h: History, t: nat, pc: Pc)
    requires Fits(w, h) && t < |w.pcs|
    requires !pc.ScanOccupied? && !pc.ScanActive? && !pc.ScanEpoch? && !pc.Sweep?
    ensures forall m: Marks :: ScanBounds(Goto(w, t, pc), Mark(h, t, m), t)
  {
  }

  /** A successful compare-and-swap on `tail_` moves it to the very next node. */
  lemma {:induction false} SwingKeeps(w: World, h: History, t: nat, succ: Ptr, pc: Pc)
    requires Inv(w, h) && t < |w.pcs|
    requires w.pcs[t].PushHelp? || w.pcs[t].PushSwing? || w.pcs[t].PopHelp?
    requires w.tail == w.pcs[t].tail
    requires succ == if w.pcs[t].PushSwing? then w.pcs[t].n else w.pcs[t].succ
    requires Quiet(w.pcs[t], pc, w.epoch) && (pc.PushTail? || pc.PushCount? || pc.PopHead?)
    ensures Inv(Goto(w.(tail := succ), t, pc), h.(tailPos := h.tailPos + 1))
  {
    hide Linked, Buried, Counted, Private, Shields;
    SwingAtTail(w, h, t);
    TailMoves(w, h);
    var w1, h1 := w.(tail := succ), h.(tailPos := h.tailPos + 1);
    assert Mark(h1, t, h1.marks[t]) == h1;
    QuietStep(w1, h1, t, pc, h1.marks[t]);
  }

  lemma SwingAtTail(w: World, h: History, t: nat)
    requires Core(w, h) && t < |w.pcs| && ThreadInv(w, h, t)
    requires w.pcs[t].PushHelp? || w.pcs[t].PushSwing? || w.pcs[t].PopHelp?
    requires w.tail == w.pcs[t].tail
    ensures h.marks[t].tail == h.tailPos && h.tailPos + 1 < |h.ids|
    ensures h.ids[h.tailPos + 1] == if w.pcs[t].PushSwing? then w.pcs[t].n else w.pcs[t].succ
  {
    hide Buried, Counted, Private;
    HeldIsLive(w, h, t, h.marks[t].tail, w.pcs[t].tail);
    assert Live(h, h.tailPos);
  }

  lemma PopLoadsKeep(w: World, h: History, t: nat, c: Choice)
    requires Inv(w, h) && t < |w.pcs| && (w.pcs[t].PopHead? || w.pcs[t].PopTail?)
    ensures Inv(Step(w, t, c), Record(w, h, t, c))
  {
    hide Linked, Buried, Counted, Private, ScanBounds;
    assert ThreadInv(w, h, t);
    var m, pc := h.marks[t], w.pcs[t];
    NoScan(w, h, t, Step(w, t, c).pcs[t]);
    if pc.PopHead? {
      QuietStep(w, h, t, PopTail(w.head), m.(head := h.headPos));
    } else {
      QuietStep(w, h, t, PopNext(pc.head, w.tail), m.(tail := h.tailPos));
    }
  }

  lemma PopNextKeeps(w: World, h: History, t: nat, c: Choice)
    requires Inv(w, h) && t < |w.pcs| && w.pcs[t].PopNext?
    ensures Inv(Step(w, t, c), Record(w, h, t, c))
  {
    hide Linked, Numbered, Buried, Counted, Private, ScanBounds, Shields;
    var m, pc := h.marks[t], w.pcs[t];
    NullNextMeansEmpty(w, h, t);
    var next := w.heap[pc.head].next;
    assert ThreadInv(w, h, t);
    assert Mark(h, t, m) == h;
    NoScan(w, h, t, PopCheck(pc.head, pc.tail, next));
    QuietStep(w, h, t, PopCheck(pc.head, pc.tail, next), if next.None? then m.(sawEmpty := true) else m);
  }

  /** A pop that loads a null `next` sees the queue empty at that very step. */
  lemma {:induction false} NullNextMeansEmpty(w: World, h: History, t: nat)
    requires Inv(w, h) && t < |w.pcs| && w.pcs[t].PopNext?
    ensures w.pcs[t].head in w.heap && w.heap[w.pcs[t].head].next == NextId(h, h.marks[t].head)
    ensures w.heap[w.pcs[t].head].next.None? ==> h.headPos == |h.vals|
  {
    hide Buried, Counted, Private, ScanBounds;
    assert ThreadInv(w, h, t);
    HeldIsLive(w, h, t, h.marks[t].head, w.pcs[t].head);
  }

  lemma PopCheckKeeps(w: World, h: History, t: nat, c: Choice)
    requires Inv(w, h) && t < |w.pcs| && w.pcs[t].PopCheck?
    ensures Inv(Step(w, t, c), Record(w, h, t, c))
  {
    hide Linked, Buried, Counted, Private, ScanBounds;
    assert ThreadInv(w, h, t);
    assert Mark(h, t, h.marks[t]) == h;
    if w.pcs[t].head == w.pcs[t].tail {
      HeldOnce(w, h, t, h.marks[t].head, h.marks[t].tail, w.pcs[t].head);
    }
    NoScan(w, h, t, Step(w, t, c).pcs[t]);
    QuietStep(w, h, t, Step(w, t, c).pcs[t], h.marks[t]);
  }

  /** An active thread cannot know one address under two numbers. */
  lemma HeldOnce(w: World, h: History, t: nat, p: nat, q: nat, ptr: Ptr)
    requires Base(w, h) && Linked(w, h) && t < |w.pcs|
    requires Shields(w, h, t) && w.slots[t].active && At(h, t, p, ptr) && At(h, t, q, ptr)
    ensures p == q
  {
    HeldIsLive(w, h, t, p, ptr);
    HeldIsLive(w, h, t, q, ptr);
  }

  lemma PopSwapsKeep(w: World, h: History, t: nat, c: Choice)
    requires Inv(w, h) && t < |w.pcs|
    requires w.pcs[t].PopHelp? || w.pcs[t].PopSwing?
    ensures Inv(Step(w, t, c), Record(w, h, t, c))
  {
    hide Linked, Buried, Counted, Private, Shields;
    assert ThreadInv(w, h, t);
    var m := h.marks[t];
    assert Mark(h, t, m) == h;
    if w.pcs[t].PopHelp? && SwingsTail(w, w.pcs[t], c) {
      SwingKeeps(w, h, t, w.pcs[t].succ, PopHead);
    } else if SwingsHead(w, w.pcs[t], c) {
      HeadStep(w, h, t);
    } else {
      QuietStep(w, h, t, PopHead, m);
    }
  }

  lemma PopEndsKeep(w: World, h: History, t: nat, c: Choice)
    requires Inv(w, h) && t < |w.pcs|
    requires w.pcs[t].PopTake? || w.pcs[t].PopCount? || w.pcs[t].PopRetire?
    ensures Inv(Step(w, t, c), Record(w, h, t, c))
  {
    hide Linked, Buried, Counted, Private, Shields, ScanBounds;
    assert ThreadInv(w, h, t);
    match w.pcs[t]
    case PopTake(_, _) => TakeStep(w, h, t);
    case PopCount(head, out) => SizeStep(w, h, t, (w.size + (WORD - 1)) % WORD, PopRetire(head, out));
    case PopRetire(_, _) => RetireStep(w, h, t, Step(w, t, c).pcs[t]);
  }

  /** The scan: passing a slot that is not active, or whose epoch has been taken into the minimum. */
  lemma {:induction false} ScanKeeps(w: World, h: History, t: nat, c: Choice)
    requires Inv(w, h) && t < |w.pcs|
    requires w.pcs[t].ScanStart? || w.pcs[t].ScanOccupied? || w.pcs[t].ScanActive? || w.pcs[t].ScanEpoch?
    ensures Inv(Step(w, t, c), Record(w, h, t, c))
  {
    hide Linked, Buried, Counted, Private, Shields;
    assert ThreadInv(w, h, t);
    var m, pc := h.marks[t], Step(w, t, c).pcs[t];
    assert Mark(h, t, m) == h;
    ScanAdvances(w, h, t, c);
    QuietStep(w, h, t, pc, m);
  }

  lemma ScanAdvances(w: World, h: History, t: nat, c: Choice)
    requires Base(w, h) && AllThreads(w, h) && t < |w.pcs|
    requires w.pcs[t].ScanStart? || w.pcs[t].ScanOccupied? || w.pcs[t].ScanActive? || w.pcs[t].ScanEpoch?
    ensures ScanBounds(Step(w, t, c), h, t)
  {
    hide Knows, Private, Shields;
    assert ThreadInv(w, h, t);
    var w' := Step(w, t, c);
    forall u, i, min: nat | 0 <= u < |w.slots| && 0 <= i < |h.graves[t]| && Scanned(w'.pcs[t], |w.slots|, u, min)
                            && w.slots[u].active && h.marks[u].enter <= h.graves[t][i]
      ensures min <= w.slots[u].epoch
    {
      assert ThreadInv(w, h, u);
      assert w.pcs[t].min >= min && (u < w.pcs[t].k || u == w.pcs[t].k);
      if u < w.pcs[t].k {
        assert Scanned(w.pcs[t], |w.slots|, u, w.pcs[t].min);
      }
    }
  }

  lemma SweepKeeps(w: World, h: History, t: nat, c: Choice)
    requires Inv(w, h) && t < |w.pcs| && w.pcs[t].Sweep?
    ensures Inv(Step(w, t, c), Record(w, h, t, c))
  {
    hide Linked, Buried, Counted, Private, Shields;
    assert ThreadInv(w, h, t);
    var m, pc := h.marks[t], w.pcs[t];
    assert Mark(h, t, m) == h;
    if Deletes(w, t) {
      DeleteStep(w, h, t);
    } else if pc.i < |w.slots[t].retired| {
      SweepAdvances(w, h, t);
      QuietStep(w, h, t, pc.(i := pc.i + 1), m);
    } else {
      QuietStep(w, h, t, Leave(Popped(pc.out)), m);
    }
  }

  lemma SweepAdvances(w: World, h: History, t: nat)
    requires Fits(w, h) && t < |w.pcs| && w.pcs[t].Sweep? && ScanBounds(w, h, t)
    ensures ScanBounds(Goto(w, t, w.pcs[t].(i := w.pcs[t].i + 1)), h, t)
  {
    var pc' := w.pcs[t].(i := w.pcs[t].i + 1);
    forall u, i, min: nat | 0 <= u < |w.slots| && 0 <= i < |h.graves[t]| && Scanned(pc', |w.slots|, u, min)
                            && w.slots[u].active && h.marks[u].enter <= h.graves[t][i]
      ensures min <= w.slots[u].epoch
    {
      assert Scanned(w.pcs[t], |w.slots|, u, min);
    }
  }

  /** Every step of every thread keeps the invariant, as long as the epoch counter does not run out. */
  lemma {:induction false} StepKeeps(w: World, h: History, t: nat, c: Choice)
    requires Inv(w, h) && t < |w.pcs|
    requires NoWrap(Step(w, t, c))
    ensures Inv(Step(w, t, c), Record(w, h, t, c))
  {
    hide Linked, Buried, Counted, Numbered, ThreadInv;
    var pc := w.pcs[t];
    if !Inside(pc) || pc.Leave? {
      EnterKeeps(w, h, t, c);
    } else if pc.PushAlloc? {
      if c.addr !in w.heap {
        AllocStep(w, h, t, c);
      }
    } else if pc.PushTail? {
      PushTailKeeps(w, h, t, c);
    } else if pc.PushNext? {
      PushNextKeeps(w, h, t, c);
    } else if pc.PushCheck? {
      PushCheckKeeps(w, h, t, c);
    } else if pc.PushLink? {
      PushLinkKeeps(w, h, t, c);
    } else if pc.PushHelp? || pc.PushSwing? {
      PushSwingsKeep(w, h, t, c);
    } else if pc.PushCount? {
      SizeStep(w, h, t, (w.size + 1) % WORD, Leave(Pushed));
    } else if pc.PopHead? || pc.PopTail? {
      PopLoadsKeep(w, h, t, c);
    } else if pc.PopNext? {
      PopNextKeeps(w, h, t, c);
    } else if pc.PopCheck? {
      PopCheckKeeps(w, h, t, c);
    } else if pc.PopHelp? || pc.PopSwing? {
      PopSwapsKeep(w, h, t, c);
    } else if pc.PopTake? || pc.PopCount? || pc.PopRetire? {
      PopEndsKeep(w, h, t, c);
    } else if pc.PopBump? {
      BumpKeeps(w, h, t, c);
    } else if pc.Sweep? {
      SweepKeeps(w, h, t, c);
    } else {
      ScanKeeps(w, h, t, c);
    }
  }

  lemma BumpKeeps(w: World, h: History, t: nat, c: Choice)
    requires Inv(w, h) && t < |w.pcs| && w.pcs[t].PopBump?
    requires NoWrap(Step(w, t, c))
    ensures Inv(Step(w, t, c), Record(w, h, t, c))
  {
    hide Linked, Buried, Counted, Private, Shields;
    assert ThreadInv(w, h, t);
    EpochMoves(w, h);
    assert Mark(h, t, h.marks[t]) == h;
    QuietStep(w.(epoch := w.epoch + 1), h, t, ScanStart(w.pcs[t].out), h.marks[t]);
  }
}
