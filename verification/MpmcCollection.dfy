/**
What a collection leaves. A scan may only keep a retired node back for an operation that it saw: whatever is left is
no older than an epoch published by a slot that was active while the scan went on.
*/
module MpmcCollection {
  import opened Wrappers
  import opened MpmcQueue
  import opened MpmcInvariant
  import opened MpmcResults

  // ---------------------------------------------------------------- one step

  /** From the start of the scan to the end of the sweep. */
  predicate Collecting(pc: Pc) {
    pc.ScanOccupied? || pc.ScanActive? || pc.ScanEpoch? || pc.Sweep?
  }

  function MinOf(pc: Pc): nat
    requires Collecting(pc)
  {
    pc.min
  }

  lemma OnlyMoverSlot(w: World, t: nat, c: Choice, u: nat)
    requires Shaped(w) && t < |w.pcs| && u < |w.pcs| && u != t
    ensures Step(w, t, c).slots[u] == w.slots[u] && Step(w, t, c).pcs[u] == w.pcs[u]
  {
    hide Step;
    OnlyMoverSteps(w, t, c, u);
    OtherSlotStays(w, t, c, u);
  }

  lemma OtherSlotStays(w: World, t: nat, c: Choice, u: nat)
    requires Shaped(w) && t < |w.pcs| && u < |w.pcs| && u != t
    ensures Step(w, t, c).slots[u] == w.slots[u]
  {
    hide Links, SwingsTail, SwingsHead, Deletes, Without, AfterScan;
  }

  /** A popped node is retired in the epoch of that moment, and the pop goes on to collect exactly if it has
      retired 32 or more. */
  lemma RetiresNow(w: World, t: nat, c: Choice)
    requires Shaped(w) && t < |w.pcs| && w.pcs[t].PopRetire?
    ensures var w', pc := Step(w, t, c), w.pcs[t];
      && w'.slots[t].retired == w.slots[t].retired + [RetiredNode(pc.head, w.epoch)]
      && w'.pcs[t] == if |w.slots[t].retired| + 1 >= 32 then PopBump(pc.out) else Leave(Popped(pc.out))
  {
  }

  // ---------------------------------------------------------------- ages of retired nodes

  /** Nothing is retired in the future, and a scan that is due starts after everything its thread retired. */
  ghost predicate AgesOk(w: World, t: nat)
    requires Shaped(w) && t < |w.pcs|
  {
    forall r | r in w.slots[t].retired :: r.epoch <= w.epoch && (w.pcs[t].ScanStart? || Collecting(w.pcs[t]) ==> r.epoch < w.epoch)
  }

  /** What the sweep has passed is not below the minimum. */
  ghost predicate SweptOk(w: World, t: nat)
    requires Shaped(w) && t < |w.pcs|
  {
    w.pcs[t].Sweep? ==>
      forall j | 0 <= j < w.pcs[t].i && j < |w.slots[t].retired| :: w.slots[t].retired[j].epoch >= w.pcs[t].min
  }

  ghost predicate Tidy(w: World)
    requires Shaped(w)
  {
    forall t | 0 <= t < |w.pcs| :: AgesOk(w, t) && SweptOk(w, t)
  }

  lemma EpochNeverFalls(w: World, t: nat, c: Choice)
    requires Shaped(w) && t < |w.pcs| && NoWrap(w)
    ensures Step(w, t, c).epoch == if w.pcs[t].PopBump? then w.epoch + 1 else w.epoch
  {
    hide Links, SwingsTail, SwingsHead, Deletes, Without, AfterScan;
  }

  lemma MoverIsTidy(w: World, t: nat, c: Choice)
    requires Shaped(w) && t < |w.pcs| && NoWrap(w) && AgesOk(w, t) && SweptOk(w, t)
    ensures AgesOk(Step(w, t, c), t) && SweptOk(Step(w, t, c), t)
  {
    var pc := w.pcs[t];
    if pc.Sweep? || pc.PopRetire? {
      OwnSweep(w, t, c);
    } else if pc.ScanStart? || Collecting(pc) || pc.PopBump? {
      OwnScan(w, t, c);
    } else {
      hide Step;
      OthersRetireNothing(w, t, c);
      OthersDoNotCollect(w, t, c);
      EpochNeverFalls(w, t, c);
    }
  }

  lemma OwnSweep(w: World, t: nat, c: Choice)
    requires Shaped(w) && t < |w.pcs| && (w.pcs[t].Sweep? || w.pcs[t].PopRetire?) && AgesOk(w, t) && SweptOk(w, t)
    ensures AgesOk(Step(w, t, c), t) && SweptOk(Step(w, t, c), t)
  {
    assert Step(w, t, c) == StepReclaim(w, t, c);
    hide Step;
  }

  lemma OwnScan(w: World, t: nat, c: Choice)
    requires Shaped(w) && t < |w.pcs| && NoWrap(w) && AgesOk(w, t) && SweptOk(w, t)
    requires w.pcs[t].ScanStart? || w.pcs[t].PopBump? || (Collecting(w.pcs[t]) && !w.pcs[t].Sweep?)
    ensures AgesOk(Step(w, t, c), t) && SweptOk(Step(w, t, c), t)
  {
    assert Step(w, t, c) == StepReclaim(w, t, c);
    hide Step;
    assert StepReclaim(w, t, c).slots == w.slots;
  }

  predicate Elsewhere(pc: Pc) {
    !pc.Sweep? && !pc.PopRetire? && !pc.ScanStart? && !Collecting(pc) && !pc.PopBump?
  }

  lemma OthersRetireNothing(w: World, t: nat, c: Choice)
    requires Shaped(w) && t < |w.pcs| && Elsewhere(w.pcs[t])
    ensures var r := Step(w, t, c).slots[t].retired; r == w.slots[t].retired || r == []
  {
    hide Links, SwingsTail, SwingsHead, StepReclaim;
  }

  lemma StepIsTidy(w: World, t: nat, c: Choice)
    requires Shaped(w) && t < |w.pcs| && NoWrap(w) && Tidy(w)
    ensures Tidy(Step(w, t, c))
  {
    hide Step;
    var w' := Step(w, t, c);
    MoverIsTidy(w, t, c);
    EpochNeverFalls(w, t, c);
    forall u | 0 <= u < |w'.pcs| ensures AgesOk(w', u) && SweptOk(w', u) {
      if u != t {
        OnlyMoverSlot(w, t, c, u);
        assert AgesOk(w, u) && SweptOk(w, u);
      }
    }
  }

  lemma {:induction false} RunIsTidy(n: nat, stub: Ptr, sched: seq<Tick>)
    requires IsSchedule(n, sched) && EpochLasts(n, stub, sched)
    ensures Tidy(Run(n, stub, sched))
    decreases |sched|
  {
    hide Step, EpochLasts, Tidy;
    if sched == [] {
      InitialIsTidy(n, stub);
    } else {
      var last, before := sched[|sched| - 1], sched[..|sched| - 1];
      EpochLasted(n, stub, sched);
      RunIsTidy(n, stub, before);
      LastsNow(n, stub, before);
      StepIsTidy(Run(n, stub, before), last.thread, last.choice);
    }
  }

  lemma InitialIsTidy(n: nat, stub: Ptr)
    ensures Tidy(Initial(n, stub))
  {
  }

  lemma LastsNow(n: nat, stub: Ptr, sched: seq<Tick>)
    requires IsSchedule(n, sched) && EpochLasts(n, stub, sched)
    ensures NoWrap(Run(n, stub, sched))
  {
    assert sched[..|sched|] == sched;
  }

  // ---------------------------------------------------------------- the scan that is going on

  /** The world before step `i` of a schedule. */
  ghost function Moment(n: nat, stub: Ptr, sched: seq<Tick>, i: nat): (w: World)
    requires IsSchedule(n, sched) && i <= |sched|
    ensures Shaped(w) && |w.pcs| == n
  {
    Run(n, stub, sched[..i])
  }

  /** Step `s` is the start of the scan that thread `t` is in or has just swept after. */
  ghost predicate Began(n: nat, stub: Ptr, sched: seq<Tick>, t: nat, s: nat)
    requires IsSchedule(n, sched) && t < n
  {
    && s < |sched|
    && sched[s].thread == t
    && Moment(n, stub, sched, s).pcs[t].ScanStart?
    && forall i | s < i <= |sched| :: Collecting(Moment(n, stub, sched, i).pcs[t])
  }

  /** At some moment since `s` slot `u` was occupied and active. */
  ghost predicate WasActive(n: nat, stub: Ptr, sched: seq<Tick>, s: nat, u: nat, j: nat)
    requires IsSchedule(n, sched)
  {
    && s <= j <= |sched| && u < n
    && Moment(n, stub, sched, j).slots[u].occupied
    && Moment(n, stub, sched, j).slots[u].active
  }

  /** `e` was the epoch of a slot at a moment since `s`, after it had been seen active since `s`. */
  ghost predicate Published(n: nat, stub: Ptr, sched: seq<Tick>, s: nat, e: nat)
    requires IsSchedule(n, sched)
  {
    exists u: nat, j: nat, k: nat ::
      && WasActive(n, stub, sched, s, u, j)
      && j <= k <= |sched|
      && Moment(n, stub, sched, k).slots[u].epoch == e
  }

  lemma PrefixAt(n: nat, stub: Ptr, sched: seq<Tick>, i: nat)
    requires IsSchedule(n, sched) && i < |sched|
    ensures IsSchedule(n, sched[..|sched| - 1]) && Moment(n, stub, sched[..|sched| - 1], i) == Moment(n, stub, sched, i)
  {
    assert sched[..|sched| - 1][..i] == sched[..i];
  }

  lemma BeganGrows(n: nat, stub: Ptr, sched: seq<Tick>, t: nat, s: nat)
    requires IsSchedule(n, sched) && t < n && sched != [] && Began(n, stub, sched[..|sched| - 1], t, s)
    requires Collecting(Run(n, stub, sched).pcs[t])
    ensures Began(n, stub, sched, t, s)
  {
    hide Run, Collecting;
    assert sched[..|sched|] == sched;
    PrefixAt(n, stub, sched, s);
    forall i | s < i <= |sched| ensures Collecting(Moment(n, stub, sched, i).pcs[t]) {
      if i < |sched| {
        PrefixAt(n, stub, sched, i);
      }
    }
  }

  lemma ActiveGrows(n: nat, stub: Ptr, sched: seq<Tick>, s: nat, u: nat, j: nat)
    requires IsSchedule(n, sched) && sched != [] && WasActive(n, stub, sched[..|sched| - 1], s, u, j)
    ensures WasActive(n, stub, sched, s, u, j)
  {
    PrefixAt(n, stub, sched, j);
  }

  lemma PublishedGrows(n: nat, stub: Ptr, sched: seq<Tick>, s: nat, e: nat)
    requires IsSchedule(n, sched) && sched != [] && Published(n, stub, sched[..|sched| - 1], s, e)
    ensures Published(n, stub, sched, s, e)
  {
    hide Run;
    var before := sched[..|sched| - 1];
    var u: nat, j: nat, k: nat :| WasActive(n, stub, before, s, u, j) && j <= k <= |before|
                                  && Moment(n, stub, before, k).slots[u].epoch == e;
    ActiveGrows(n, stub, sched, s, u, j);
    PrefixAt(n, stub, sched, k);
  }

  /** The minimum of a scan is where it started or an epoch published since. */
  ghost predicate MinFrom(n: nat, stub: Ptr, sched: seq<Tick>, s: nat, min: nat)
    requires IsSchedule(n, sched) && s <= |sched|
  {
    min == Moment(n, stub, sched, s).epoch + 1 || Published(n, stub, sched, s, min)
  }

  /** A scan that is about to read an epoch has seen its slot active. */
  ghost predicate Reading(n: nat, stub: Ptr, sched: seq<Tick>, s: nat, pc: Pc)
    requires IsSchedule(n, sched)
  {
    pc.ScanEpoch? ==> exists j: nat :: WasActive(n, stub, sched, s, pc.k, j)
  }

  lemma ActiveIsOccupied(n: nat, stub: Ptr, sched: seq<Tick>, u: nat)
    requires IsSchedule(n, sched) && EpochLasts(n, stub, sched) && u < n && Run(n, stub, sched).slots[u].active
    ensures Run(n, stub, sched).slots[u].occupied
  {
    hide Run, EpochLasts, Linked, Buried, Counted, Numbered, Explains;
    var h, _ := HistoryOf(n, stub, sched);
    assert Announced(Run(n, stub, sched), u) by {
      assert ThreadInv(Run(n, stub, sched), h, u);
    }
  }

  /** How one step of a collecting thread moves its minimum. */
  lemma CollectorSteps(w: World, t: nat, c: Choice)
    requires Shaped(w) && t < |w.pcs| && NoWrap(w) && Collecting(Step(w, t, c).pcs[t])
    ensures var pc, pc' := w.pcs[t], Step(w, t, c).pcs[t];
      && (pc.ScanStart? || Collecting(pc))
      && (pc.ScanStart? ==> !pc'.ScanEpoch? && pc'.min == w.epoch + 1)
      && (Collecting(pc) ==>
            || pc'.min == pc.min
            || (pc.ScanEpoch? && pc.k < |w.slots| && pc'.min == w.slots[pc.k].epoch))
      && (Collecting(pc) && pc'.ScanEpoch? ==>
            || pc' == pc
            || (pc.ScanActive? && pc'.k == pc.k < |w.slots| && w.slots[pc.k].active))
  {
    hide Links, SwingsTail, SwingsHead, Without;
    if !(w.pcs[t].ScanStart? || Collecting(w.pcs[t])) {
      OthersDoNotCollect(w, t, c);
    }
  }

  lemma OthersDoNotCollect(w: World, t: nat, c: Choice)
    requires Shaped(w) && t < |w.pcs| && !w.pcs[t].ScanStart? && !Collecting(w.pcs[t])
    ensures !Collecting(Step(w, t, c).pcs[t])
    ensures !w.pcs[t].PopBump? ==> !Step(w, t, c).pcs[t].ScanStart?
  {
    hide StepEnter, StepPush, StepPop, StepReclaim;
    EnterDoesNot(w, t, c);
    PushDoesNot(w, t, c);
    PopDoesNot(w, t, c);
    RetireDoesNot(w, t, c);
  }

  lemma EnterDoesNot(w: World, t: nat, c: Choice)
    requires Shaped(w) && t < |w.pcs| && !w.pcs[t].ScanStart? && !Collecting(w.pcs[t])
    ensures !Collecting(StepEnter(w, t, c).pcs[t]) && !StepEnter(w, t, c).pcs[t].ScanStart?
  {
  }

  lemma PushDoesNot(w: World, t: nat, c: Choice)
    requires Shaped(w) && t < |w.pcs| && !w.pcs[t].ScanStart? && !Collecting(w.pcs[t])
    ensures !Collecting(StepPush(w, t, c).pcs[t]) && !StepPush(w, t, c).pcs[t].ScanStart?
  {
    hide Links, SwingsTail;
  }

  lemma PopDoesNot(w: World, t: nat, c: Choice)
    requires Shaped(w) && t < |w.pcs| && !w.pcs[t].ScanStart? && !Collecting(w.pcs[t])
    ensures !Collecting(StepPop(w, t, c).pcs[t]) && !StepPop(w, t, c).pcs[t].ScanStart?
  {
    hide SwingsTail, SwingsHead;
  }

  lemma RetireDoesNot(w: World, t: nat, c: Choice)
    requires Shaped(w) && t < |w.pcs| && !w.pcs[t].ScanStart? && !Collecting(w.pcs[t])
    ensures !Collecting(StepReclaim(w, t, c).pcs[t])
    ensures !w.pcs[t].PopBump? ==> !StepReclaim(w, t, c).pcs[t].ScanStart?
  {
    hide Deletes, Without, AfterScan;
  }

  lemma {:induction false} ScanSoFar(n: nat, stub: Ptr, sched: seq<Tick>, t: nat) returns (s: nat)
    requires IsSchedule(n, sched) && EpochLasts(n, stub, sched) && t < n
    requires Collecting(Run(n, stub, sched).pcs[t])
    ensures s < |sched| && Began(n, stub, sched, t, s)
    ensures MinFrom(n, stub, sched, s, MinOf(Run(n, stub, sched).pcs[t]))
    ensures Reading(n, stub, sched, s, Run(n, stub, sched).pcs[t])
    decreases |sched|
  {
    hide Step, EpochLasts, Began, Published, WasActive, NoWrap;
    NobodyCollects(n, stub, sched, t);
    var k := |sched| - 1;
    var last, before := sched[k], sched[..k];
    var w, w' := Run(n, stub, before), Run(n, stub, sched);
    EpochLasted(n, stub, sched);
    LastsNow(n, stub, before);
    assert Moment(n, stub, sched, k) == w;
    if last.thread != t {
      OnlyMoverSlot(w, last.thread, last.choice, t);
      s := ScanSoFar(n, stub, before, t);
      BeganEarlier(n, stub, before, t, s);
      ScanGrows(n, stub, sched, t, s, w.pcs[t]);
    } else {
      CollectorSteps(w, t, last.choice);
      if w.pcs[t].ScanStart? {
        s := k;
        BeginsNow(n, stub, sched, t);
      } else {
        s := ScanSoFar(n, stub, before, t);
        BeganEarlier(n, stub, before, t, s);
        ScanGrows(n, stub, sched, t, s, w.pcs[t]);
        ScanMoves(n, stub, sched, t, s);
      }
    }
  }

  lemma NobodyCollects(n: nat, stub: Ptr, sched: seq<Tick>, t: nat)
    requires IsSchedule(n, sched) && t < n
    ensures sched == [] ==> Run(n, stub, sched).pcs[t].Free?
  {
  }

  lemma BeginsNow(n: nat, stub: Ptr, sched: seq<Tick>, t: nat)
    requires IsSchedule(n, sched) && t < n && sched != [] && sched[|sched| - 1].thread == t
    requires Moment(n, stub, sched, |sched| - 1).pcs[t].ScanStart? && Collecting(Run(n, stub, sched).pcs[t])
    ensures Began(n, stub, sched, t, |sched| - 1)
  {
    hide Run;
    assert sched[..|sched|] == sched;
  }

  /** One more step leaves what the scan has seen. */
  lemma ScanGrows(n: nat, stub: Ptr, sched: seq<Tick>, t: nat, s: nat, pc: Pc)
    requires IsSchedule(n, sched) && t < n && sched != []
    requires var before := sched[..|sched| - 1];
      && s < |before| && Began(n, stub, before, t, s) && Collecting(pc)
      && MinFrom(n, stub, before, s, MinOf(pc)) && Reading(n, stub, before, s, pc)
    requires Collecting(Run(n, stub, sched).pcs[t])
    ensures Began(n, stub, sched, t, s) && MinFrom(n, stub, sched, s, MinOf(pc)) && Reading(n, stub, sched, s, pc)
  {
    hide Run, Published, WasActive;
    BeganGrows(n, stub, sched, t, s);
    PrefixAt(n, stub, sched, s);
    if Published(n, stub, sched[..|sched| - 1], s, MinOf(pc)) {
      PublishedGrows(n, stub, sched, s, MinOf(pc));
    }
    if pc.ScanEpoch? {
      var j: nat :| WasActive(n, stub, sched[..|sched| - 1], s, pc.k, j);
      ActiveGrows(n, stub, sched, s, pc.k, j);
    }
  }

  /** The collector's own step: an epoch it reads is published, a slot it goes on to read is active. */
  lemma ScanMoves(n: nat, stub: Ptr, sched: seq<Tick>, t: nat, s: nat)
    requires IsSchedule(n, sched) && EpochLasts(n, stub, sched) && t < n && sched != [] && s < |sched|
    requires sched[|sched| - 1].thread == t
    requires var w := Moment(n, stub, sched, |sched| - 1);
      && Collecting(w.pcs[t]) && MinFrom(n, stub, sched, s, MinOf(w.pcs[t]))
      && Reading(n, stub, sched[..|sched| - 1], s, w.pcs[t]) && Reading(n, stub, sched, s, w.pcs[t])
    requires Collecting(Run(n, stub, sched).pcs[t])
    ensures MinFrom(n, stub, sched, s, MinOf(Run(n, stub, sched).pcs[t]))
    ensures Reading(n, stub, sched, s, Run(n, stub, sched).pcs[t])
  {
    hide Step, EpochLasts, WasActive, NoWrap;
    var k := |sched| - 1;
    var last, before := sched[k], sched[..k];
    var w := Run(n, stub, before);
    EpochLasted(n, stub, sched);
    LastsNow(n, stub, before);
    CollectorSteps(w, t, last.choice);
    var pc, pc' := w.pcs[t], Run(n, stub, sched).pcs[t];
    if pc'.min != pc.min {
      var j: nat :| WasActive(n, stub, before, s, pc.k, j);
      ReadsPublished(n, stub, sched, s, pc.k, j);
    }
    if pc'.ScanEpoch? && pc' != pc {
      ActiveIsOccupied(n, stub, before, pc.k);
      assert WasActive(n, stub, sched, s, pc.k, k) by {
        SeenNow(n, stub, sched, s, pc.k);
      }
    }
  }

  lemma SeenNow(n: nat, stub: Ptr, sched: seq<Tick>, s: nat, u: nat)
    requires IsSchedule(n, sched) && s < |sched| && u < n
    requires Moment(n, stub, sched, |sched| - 1).slots[u].occupied && Moment(n, stub, sched, |sched| - 1).slots[u].active
    ensures WasActive(n, stub, sched, s, u, |sched| - 1)
  {
  }

  lemma ReadsPublished(n: nat, stub: Ptr, sched: seq<Tick>, s: nat, u: nat, j: nat)
    requires IsSchedule(n, sched) && sched != [] && WasActive(n, stub, sched[..|sched| - 1], s, u, j)
    ensures u < n && Published(n, stub, sched, s, Moment(n, stub, sched, |sched| - 1).slots[u].epoch)
  {
    ActiveGrows(n, stub, sched, s, u, j);
  }

  lemma BeganEarlier(n: nat, stub: Ptr, sched: seq<Tick>, t: nat, s: nat)
    requires IsSchedule(n, sched) && t < n && Began(n, stub, sched, t, s)
    ensures s < |sched|
  {
  }

  // ---------------------------------------------------------------- what is left

  lemma SweepEnds(w: World, t: nat, c: Choice)
    requires Shaped(w) && t < |w.pcs| && Collecting(w.pcs[t]) && !Collecting(Step(w, t, c).pcs[t])
    ensures w.pcs[t].Sweep? && w.pcs[t].i >= |w.slots[t].retired|
    ensures Step(w, t, c).slots == w.slots && Step(w, t, c).heap == w.heap
  {
    hide Without;
    assert Step(w, t, c) == StepReclaim(w, t, c);
  }

  /** In every run a collection that ends leaves only what it must: nodes retired no earlier than the epoch after the
      one its scan started in, or than an epoch published by a slot that was occupied and active during the scan. */
  lemma {:induction false} CollectionLeaves(n: nat, stub: Ptr, sched: seq<Tick>, t: nat, c: Choice) returns (s: nat)
    requires IsSchedule(n, sched) && EpochLasts(n, stub, sched) && t < n
    requires var w := Run(n, stub, sched); Collecting(w.pcs[t]) && !Collecting(Step(w, t, c).pcs[t])
    ensures s < |sched| && Began(n, stub, sched, t, s)
    ensures forall r | r in Step(Run(n, stub, sched), t, c).slots[t].retired ::
              r.epoch >= Moment(n, stub, sched, s).epoch + 1 || exists e | Published(n, stub, sched, s, e) :: r.epoch >= e
  {
    hide Step, Run, EpochLasts, Began, Published, Collecting;
    var w := Run(n, stub, sched);
    s := ScanSoFar(n, stub, sched, t);
    RunIsTidy(n, stub, sched);
    SweepEnds(w, t, c);
    assert SweptOk(w, t);
    forall r | r in w.slots[t].retired ensures r.epoch >= w.pcs[t].min {
      var j :| 0 <= j < |w.slots[t].retired| && w.slots[t].retired[j] == r;
    }
  }

  // ---------------------------------------------------------------- a thread that is alone

  /** Between the load of the epoch an operation announces and its return. */
  predicate Underway(pc: Pc) {
    Inside(pc) || pc.EnterStore? || pc.EnterPublish?
  }

  /** Step `b` is the load of the epoch by the operation thread `t` is in. */
  ghost predicate Called(n: nat, stub: Ptr, sched: seq<Tick>, t: nat, b: nat)
    requires IsSchedule(n, sched) && t < n
  {
    && b < |sched|
    && sched[b].thread == t
    && Moment(n, stub, sched, b).pcs[t].EnterLoad?
    && forall i | b < i <= |sched| :: Underway(Moment(n, stub, sched, i).pcs[t])
  }

  /** The epoch an operation has announced or is about to. */
  function Announces(w: World, t: nat): nat
    requires Shaped(w) && t < |w.pcs|
  {
    if w.pcs[t].EnterStore? then w.pcs[t].epoch else w.slots[t].epoch
  }

  lemma UnderwaySteps(w: World, t: nat, c: Choice)
    requires Shaped(w) && t < |w.pcs| && Underway(Step(w, t, c).pcs[t])
    ensures w.pcs[t].EnterLoad? || Underway(w.pcs[t])
    ensures Announces(Step(w, t, c), t) == if w.pcs[t].EnterLoad? then w.epoch else Announces(w, t)
  {
    if Inside(w.pcs[t]) && !w.pcs[t].Leave? {
      InsideKeepsEpoch(w, t, c);
      hide Step, Inside;
    } else {
      assert Step(w, t, c) == StepEnter(w, t, c);
      hide Step;
    }
  }

  lemma InsideKeepsEpoch(w: World, t: nat, c: Choice)
    requires Shaped(w) && t < |w.pcs| && Inside(w.pcs[t]) && !w.pcs[t].Leave?
    ensures Step(w, t, c).slots[t].epoch == w.slots[t].epoch && !Step(w, t, c).pcs[t].EnterStore?
  {
    hide StepEnter, StepPush, StepPop, StepReclaim;
    PushKeepsEpoch(w, t, c);
    PopKeepsEpoch(w, t, c);
    ReclaimKeepsEpoch(w, t, c);
  }

  lemma PushKeepsEpoch(w: World, t: nat, c: Choice)
    requires Shaped(w) && t < |w.pcs| && Inside(w.pcs[t])
    ensures StepPush(w, t, c).slots == w.slots && !StepPush(w, t, c).pcs[t].EnterStore?
  {
    hide Links, SwingsTail;
  }

  lemma PopKeepsEpoch(w: World, t: nat, c: Choice)
    requires Shaped(w) && t < |w.pcs| && Inside(w.pcs[t])
    ensures StepPop(w, t, c).slots == w.slots && !StepPop(w, t, c).pcs[t].EnterStore?
  {
    hide SwingsTail, SwingsHead;
  }

  lemma ReclaimKeepsEpoch(w: World, t: nat, c: Choice)
    requires Shaped(w) && t < |w.pcs| && Inside(w.pcs[t])
    ensures StepReclaim(w, t, c).slots[t].epoch == w.slots[t].epoch && !StepReclaim(w, t, c).pcs[t].EnterStore?
  {
    hide Deletes, Without;
  }

  lemma CalledGrows(n: nat, stub: Ptr, sched: seq<Tick>, t: nat, b: nat)
    requires IsSchedule(n, sched) && t < n && sched != [] && Called(n, stub, sched[..|sched| - 1], t, b)
    requires Underway(Run(n, stub, sched).pcs[t])
    ensures Called(n, stub, sched, t, b) && Moment(n, stub, sched, b) == Moment(n, stub, sched[..|sched| - 1], b)
  {
    hide Run, Underway;
    assert sched[..|sched|] == sched;
    PrefixAt(n, stub, sched, b);
    forall i | b < i <= |sched| ensures Underway(Moment(n, stub, sched, i).pcs[t]) {
      if i < |sched| {
        PrefixAt(n, stub, sched, i);
      }
    }
  }

  lemma CalledNow(n: nat, stub: Ptr, sched: seq<Tick>, t: nat)
    requires IsSchedule(n, sched) && t < n && sched != [] && sched[|sched| - 1].thread == t
    requires Moment(n, stub, sched, |sched| - 1).pcs[t].EnterLoad? && Underway(Run(n, stub, sched).pcs[t])
    ensures Called(n, stub, sched, t, |sched| - 1)
  {
    hide Run;
    assert sched[..|sched|] == sched;
  }

  /** An operation announces the epoch it loaded when it was called. */
  lemma {:induction false} OwnEpoch(n: nat, stub: Ptr, sched: seq<Tick>, t: nat) returns (b: nat)
    requires IsSchedule(n, sched) && t < n && Underway(Run(n, stub, sched).pcs[t])
    ensures b < |sched| && Called(n, stub, sched, t, b)
    ensures Announces(Run(n, stub, sched), t) == Moment(n, stub, sched, b).epoch
    decreases |sched|
  {
    hide Step, Called;
    NobodyCollects(n, stub, sched, t);
    var k := |sched| - 1;
    var last, before := sched[k], sched[..k];
    var w := Run(n, stub, before);
    assert Moment(n, stub, sched, k) == w;
    if last.thread == t && w.pcs[t].EnterLoad? {
      UnderwaySteps(w, t, last.choice);
      b := k;
      CalledNow(n, stub, sched, t);
    } else {
      if last.thread == t {
        UnderwaySteps(w, t, last.choice);
      } else {
        OnlyMoverSlot(w, last.thread, last.choice, t);
      }
      b := OwnEpoch(n, stub, before, t);
      CalledGrows(n, stub, sched, t, b);
    }
  }

  /** No other slot is active at any moment since `s`. */
  ghost predicate Alone(n: nat, stub: Ptr, sched: seq<Tick>, t: nat, s: nat)
    requires IsSchedule(n, sched)
  {
    forall j, u | s <= j <= |sched| && 0 <= u < n && u != t :: !Moment(n, stub, sched, j).slots[u].active
  }

  lemma AloneBefore(n: nat, stub: Ptr, sched: seq<Tick>, t: nat, s: nat)
    requires IsSchedule(n, sched) && sched != [] && Alone(n, stub, sched, t, s)
    ensures Alone(n, stub, sched[..|sched| - 1], t, s)
  {
    hide Run;
    var before := sched[..|sched| - 1];
    forall j, u | s <= j <= |before| && 0 <= u < n && u != t ensures !Moment(n, stub, before, j).slots[u].active {
      PrefixAt(n, stub, sched, j);
      assert !Moment(n, stub, sched, j).slots[u].active;
    }
  }

  /** A collecting thread only takes nodes out of the heap, and out of its list exactly those. */
  lemma CollectorFrees(w: World, t: nat, c: Choice)
    requires Shaped(w) && t < |w.pcs| && (w.pcs[t].ScanStart? || Collecting(w.pcs[t]))
    ensures var w' := Step(w, t, c);
      && w'.heap.Keys <= w.heap.Keys
      && forall r | r in w.slots[t].retired :: r in w'.slots[t].retired || r.node !in w'.heap
  {
    assert Step(w, t, c) == StepReclaim(w, t, c);
    hide Step;
    if Deletes(w, t) {
      var i, retired := w.pcs[t].i, w.slots[t].retired;
      assert forall r | r in retired :: r == retired[i] || r in Without(retired, i) by {
        WithoutOne(retired, i);
      }
    }
  }

  lemma WithoutOne<T>(s: seq<T>, i: nat)
    requires i < |s|
    ensures forall x | x in s :: x == s[i] || x in Without(s, i)
  {
    assert s == s[..i] + [s[i]] + s[i + 1..];
  }

  /** A thread outside its operations leaves the heap alone. */
  lemma OutsiderFreesNothing(w: World, u: nat, c: Choice)
    requires Shaped(w) && u < |w.pcs| && !Inside(w.pcs[u])
    ensures Step(w, u, c).heap == w.heap
  {
  }

  lemma OutsideNow(n: nat, stub: Ptr, sched: seq<Tick>, u: nat)
    requires IsSchedule(n, sched) && EpochLasts(n, stub, sched) && u < n && !Run(n, stub, sched).slots[u].active
    ensures !Inside(Run(n, stub, sched).pcs[u])
  {
    hide Run, EpochLasts, Linked, Buried, Counted, Numbered, Explains;
    var h, _ := HistoryOf(n, stub, sched);
    assert Announced(Run(n, stub, sched), u) by {
      assert ThreadInv(Run(n, stub, sched), h, u);
    }
  }

  /** What a lone collector retired is still in its list or out of the heap. */
  lemma {:induction false} KeptOrFreed(n: nat, stub: Ptr, sched: seq<Tick>, t: nat, s: nat, r: RetiredNode)
    requires IsSchedule(n, sched) && EpochLasts(n, stub, sched) && t < n
    requires s <= |sched| && Alone(n, stub, sched, t, s) && r in Moment(n, stub, sched, s).slots[t].retired
    requires forall i | s <= i < |sched| ::
               Moment(n, stub, sched, i).pcs[t].ScanStart? || Collecting(Moment(n, stub, sched, i).pcs[t])
    ensures var w := Run(n, stub, sched); r in w.slots[t].retired || r.node !in w.heap
    decreases |sched|
  {
    hide Step, EpochLasts, Alone, Collecting;
    if s == |sched| {
      assert sched[..s] == sched;
    } else {
      var k := |sched| - 1;
      var last, before := sched[k], sched[..k];
      var w := Run(n, stub, before);
      EpochLasted(n, stub, sched);
      AloneBefore(n, stub, sched, t, s);
      forall i | s <= i <= |before| ensures Moment(n, stub, before, i) == Moment(n, stub, sched, i) {
        PrefixAt(n, stub, sched, i);
      }
      KeptOrFreed(n, stub, before, t, s, r);
      assert Moment(n, stub, sched, k) == w;
      if last.thread == t {
        CollectorFrees(w, t, last.choice);
      } else {
        OnlyMoverSlot(w, last.thread, last.choice, t);
        OthersAreIdle(n, stub, sched, t, s, last.thread);
        OutsideNow(n, stub, before, last.thread);
        OutsiderFreesNothing(w, last.thread, last.choice);
      }
    }
  }

  lemma OthersAreIdle(n: nat, stub: Ptr, sched: seq<Tick>, t: nat, s: nat, u: nat)
    requires IsSchedule(n, sched) && sched != [] && s < |sched| && Alone(n, stub, sched, t, s) && u < n && u != t
    ensures !Moment(n, stub, sched, |sched| - 1).slots[u].active
  {
  }

  /** If no other slot is active during a scan, the collection leaves nothing retired before the operation was
      called, and those nodes are out of the heap. */
  lemma {:induction false} LoneCollectorFreesAll(n: nat, stub: Ptr, sched: seq<Tick>, t: nat, c: Choice)
    returns (s: nat, b: nat)
    requires IsSchedule(n, sched) && EpochLasts(n, stub, sched) && t < n
    requires var w := Run(n, stub, sched); Collecting(w.pcs[t]) && !Collecting(Step(w, t, c).pcs[t])
    requires forall s: nat | s < |sched| && Began(n, stub, sched, t, s) :: Alone(n, stub, sched, t, s)
    ensures b < s < |sched| && Began(n, stub, sched, t, s) && Called(n, stub, sched, t, b)
    ensures var e, w' := Moment(n, stub, sched, b).epoch, Step(Run(n, stub, sched), t, c);
      && (forall r | r in w'.slots[t].retired :: r.epoch >= e)
      && (forall r | r in Moment(n, stub, sched, s).slots[t].retired && r.epoch < e :: r.node !in w'.heap)
  {
    hide Step, Run, EpochLasts, Began, Called, Published, Collecting, Alone;
    var w := Run(n, stub, sched);
    SweepEnds(w, t, c);
    s := CollectionLeaves(n, stub, sched, t, c);
    CollectorUnderway(w.pcs[t]);
    b := OwnEpoch(n, stub, sched, t);
    CalledFirst(n, stub, sched, t, s, b);
    var e := Moment(n, stub, sched, b).epoch;
    StartsLater(n, stub, sched, t, s, b);
    forall r | r in w.slots[t].retired ensures r.epoch >= e {
      if r.epoch < Moment(n, stub, sched, s).epoch + 1 {
        var x :| Published(n, stub, sched, s, x) && r.epoch >= x;
        OnlyOwnEpoch(n, stub, sched, t, s, b, x);
      }
    }
    forall r | r in Moment(n, stub, sched, s).slots[t].retired && r.epoch < e ensures r.node !in w.heap {
      ScanGoesOn(n, stub, sched, t, s);
      KeptOrFreed(n, stub, sched, t, s, r);
    }
  }

  lemma CollectorUnderway(pc: Pc)
    requires Collecting(pc)
    ensures Underway(pc) && !pc.EnterStore?
  {
  }

  lemma ScanGoesOn(n: nat, stub: Ptr, sched: seq<Tick>, t: nat, s: nat)
    requires IsSchedule(n, sched) && t < n && Began(n, stub, sched, t, s)
    ensures forall i | s <= i < |sched| ::
              Moment(n, stub, sched, i).pcs[t].ScanStart? || Collecting(Moment(n, stub, sched, i).pcs[t])
  {
  }

  /** The operation was called before its scan began. */
  lemma CalledFirst(n: nat, stub: Ptr, sched: seq<Tick>, t: nat, s: nat, b: nat)
    requires IsSchedule(n, sched) && t < n && Began(n, stub, sched, t, s) && Called(n, stub, sched, t, b)
    ensures b < s
  {
    hide Run;
    var pc := Moment(n, stub, sched, b).pcs[t];
    assert b > s ==> Collecting(pc);
  }

  /** The epoch has not fallen between the call and the scan. */
  lemma {:induction false} StartsLater(n: nat, stub: Ptr, sched: seq<Tick>, t: nat, s: nat, b: nat)
    requires IsSchedule(n, sched) && EpochLasts(n, stub, sched) && b <= s <= |sched|
    ensures Moment(n, stub, sched, b).epoch <= Moment(n, stub, sched, s).epoch
    decreases s - b
  {
    hide Step, EpochLasts;
    if b < s {
      StartsLater(n, stub, sched, t, s - 1, b);
      LastsAt(n, stub, sched, s - 1);
      var w := Moment(n, stub, sched, s - 1);
      assert sched[..s][..s - 1] == sched[..s - 1];
      EpochNeverFalls(w, sched[s - 1].thread, sched[s - 1].choice);
    }
  }

  lemma LastsAt(n: nat, stub: Ptr, sched: seq<Tick>, i: nat)
    requires IsSchedule(n, sched) && EpochLasts(n, stub, sched) && i <= |sched|
    ensures NoWrap(Moment(n, stub, sched, i))
  {
  }

  /** A lone collector can only have read its own epoch. */
  lemma OnlyOwnEpoch(n: nat, stub: Ptr, sched: seq<Tick>, t: nat, s: nat, b: nat, x: nat)
    requires IsSchedule(n, sched) && t < n && s < |sched| && Alone(n, stub, sched, t, s) && Published(n, stub, sched, s, x)
    requires Began(n, stub, sched, t, s) && Called(n, stub, sched, t, b)
    ensures x == Moment(n, stub, sched, b).epoch
  {
    hide Run;
    var u: nat, j: nat, k: nat :| WasActive(n, stub, sched, s, u, j) && j <= k <= |sched|
                                  && Moment(n, stub, sched, k).slots[u].epoch == x;
    assert u == t;
    OwnEpochAt(n, stub, sched, t, s, b, k);
  }

  lemma OwnEpochAt(n: nat, stub: Ptr, sched: seq<Tick>, t: nat, s: nat, b: nat, k: nat)
    requires IsSchedule(n, sched) && t < n && Began(n, stub, sched, t, s) && Called(n, stub, sched, t, b)
    requires s <= k <= |sched|
    ensures Moment(n, stub, sched, k).slots[t].epoch == Moment(n, stub, sched, b).epoch
  {
    hide Run, Underway;
    CalledFirst(n, stub, sched, t, s, b);
    var prefix := sched[..k];
    forall i | 0 <= i <= k ensures Moment(n, stub, prefix, i) == Moment(n, stub, sched, i) {
      assert prefix[..i] == sched[..i];
    }
    assert prefix[..k] == prefix;
    assert Underway(Moment(n, stub, sched, k).pcs[t]);
    var b' := OwnEpoch(n, stub, prefix, t);
    SameCall(n, stub, prefix, t, b, b');
    assert k > s ==> Collecting(Moment(n, stub, sched, k).pcs[t]);
  }

  lemma SameCall(n: nat, stub: Ptr, sched: seq<Tick>, t: nat, b: nat, b': nat)
    requires IsSchedule(n, sched) && t < n && b < |sched| && Called(n, stub, sched, t, b')
    requires Moment(n, stub, sched, b).pcs[t].EnterLoad?
    requires forall i | b < i <= |sched| :: Underway(Moment(n, stub, sched, i).pcs[t])
    ensures b == b'
  {
    hide Run;
    var pc, pc' := Moment(n, stub, sched, b).pcs[t], Moment(n, stub, sched, b').pcs[t];
    assert b < b' ==> Underway(pc');
    assert b' < b ==> Underway(pc);
  }
}
