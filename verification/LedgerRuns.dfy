/** Whole runs of the clearing ledger, from nothing, by any sequence of its operations. */
module LedgerRuns {
  import opened Orders
  import opened Ledger
  import opened LedgerLaws
  import opened Sums

  datatype Command =
    | OpenAccount(account: string, snapshot: Account)
    | FreezeFunds(asset: Asset, account: string, hold: string, amount: real, timestamp: int)
    | ReleaseFunds(hold: string, timestamp: int)
    | SettleTrade(fill: TradeFill, fees: FeeSchedule)

  /** An account is opened once, with no negative balance and nothing frozen; a fill names both holds; fees
      are between nothing and everything. Freezes and releases are free. */
  ghost predicate Admissible(s: State, c: Command) {
    match c
    case OpenAccount(account, snapshot) =>
      account !in s.accounts && NonNegative(snapshot) && snapshot.frozenQuote == 0.0 && snapshot.frozenBase == 0.0
    case SettleTrade(fill, fees) => NamesHolds(fill) && FeesOk(fees)
    case _ => true
  }

  function Apply(s: State, c: Command): State {
    match c
    case OpenAccount(account, snapshot) => Upsert(s, account, snapshot)
    case FreezeFunds(asset, account, hold, amount, timestamp) => Freeze(s, asset, account, hold, amount, timestamp).state
    case ReleaseFunds(hold, timestamp) => Release(s, hold, timestamp).state
    case SettleTrade(fill, fees) => Settle(s, fill, fees).state
  }

  function Run(cs: seq<Command>): State {
    if cs == [] then NOTHING else Apply(Run(cs[..|cs| - 1]), cs[|cs| - 1])
  }

  ghost predicate Legal(cs: seq<Command>) {
    cs == [] || (Legal(cs[..|cs| - 1]) && Admissible(Run(cs[..|cs| - 1]), cs[|cs| - 1]))
  }

  /** The opening snapshots. */
  function Openings(cs: seq<Command>): map<string, Account> {
    if cs == [] then map[]
    else
      var before, c := Openings(cs[..|cs| - 1]), cs[|cs| - 1];
      if c.OpenAccount? then before[c.account := c.snapshot] else before
  }

  /** Whether the last command settled a trade for the first time. */
  predicate SettlesLast(cs: seq<Command>)
    requires cs != []
    ensures SettlesLast(cs) ==> cs[|cs| - 1].SettleTrade?
  {
    var c := cs[|cs| - 1];
    c.SettleTrade? && Settle(Run(cs[..|cs| - 1]), c.fill, c.fees).result.status == Applied
  }

  /** The fees of the settlements applied. */
  function FeesPaid(cs: seq<Command>): real {
    if cs == [] then 0.0
    else
      var c, before := cs[|cs| - 1], cs[..|cs| - 1];
      var paid := FeesPaid(before);
      if SettlesLast(cs) then
        var result := Settle(Run(before), c.fill, c.fees).result;
        paid + result.buyerFee + result.sellerFee
      else paid
  }

  // ---------------------------------------------------------------- reconciliation

  lemma OpenKeeps(s: State, account: string, snapshot: Account)
    requires LedgerOk(s) && Admissible(s, OpenAccount(account, snapshot))
    ensures LedgerOk(Upsert(s, account, snapshot))
    ensures forall a, k | a in s.accounts :: Slack(Upsert(s, account, snapshot), a, k) == Slack(s, a, k)
    ensures forall k :: Slack(Upsert(s, account, snapshot), account, k) == 0.0
  {
    var s' := Upsert(s, account, snapshot);
    forall k: Asset ensures HoldSum(s.holds, account, k) == 0.0 {
      assert HoldsOf(s.holds, account, k) == map[];
    }
    forall a, k | a in s'.accounts ensures Slack(s', a, k) >= 0.0 {
      assert a != account ==> Slack(s', a, k) == Slack(s, a, k);
    }
  }

  /** In every run every account's frozen balances are at least the sum of its holds, and it reconciles. */
  lemma {:induction false} AlwaysReconciles(cs: seq<Command>)
    requires Legal(cs)
    ensures LedgerOk(Run(cs))
    ensures forall a | a in Run(cs).accounts :: Reconciles(Run(cs), a)
  {
    hide LedgerOk, Reconciles, Freeze, Release, Settle, Upsert;
    var s' := Run(cs);
    if cs == [] {
      NothingIsOk();
    } else {
      var s := Run(cs[..|cs| - 1]);
      AlwaysReconciles(cs[..|cs| - 1]);
      match cs[|cs| - 1]
      case OpenAccount(account, snapshot) => OpenKeeps(s, account, snapshot);
      case FreezeFunds(asset, account, hold, amount, timestamp) => FreezeKeeps(s, asset, account, hold, amount, timestamp);
      case ReleaseFunds(hold, timestamp) => ReleaseKeeps(s, hold, timestamp);
      case SettleTrade(fill, fees) => SettleKeeps(s, fill, fees);
    }
    forall a | a in s'.accounts ensures Reconciles(s', a) {
      LedgerReconciles(s', a);
    }
  }

  lemma NothingIsOk()
    ensures LedgerOk(NOTHING)
  {
  }

  /** A hold can always be released: its account is there. */
  lemma {:induction false} ReleaseNeverBreaks(cs: seq<Command>, hold: string, timestamp: int)
    requires Legal(cs)
    ensures Release(Run(cs), hold, timestamp).status == (if hold in Run(cs).holds then Applied else HoldNotFound)
  {
    AlwaysReconciles(cs);
    ReleaseKeeps(Run(cs), hold, timestamp);
  }

  // ---------------------------------------------------------------- replay

  lemma FreezeReplays(s: State, asset: Asset, account: string, hold: string, amount: real, timestamp: int,
                      openings: map<string, Account>)
    requires Journaled(s, openings)
    ensures Journaled(Freeze(s, asset, account, hold, amount, timestamp).state, openings)
  {
    hide Journaled, Posted, FreezeDelta;
    var d := Freeze(s, asset, account, hold, amount, timestamp);
    if d.status == Applied {
      var held := s.(holds := s.holds[hold := Hold(account, asset, amount)]);
      JournaledFrame(s, held, openings);
      PostedReplays(held, FreezeEntry(asset, account, hold, amount, timestamp), openings);
    }
  }

  lemma ReleaseReplays(s: State, hold: string, timestamp: int, openings: map<string, Account>)
    requires Journaled(s, openings)
    ensures Journaled(Release(s, hold, timestamp).state, openings)
  {
    if Release(s, hold, timestamp).status == Applied {
      var held := s.(holds := s.holds - {hold});
      JournaledFrame(s, held, openings);
      PostedReplays(held, ReleaseEntry(s.holds[hold], hold, timestamp), openings);
    }
  }

  lemma OpenReplays(s: State, account: string, snapshot: Account, openings: map<string, Account>)
    requires Journaled(s, openings) && account !in s.accounts
    ensures Journaled(Upsert(s, account, snapshot), openings[account := snapshot])
  {
    var s' := Upsert(s, account, snapshot);
    forall a | a in s'.accounts ensures Replay(openings[account := snapshot][a], s'.Journal(a)) == s'.accounts[a] {
      assert s'.Journal(a) == s.Journal(a);
      assert a == account ==> s'.Journal(a) == [];
    }
  }

  /** In every run, an account's journal folded over its opening snapshot is its current snapshot. */
  lemma {:induction false} JournalReplays(cs: seq<Command>)
    requires Legal(cs)
    ensures Journaled(Run(cs), Openings(cs))
  {
    hide Journaled, Freeze, Release, Settle;
    if cs == [] {
      NothingIsJournaled();
    } else {
      var s, o := Run(cs[..|cs| - 1]), Openings(cs[..|cs| - 1]);
      JournalReplays(cs[..|cs| - 1]);
      match cs[|cs| - 1]
      case OpenAccount(account, snapshot) => OpenReplays(s, account, snapshot, o);
      case FreezeFunds(asset, account, hold, amount, timestamp) =>
        FreezeReplays(s, asset, account, hold, amount, timestamp, o);
      case ReleaseFunds(hold, timestamp) => ReleaseReplays(s, hold, timestamp, o);
      case SettleTrade(fill, fees) => SettleReplays(s, fill, fees, o);
    }
  }

  lemma NothingIsJournaled()
    ensures Journaled(NOTHING, map[])
  {
  }

  // ---------------------------------------------------------------- worth

  lemma ApplyIsWorthless(s: State, c: Command)
    requires WorthlessJournals(s)
    ensures WorthlessJournals(Apply(s, c))
  {
    hide WorthlessJournals, FeeAmount, CostReleased, Worth;
    match c
    case OpenAccount(account, snapshot) =>
      SameJournals(s, Upsert(s, account, snapshot));
    case FreezeFunds(asset, account, hold, amount, timestamp) =>
      if Freeze(s, asset, account, hold, amount, timestamp).status == Applied {
        var e := FreezeEntry(asset, account, hold, amount, timestamp);
        EntriesAreWorthless(asset, amount);
        PostedIsWorthless(s.(holds := s.holds[hold := Hold(account, asset, amount)]), s, e);
      }
    case ReleaseFunds(hold, timestamp) =>
      if Release(s, hold, timestamp).status == Applied {
        EntriesAreWorthless(s.holds[hold].asset, -s.holds[hold].amount);
        PostedIsWorthless(s.(holds := s.holds - {hold}), s, ReleaseEntry(s.holds[hold], hold, timestamp));
      }
    case SettleTrade(fill, fees) =>
      if Check(s, fill, fees) == Applied {
        var a := AmountsOf(fill, fees, s.accounts[fill.seller]);
        LegsAreWorthless(fill, a);
        PostedIsWorthless(s, s, BuyEntry(fill, a));
        var first := Posted(s, BuyEntry(fill, a));
        PostedIsWorthless(first, first, SellEntry(fill, a));
        SameJournals(Posted(first, SellEntry(fill, a)), Settle(s, fill, fees).state);
      }
  }

  lemma EntriesAreWorthless(asset: Asset, amount: real)
    ensures Worth(FreezeDelta(asset, amount)) == 0.0
  {
  }

  lemma LegsAreWorthless(fill: TradeFill, a: Amounts)
    ensures Worth(BuyEntry(fill, a).delta) == 0.0 && Worth(SellEntry(fill, a).delta) == 0.0
  {
  }

  lemma SameJournals(s: State, s': State)
    requires WorthlessJournals(s) && s'.journals == s.journals
    ensures WorthlessJournals(s')
  {
  }

  lemma PostedIsWorthless(s': State, s: State, e: JournalEntry)
    requires e.account in s'.accounts && s'.journals == s.journals
    requires WorthlessJournals(s) && Worth(e.delta) == 0.0
    ensures WorthlessJournals(Posted(s', e))
  {
    var p := Posted(s', e);
    assert p.journals == s.journals[e.account := s.Journal(e.account) + [e]];
    forall a, x | a in p.journals && x in p.journals[a] ensures Worth(x.delta) == 0.0 {
      if a != e.account {
        assert a in s.journals && x in s.journals[a];
      } else {
        assert x == e || (a in s.journals && x in s.journals[a]);
      }
    }
  }

  lemma {:induction false} JournalsAreWorthless(cs: seq<Command>)
    ensures WorthlessJournals(Run(cs))
  {
    if cs != [] {
      JournalsAreWorthless(cs[..|cs| - 1]);
      ApplyIsWorthless(Run(cs[..|cs| - 1]), cs[|cs| - 1]);
    }
  }

  /** In every run, available and frozen quote plus base cost less realized profit is what the account opened
      with. */
  lemma {:induction false} WorthIsKept(cs: seq<Command>, account: string)
    requires Legal(cs) && account in Run(cs).accounts
    ensures account in Openings(cs) && Worth(Run(cs).accounts[account]) == Worth(Openings(cs)[account])
  {
    JournalReplays(cs);
    JournalsAreWorthless(cs);
    assert account in Openings(cs).Keys;
    ReplayKeepsWorth(Openings(cs)[account], Run(cs).Journal(account));
  }

  // ---------------------------------------------------------------- totals

  lemma FreezeTotals(s: State, asset: Asset, account: string, hold: string, amount: real, timestamp: int, k: Asset)
    ensures TotalOf(Freeze(s, asset, account, hold, amount, timestamp).state, k) == TotalOf(s, k)
  {
    if Freeze(s, asset, account, hold, amount, timestamp).status == Applied {
      var held := s.(holds := s.holds[hold := Hold(account, asset, amount)]);
      PostedTotal(held, FreezeEntry(asset, account, hold, amount, timestamp), k);
      assert TotalOf(held, k) == TotalOf(s, k);
    }
  }

  lemma ReleaseTotals(s: State, hold: string, timestamp: int, k: Asset)
    ensures TotalOf(Release(s, hold, timestamp).state, k) == TotalOf(s, k)
  {
    if Release(s, hold, timestamp).status == Applied {
      var held := s.(holds := s.holds - {hold});
      PostedTotal(held, ReleaseEntry(s.holds[hold], hold, timestamp), k);
      assert TotalOf(held, k) == TotalOf(s, k);
    }
  }

  /** In every run the accounts together hold the base they opened with, and the quote they opened with less
      the fees of the settlements applied. */
  lemma {:induction false} TotalsAreKept(cs: seq<Command>)
    requires Legal(cs)
    ensures TotalOf(Run(cs), Base) == TotalHeld(Openings(cs), Base)
    ensures TotalOf(Run(cs), Quote) == TotalHeld(Openings(cs), Quote) - FeesPaid(cs)
  {
    hide TotalHeld, Freeze, Release, Settle, Journaled;
    if cs != [] {
      var before := cs[..|cs| - 1];
      var s, o := Run(before), Openings(before);
      TotalsAreKept(before);
      match cs[|cs| - 1]
      case OpenAccount(account, snapshot) =>
        OpenedAre(before);
        forall k: Asset ensures TotalOf(Run(cs), k) - TotalOf(s, k) == TotalHeld(Openings(cs), k) - TotalHeld(o, k) {
          TotalHeldPut(s.accounts, account, snapshot, k);
          TotalHeldPut(o, account, snapshot, k);
        }
      case FreezeFunds(asset, account, hold, amount, timestamp) =>
        FreezeTotals(s, asset, account, hold, amount, timestamp, Base);
        FreezeTotals(s, asset, account, hold, amount, timestamp, Quote);
      case ReleaseFunds(hold, timestamp) =>
        ReleaseTotals(s, hold, timestamp, Base);
        ReleaseTotals(s, hold, timestamp, Quote);
      case SettleTrade(fill, fees) =>
        SettleTotals(s, fill, fees);
        FeesOfLast(cs);
    }
  }

  lemma {:induction false} OpenedAre(cs: seq<Command>)
    requires Legal(cs)
    ensures Openings(cs).Keys == Run(cs).accounts.Keys
  {
    JournalReplays(cs);
  }

  lemma {:induction false} FeesOfLast(cs: seq<Command>)
    requires cs != [] && cs[|cs| - 1].SettleTrade?
    ensures var c, before := cs[|cs| - 1], cs[..|cs| - 1];
      var result := Settle(Run(before), c.fill, c.fees).result;
      FeesPaid(cs) == FeesPaid(before) + result.buyerFee + result.sellerFee
  {
  }

  // ---------------------------------------------------------------- each trade once

  lemma ApplyKeepsSettled(s: State, c: Command)
    ensures s.settled <= Apply(s, c).settled
  {
  }

  lemma {:induction false} SettledGrows(cs: seq<Command>, i: nat)
    requires i <= |cs|
    ensures Run(cs[..i]).settled <= Run(cs).settled
  {
    if i < |cs| {
      SettledGrows(cs[..|cs| - 1], i);
      assert cs[..|cs| - 1][..i] == cs[..i];
      ApplyKeepsSettled(Run(cs[..|cs| - 1]), cs[|cs| - 1]);
    } else {
      assert cs[..i] == cs;
    }
  }

  lemma {:induction false} SettlesIsFirst(cs: seq<Command>)
    requires cs != [] && SettlesLast(cs)
    ensures cs[|cs| - 1].fill.tradeId !in Run(cs[..|cs| - 1]).settled && cs[|cs| - 1].fill.tradeId in Run(cs).settled
  {
    hide Settle, TotalOf;
    var s, c := Run(cs[..|cs| - 1]), cs[|cs| - 1];
    SettleTotals(s, c.fill, c.fees);
    assert Run(cs) == Apply(s, c);
  }

  /** No trade id is settled twice, so the fees of each are paid once. */
  lemma {:induction false} SettledOnce(cs: seq<Command>, i: nat, j: nat)
    requires i < j < |cs| && SettlesLast(cs[..i + 1]) && SettlesLast(cs[..j + 1])
    ensures cs[i].fill.tradeId != cs[j].fill.tradeId
  {
    hide Run, Settle;
    SettlesIsFirst(cs[..i + 1]);
    SettlesIsFirst(cs[..j + 1]);
    assert cs[..j + 1][..j] == cs[..j];
    SettledGrows(cs[..j], i + 1);
    assert cs[..j][..i + 1] == cs[..i + 1];
  }

  /** The outbox has one message for each settled trade. */
  ghost predicate OutboxOk(s: State) {
    && (forall i, j | 0 <= i < j < |s.outbox| :: s.outbox[i].id != s.outbox[j].id)
    && (forall m | m in s.outbox :: m.id in s.settled)
    && (forall t | t in s.settled :: exists m | m in s.outbox :: m.id == t)
  }

  lemma SettleOutbox(s: State, fill: TradeFill, fees: FeeSchedule)
    requires OutboxOk(s)
    ensures OutboxOk(Settle(s, fill, fees).state)
  {
    hide FeeAmount, CostReleased;
    if Check(s, fill, fees) == Applied {
      var s' := Settle(s, fill, fees).state;
      assert s'.outbox[|s.outbox|].id == fill.tradeId;
      forall t | t in s'.settled ensures exists m | m in s'.outbox :: m.id == t {
        if t == fill.tradeId {
          assert s'.outbox[|s.outbox|] in s'.outbox;
        } else {
          var m :| m in s.outbox && m.id == t;
          assert m in s'.outbox;
        }
      }
      forall i, j | 0 <= i < j < |s'.outbox| ensures s'.outbox[i].id != s'.outbox[j].id {
        assert s.outbox[i] in s.outbox;
      }
    }
  }

  lemma {:induction false} OutboxMatchesSettled(cs: seq<Command>)
    ensures OutboxOk(Run(cs))
  {
    if cs != [] {
      OutboxMatchesSettled(cs[..|cs| - 1]);
      var s, c := Run(cs[..|cs| - 1]), cs[|cs| - 1];
      if c.SettleTrade? {
        SettleOutbox(s, c.fill, c.fees);
      } else {
        assert Run(cs).outbox == s.outbox && Run(cs).settled == s.settled;
      }
    }
  }
}
