/** What the epochs of a run add up to. */
module EpochTotals {
  import opened Integers
  import opened Options
  import opened BlockRevenue
  import opened Epochs

  datatype Totals = Totals(revenue: int, blocks: nat, gas: nat, txs: nat)
  {
    function Plus(t: Totals): Totals {
      Totals(revenue + t.revenue, blocks + t.blocks, gas + t.gas, txs + t.txs)
    }

    /** Equal but for gas, which is counted modulo 2^64. */
    ghost predicate Agrees(t: Totals) {
      revenue == t.revenue && blocks == t.blocks && txs == t.txs && Congruent(gas, t.gas)
    }
  }

  function Laps(n: int): int {
    n * TWO_TO_64
  }

  /** The numbers differ by a multiple of 2^64. */
  ghost predicate Congruent(x: int, y: int) {
    exists n :: x == y + Laps(n)
  }

  function TotalsOf(e: EpochData): Totals {
    Totals(e.revenue, e.blockCount, e.gasUsed, e.txCount)
  }

  /** The totals of the ended epochs that were saved, and of those that were lost. */
  datatype Books = Books(saved: Totals, lost: Totals)

  function Enter(books: Books, e: Ended): Books {
    if e.saved then books.(saved := books.saved.Plus(TotalsOf(e.epoch)))
    else books.(lost := books.lost.Plus(TotalsOf(e.epoch)))
  }

  function EndedBooks(ended: seq<Ended>): Books {
    if ended == [] then Books(Totals(0, 0, 0, 0), Totals(0, 0, 0, 0))
    else Enter(EndedBooks(ended[..|ended| - 1]), ended[|ended| - 1])
  }

  function AllEnded(ended: seq<Ended>): Totals {
    EndedBooks(ended).saved.Plus(EndedBooks(ended).lost)
  }

  function StateTotals(s: State): Totals {
    if s.current.Some? then AllEnded(s.ended).Plus(TotalsOf(s.current.value)) else AllEnded(s.ended)
  }

  /** A block's share of the totals. */
  function Contribution(b: Block): Totals {
    Totals(Revenue(b), 1, GasUsed(b), |b.txs|)
  }

  /** The totals of all blocks added. */
  function AddedTotals(steps: seq<Step>): Totals {
    if steps == [] then Totals(0, 0, 0, 0)
    else AddedTotals(steps[..|steps| - 1]).Plus(Contribution(steps[|steps| - 1].block))
  }

  lemma AddBlockTotals(e: EpochData, b: Block)
    ensures TotalsOf(AddBlock(e, b)).Agrees(TotalsOf(e).Plus(Contribution(b)))
  {
    var gas := e.gasUsed + GasUsed(b);
    assert Wrap(gas) == gas + Laps(-(gas / TWO_TO_64));
  }

  lemma EqualAgrees(x: Totals, y: Totals)
    requires x == y
    ensures x.Agrees(y)
  {
    assert x.gas == y.gas + Laps(0);
  }

  lemma PlusAgrees(t: Totals, x: Totals, y: Totals)
    requires x.Agrees(y)
    ensures t.Plus(x).Agrees(t.Plus(y)) && x.Plus(t).Agrees(y.Plus(t))
  {
    var n :| x.gas == y.gas + Laps(n);
    assert t.gas + x.gas == t.gas + y.gas + Laps(n);
  }

  lemma AgreesTransitive(x: Totals, y: Totals, z: Totals)
    requires x.Agrees(y) && y.Agrees(z)
    ensures x.Agrees(z)
  {
    var m :| x.gas == y.gas + Laps(m);
    var n :| y.gas == z.gas + Laps(n);
    assert x.gas == z.gas + Laps(m + n);
  }

  /** Ending an epoch moves its totals to the saved or the lost ones. */
  lemma EndTotals(s: State, time: nat, saves: bool)
    ensures AllEnded(End(s, time, saves).ended) == StateTotals(s)
  {
    if s.current.Some? {
      var ended := End(s, time, saves).ended;
      assert ended[..|s.ended|] == s.ended;
    }
  }

  lemma AddTotals(all: Totals, e: EpochData, b: Block)
    ensures all.Plus(TotalsOf(AddBlock(e, b))).Agrees(all.Plus(TotalsOf(e)).Plus(Contribution(b)))
  {
    AddBlockTotals(e, b);
    PlusAgrees(all, TotalsOf(AddBlock(e, b)), TotalsOf(e).Plus(Contribution(b)));
    assert all.Plus(TotalsOf(e)).Plus(Contribution(b)) == all.Plus(TotalsOf(e).Plus(Contribution(b)));
  }

  lemma NewEpochTotals(c: Config, all: Totals, current: Option<EpochData>, b: Block)
    ensures all.Plus(TotalsOf(NewEpoch(c, current, b))) == all
  {
  }

  lemma TrackTotals(c: Config, s: State, step: Step)
    ensures StateTotals(Track(c, s, step)).Agrees(StateTotals(s).Plus(Contribution(step.block)))
  {
    var b := step.block;
    if IsNewEpoch(c, s, b) {
      var ended := End(s, b.time, step.saves);
      EndTotals(s, b.time, step.saves);
      NewEpochTotals(c, StateTotals(s), ended.current, b);
      AddTotals(StateTotals(s), NewEpoch(c, ended.current, b), b);
    } else {
      AddTotals(AllEnded(s.ended), s.current.value, b);
    }
  }

  lemma NoEnded(ended: seq<Ended>)
    requires ended == []
    ensures AllEnded(ended) == Totals(0, 0, 0, 0)
  {
  }

  lemma AgreesStep(x: Totals, y: Totals, t: Totals, nextX: Totals, nextY: Totals)
    requires x.Agrees(y) && nextX.Agrees(x.Plus(t)) && nextY == y.Plus(t)
    ensures nextX.Agrees(nextY)
  {
    PlusAgrees(t, x, y);
    AgreesTransitive(nextX, x.Plus(t), y.Plus(t));
  }
}

/** Nothing is lost or counted twice between a run's blocks and its epochs. */
module EpochConservation {
  import opened Epochs
  import opened EpochTotals

  /** Over any run, saved, lost and current epochs together account for every block added, once: their
      revenue, block and transaction counts add up to the blocks', and so does their gas modulo 2^64. */
  lemma {:induction false} Conservation(c: Config, steps: seq<Step>)
    ensures StateTotals(Run(c, steps)).Agrees(AddedTotals(steps))
  {
    if steps == [] {
      NothingAgrees(c, steps);
    } else {
      var init, step := steps[..|steps| - 1], steps[|steps| - 1];
      Conservation(c, init);
      TrackTotals(c, Run(c, init), step);
      AgreesStep(StateTotals(Run(c, init)), AddedTotals(init), Contribution(step.block),
        StateTotals(Run(c, steps)), AddedTotals(steps));
    }
  }

  lemma NothingAgrees(c: Config, steps: seq<Step>)
    requires steps == []
    ensures StateTotals(Run(c, steps)).Agrees(AddedTotals(steps))
  {
    var s := Run(c, steps);
    assert s.ended == [] && s.current.None?;
    NoEnded(s.ended);
    EqualAgrees(StateTotals(s), AddedTotals(steps));
  }
}
