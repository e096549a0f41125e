/** The processor's workers: a goroutine per message, sharing the set of hashes being processed. */
module Workers {
  import opened Options
  import opened ProfitGate
  import opened MessageProcessing

  datatype Worker = Worker(delivery: Delivery, answers: Answers, phase: Phase)

  /** `processing` is guarded by a mutex, so that reading and writing it is one step. */
  datatype State = State(processing: set<nat>, workers: map<nat, Worker>)

  predicate Holds(w: Worker, hash: nat) {
    Active(w.phase) && w.delivery.Message? && w.delivery.event.txHash == hash
  }

  /** One atomic step of a worker: taking its hash, passing a gate, or giving its hash back. */
  function StepWorker(s: Settings, held: set<nat>, w: Worker): (set<nat>, Worker)
    requires Active(w.phase) ==> w.delivery.Message?
  {
    match w.phase
    case Received =>
      if !w.delivery.Message? then (held, w.(phase := Returned(Fail(Other))))
      else if w.delivery.event.txHash in held then (held, w.(phase := Refused))
      else (held + {w.delivery.event.txHash}, w.(phase := Guarded))
    case Leaving(result) => (held - {w.delivery.event.txHash}, w.(phase := Returned(result)))
    case Returned(_) => (held, w)
    case Refused => (held, w)
    case _ => (held, w.(phase := Advance(s, w.delivery, w.answers, w.phase)))
  }

  /** A message arrives and a worker is started for it, or a worker takes a step. */
  datatype Action = Arrive(id: nat, delivery: Delivery, answers: Answers) | Step(id: nat)

  function Next(s: Settings, st: State, action: Action): State
    requires Inv(s, st)
  {
    match action
    case Arrive(id, delivery, answers) =>
      if id in st.workers then st else st.(workers := st.workers[id := Worker(delivery, answers, Received)])
    case Step(id) =>
      if id !in st.workers then st
      else
        var (held, w) := StepWorker(s, st.processing, st.workers[id]);
        State(held, st.workers[id := w])
  }

  // ---- The invariant ----

  /** The phases an actual worker can be in: its hash in hand, it is on the way to the result that the gates
      come to; having returned, it came to that result. */
  predicate OnCourse(s: Settings, w: Worker) {
    match w.phase
    case Received => true
    case Returned(r) =>
      if w.delivery.Message? then r == GatesResult(s, w.delivery, w.answers) else r == Fail(Other)
    case Refused => w.delivery.Message?
    case _ => w.delivery.Message? && Destiny(s, w.delivery, w.answers, w.phase) == GatesResult(s, w.delivery, w.answers)
  }

  /** The worker has taken its hash, whether it still holds it or not. */
  predicate Took(w: Worker, hash: nat) {
    w.delivery.Message? && w.delivery.event.txHash == hash && !w.phase.Received? && !w.phase.Refused?
  }

  /** Where a worker has been refused, another one took the same hash. */
  ghost predicate RefusedForAnother(workers: map<nat, Worker>) {
    forall id :: id in workers && workers[id].phase.Refused? && workers[id].delivery.Message? ==>
      SomeTook(workers, workers[id].delivery.event.txHash)
  }

  ghost predicate SomeTook(workers: map<nat, Worker>, hash: nat) {
    exists id :: id in workers && Took(workers[id], hash)
  }

  /** The shared set is exactly the hashes that active workers hold, each held by one of them; a refusal has
      its reason. */
  ghost predicate Inv(s: Settings, st: State) {
    && (forall id :: id in st.workers ==> OnCourse(s, st.workers[id]))
    && (forall hash :: hash in st.processing <==> SomeHolds(st.workers, hash))
    && HeldByOne(st.workers)
    && RefusedForAnother(st.workers)
  }

  ghost predicate SomeHolds(workers: map<nat, Worker>, hash: nat) {
    exists id :: id in workers && Holds(workers[id], hash)
  }

  ghost predicate HeldByOne(workers: map<nat, Worker>) {
    forall i, j, hash ::
      (i in workers && Holds(workers[i], hash)) && (j in workers && Holds(workers[j], hash)) ==> i == j
  }

  lemma StepStaysOnCourse(s: Settings, held: set<nat>, w: Worker)
    requires OnCourse(s, w)
    ensures OnCourse(s, StepWorker(s, held, w).1)
  {
    if w.phase.Received? && w.delivery.Message? {
      GatesComeToResult(s, w.delivery, w.answers);
    }
  }

  /** A step takes the hash only if it was free, gives it back only when leaving, and touches no other. */
  lemma StepAndHashes(s: Settings, held: set<nat>, w: Worker, hash: nat)
    requires OnCourse(s, w)
    requires Holds(w, hash) ==> hash in held
    ensures var (after, v) := StepWorker(s, held, w);
            && (Holds(v, hash) && !Holds(w, hash) ==> hash !in held)
            && (hash in after <==> Holds(v, hash) || (hash in held && !Holds(w, hash)))
  {
  }

  lemma StepKeepsInv(s: Settings, st: State, id: nat)
    requires Inv(s, st) && id in st.workers
    ensures Inv(s, Next(s, st, Step(id)))
  {
    StepStaysOnCourse(s, st.processing, st.workers[id]);
    StepKeepsHolders(s, st, id);
    StepKeepsReasons(s, st, id);
  }

  lemma StepKeepsHolders(s: Settings, st: State, id: nat)
    requires Inv(s, st) && id in st.workers
    ensures var after := Next(s, st, Step(id));
            && (forall hash :: hash in after.processing <==> SomeHolds(after.workers, hash))
            && HeldByOne(after.workers)
  {
    var w := st.workers[id];
    var (held, v) := StepWorker(s, st.processing, w);
    var after := Next(s, st, Step(id));
    forall hash ensures hash in after.processing <==> SomeHolds(after.workers, hash) {
      StepAndHashes(s, st.processing, w, hash);
      assert Holds(w, hash) ==> SomeHolds(st.workers, hash);
      if hash in after.processing && !Holds(v, hash) {
        var j :| j in st.workers && Holds(st.workers[j], hash);
        assert j in after.workers && Holds(after.workers[j], hash);
      }
      if Holds(v, hash) {
        assert id in after.workers && Holds(after.workers[id], hash);
      }
    }
    forall i, j, hash | i in after.workers && j in after.workers
      && Holds(after.workers[i], hash) && Holds(after.workers[j], hash) ensures i == j
    {
      StepAndHashes(s, st.processing, w, hash);
      assert Holds(w, hash) ==> SomeHolds(st.workers, hash);
      assert i != id ==> Holds(st.workers[i], hash) && SomeHolds(st.workers, hash);
      assert j != id ==> Holds(st.workers[j], hash) && SomeHolds(st.workers, hash);
    }
  }

  /** Having taken a hash is for good, and a hash found held was taken by another. */
  lemma StepKeepsReasons(s: Settings, st: State, id: nat)
    requires Inv(s, st) && id in st.workers
    ensures RefusedForAnother(Next(s, st, Step(id)).workers)
  {
    var after := Next(s, st, Step(id)).workers;
    forall hash | SomeTook(st.workers, hash) ensures SomeTook(after, hash) {
      var j :| j in st.workers && Took(st.workers[j], hash);
      assert j in after && Took(after[j], hash);
    }
    forall j | j in after && after[j].phase.Refused? && after[j].delivery.Message?
      ensures SomeTook(after, after[j].delivery.event.txHash)
    {
      var hash := after[j].delivery.event.txHash;
      if !st.workers[j].phase.Refused? {
        assert SomeHolds(st.workers, hash);
        var k :| k in st.workers && Holds(st.workers[k], hash);
        assert Took(st.workers[k], hash);
      }
    }
  }

  lemma ArriveKeepsInv(s: Settings, st: State, id: nat, delivery: Delivery, answers: Answers)
    requires Inv(s, st)
    ensures Inv(s, Next(s, st, Arrive(id, delivery, answers)))
  {
    var after := Next(s, st, Arrive(id, delivery, answers));
    forall hash ensures SomeHolds(after.workers, hash) <==> SomeHolds(st.workers, hash) {
      if SomeHolds(st.workers, hash) {
        var j :| j in st.workers && Holds(st.workers[j], hash);
        assert j in after.workers && Holds(after.workers[j], hash);
      }
    }
    forall hash | SomeTook(st.workers, hash) ensures SomeTook(after.workers, hash) {
      var j :| j in st.workers && Took(st.workers[j], hash);
      assert j in after.workers && Took(after.workers[j], hash);
    }
  }

  /** The state after any interleaving of arrivals and steps. */
  function Run(s: Settings, actions: seq<Action>): (st: State)
    ensures Inv(s, st)
  {
    if actions == [] then State({}, map[])
    else
      var st := Run(s, actions[..|actions| - 1]);
      var action := actions[|actions| - 1];
      NextKeepsInv(s, st, action);
      Next(s, st, action)
  }

  lemma NextKeepsInv(s: Settings, st: State, action: Action)
    requires Inv(s, st)
    ensures Inv(s, Next(s, st, action))
  {
    match action
    case Arrive(id, delivery, answers) => ArriveKeepsInv(s, st, id, delivery, answers);
    case Step(id) =>
      if id in st.workers {
        StepKeepsInv(s, st, id);
      }
  }

  /** In every interleaving, two workers that are past the guard at the same time have different hashes. */
  lemma MutualExclusion(s: Settings, actions: seq<Action>, i: nat, j: nat)
    requires i in Run(s, actions).workers && j in Run(s, actions).workers && i != j
    requires Active(Run(s, actions).workers[i].phase) && Active(Run(s, actions).workers[j].phase)
    ensures Run(s, actions).workers[i].delivery.Message? && Run(s, actions).workers[j].delivery.Message?
    ensures Run(s, actions).workers[i].delivery.event.txHash != Run(s, actions).workers[j].delivery.event.txHash
  {
    var st := Run(s, actions);
    assert OnCourse(s, st.workers[i]) && OnCourse(s, st.workers[j]);
    assert Holds(st.workers[i], st.workers[i].delivery.event.txHash);
    assert Holds(st.workers[j], st.workers[j].delivery.event.txHash);
  }

  /** In every interleaving, nothing is held once all workers have returned. */
  lemma AllReturnedReleasesAll(s: Settings, actions: seq<Action>)
    requires forall id :: id in Run(s, actions).workers ==> Finished(Run(s, actions).workers[id].phase)
    ensures Run(s, actions).processing == {}
  {
  }

  /** Each step of a worker that has not returned brings it closer to returning, whatever the others do. */
  lemma StepsEnd(s: Settings, st: State, id: nat)
    requires Inv(s, st) && id in st.workers && !Finished(st.workers[id].phase)
    ensures Rank(Next(s, st, Step(id)).workers[id].phase) < Rank(st.workers[id].phase)
  {
    assert OnCourse(s, st.workers[id]);
  }

  lemma EveryHashIsTaken(s: Settings, st: State)
    requires Inv(s, st) && forall id :: id in st.workers ==> Finished(st.workers[id].phase)
    ensures st.processing == {}
    ensures forall id :: id in st.workers && st.workers[id].delivery.Message? ==>
            SomeTook(st.workers, st.workers[id].delivery.event.txHash)
  {
    forall id | id in st.workers && st.workers[id].delivery.Message?
      ensures SomeTook(st.workers, st.workers[id].delivery.event.txHash)
    {
      assert st.workers[id].phase.Refused? || Took(st.workers[id], st.workers[id].delivery.event.txHash);
    }
  }

  /** A finished worker has answered the queue once, unless a transient error stopped it. Its message is
      refused without being put back exactly when it carried no event, when its hash was held, or when its gates
      came to an error that drops it. */
  lemma FinishedAnswersOnce(s: Settings, w: Worker)
    requires OnCourse(s, w) && Finished(w.phase)
    ensures var r := ResultOf(w.phase);
            var calls := Dispose(r);
            && TimesAnswered(calls) == (if r.error == Some(Transient) then 0 else 1)
            && (Nack(false) in calls
                <==> !w.delivery.Message? || w.phase.Refused?
                     || (var gates := GatesResult(s, w.delivery, w.answers).error; gates.Some? && Dropped(gates.value)))
  {
    if w.delivery.Message? {
      RequeuedIffPaused(s, w.delivery, w.answers);
    }
    AnsweredOnce(ResultOf(w.phase));
  }

  // ---- The processor ----

  /** Arrivals still to come. */
  datatype Arrival = Arrival(delivery: Delivery, answers: Answers)

  predicate IsFor(w: Worker, arrival: Arrival) {
    w.delivery == arrival.delivery && w.answers == arrival.answers
  }

  /** The worker is for the arrival and, unless it is still running, has returned and told the queue. */
  predicate Accounted(w: Worker, calls: map<nat, seq<QueueCall>>, id: nat, arrival: Arrival, running: bool) {
    && IsFor(w, arrival)
    && (running <==> !Finished(w.phase))
    && (Finished(w.phase) ==> id in calls && calls[id] == Dispose(ResultOf(w.phase)))
  }

  /** The first `started` arrivals have their workers; those not `running` have returned and told the queue. */
  ghost predicate AllAccounted(workers: map<nat, Worker>, calls: map<nat, seq<QueueCall>>,
                               arrivals: seq<Arrival>, started: nat, running: set<nat>)
  {
    && started <= |arrivals|
    && (forall id: nat :: id in workers <==> id < started)
    && (forall id :: id in running ==> id in workers)
    && (forall id :: id in workers ==> Accounted(workers[id], calls, id, arrivals[id], id in running))
  }

  lemma AccountedAfterTurn(before: map<nat, Worker>, after: map<nat, Worker>, calls: map<nat, seq<QueueCall>>,
                           arrivals: seq<Arrival>, started: nat, running: set<nat>, id: nat)
    requires AllAccounted(before, calls, arrivals, started, running) && id in running
    requires after.Keys == before.Keys && forall j :: j in before && j != id ==> after[j] == before[j]
    requires IsFor(after[id], arrivals[id])
    ensures if Finished(after[id].phase)
            then AllAccounted(after, calls[id := Dispose(ResultOf(after[id].phase))], arrivals, started, running - {id})
            else AllAccounted(after, calls, arrivals, started, running)
  {
    assert forall j :: j in before && j != id ==> Accounted(before[j], calls, j, arrivals[j], j in running);
  }

  function TotalRank(workers: map<nat, Worker>, n: nat): nat {
    if n == 0 then 0
    else TotalRank(workers, n - 1) + (if n - 1 in workers then Rank(workers[n - 1].phase) else 0)
  }

  lemma {:induction false} TotalRankDrops(before: map<nat, Worker>, after: map<nat, Worker>, n: nat, id: nat)
    requires id < n && id in before && after.Keys == before.Keys
    requires forall j :: j in before && j != id ==> after[j] == before[j]
    requires Rank(after[id].phase) < Rank(before[id].phase)
    ensures TotalRank(after, n) < TotalRank(before, n)
  {
    if id < n - 1 {
      TotalRankDrops(before, after, n - 1, id);
    } else {
      TotalRankSame(before, after, n - 1);
    }
  }

  lemma {:induction false} TotalRankSame(before: map<nat, Worker>, after: map<nat, Worker>, n: nat)
    requires forall j :: 0 <= j < n ==> (j in before <==> j in after) && (j in before ==> after[j] == before[j])
    ensures TotalRank(after, n) == TotalRank(before, n)
  {
    if n > 0 {
      TotalRankSame(before, after, n - 1);
    }
  }

  class Processor {
    const settings: Settings
    var processingTxHashes: set<nat>
    var workers: map<nat, Worker>

    /** What each worker that has returned told the queue. */
    var queueCalls: map<nat, seq<QueueCall>>

    ghost predicate Valid()
      reads this
    {
      Inv(settings, State(processingTxHashes, workers))
    }

    constructor (settings: Settings)
      ensures Valid() && this.settings == settings && workers == map[] && processingTxHashes == {}
    {
      this.settings := settings;
      processingTxHashes := {};
      workers, queueCalls := map[], map[];
    }

    /** Takes the hash if it is free. */
    method CheckHash(hash: nat) returns (error: Option<Error>)
      modifies this`processingTxHashes
      ensures error == if hash in old(processingTxHashes) then Some(AlreadyProcessing) else None
      ensures processingTxHashes == old(processingTxHashes) + {hash}
    {
      if hash in processingTxHashes {
        return Some(AlreadyProcessing);
      }
      processingTxHashes := processingTxHashes + {hash};
      return None;
    }

    method Release(hash: nat)
      modifies this`processingTxHashes
      ensures processingTxHashes == old(processingTxHashes) - {hash}
    {
      processingTxHashes := processingTxHashes - {hash};
    }

    method Step(id: nat)
      requires Valid() && id in workers
      modifies this`processingTxHashes, this`workers
      ensures Valid()
      ensures State(processingTxHashes, workers)
           == Next(settings, old(State(processingTxHashes, workers)), Action.Step(id))
    {
      StepKeepsInv(settings, State(processingTxHashes, workers), id);
      var w := workers[id];
      assert OnCourse(settings, w);
      var phase := w.phase;
      match w.phase {
        case Received =>
          if !w.delivery.Message? {
            phase := Returned(Fail(Other));
          } else {
            var error := CheckHash(w.delivery.event.txHash);
            phase := if error.Some? then Refused else Guarded;
          }
        case Leaving(result) =>
          Release(w.delivery.event.txHash);
          phase := Returned(result);
        case Returned(_) =>
        case Refused =>
        case _ =>
          phase := Advance(settings, w.delivery, w.answers, w.phase);
      }
      workers := workers[id := w.(phase := phase)];
    }

    /** Starts a worker per arrival and lets them take turns in an order nobody chooses. All return, nothing
        stays held, each answers the queue for the result its gates come to or for a refusal, and every hash
        that arrived has been taken by some worker. */
    method EventLoop(arrivals: seq<Arrival>)
      requires Valid() && workers == map[]
      modifies this
      ensures Valid() && processingTxHashes == {}
      ensures forall id: nat :: id in workers <==> id < |arrivals|
      ensures forall id: nat :: id < |arrivals| ==>
              && IsFor(workers[id], arrivals[id])
              && Finished(workers[id].phase) && OnCourse(settings, workers[id])
              && id in queueCalls && queueCalls[id] == Dispose(ResultOf(workers[id].phase))
      ensures forall id: nat :: id < |arrivals| && arrivals[id].delivery.Message? ==>
              SomeTook(workers, arrivals[id].delivery.event.txHash)
    {
      var started := 0;
      var running: set<nat> := {};
      while started < |arrivals| || running != {}
        invariant Underway(arrivals, started, running)
        decreases |arrivals| - started, TotalRank(workers, started)
      {
        if
        case started < |arrivals| =>
          Start(started, arrivals[started], arrivals, running);
          running := running + {started};
          started := started + 1;
        case running != {} =>
          var id :| id in running;
          running := TakeTurn(id, arrivals, started, running);
      }
      EveryHashIsTaken(settings, State(processingTxHashes, workers));
    }

    ghost predicate Underway(arrivals: seq<Arrival>, started: nat, running: set<nat>)
      reads this
    {
      Valid() && AllAccounted(workers, queueCalls, arrivals, started, running)
    }

    /** One worker's step, after which it has told the queue if it has returned. */
    method TakeTurn(id: nat, ghost arrivals: seq<Arrival>, ghost started: nat, running: set<nat>)
      returns (still: set<nat>)
      requires Underway(arrivals, started, running) && id in running
      modifies this
      ensures Underway(arrivals, started, still)
      ensures TotalRank(workers, started) < TotalRank(old(workers), started)
    {
      ghost var before, calls := workers, queueCalls;
      Turn(id, started);
      still := running;
      if Finished(workers[id].phase) {
        queueCalls := queueCalls[id := Dispose(ResultOf(workers[id].phase))];
        still := still - {id};
      }
      AccountedAfterTurn(before, workers, calls, arrivals, started, running, id);
    }

    /** A step, seen from the loop: one worker comes closer to returning, the others stay as they are. */
    method Turn(id: nat, ghost n: nat)
      requires Valid() && id in workers && id < n && !Finished(workers[id].phase)
      modifies this`processingTxHashes, this`workers
      ensures Valid() && workers.Keys == old(workers).Keys
      ensures forall j :: j in workers && j != id ==> workers[j] == old(workers)[j]
      ensures forall arrival :: IsFor(old(workers)[id], arrival) ==> IsFor(workers[id], arrival)
      ensures TotalRank(workers, n) < TotalRank(old(workers), n)
    {
      ghost var before := workers;
      StepsEnd(settings, State(processingTxHashes, workers), id);
      Step(id);
      TotalRankDrops(before, workers, n, id);
    }

    method Start(id: nat, arrival: Arrival, ghost arrivals: seq<Arrival>, ghost running: set<nat>)
      requires Underway(arrivals, id, running) && id < |arrivals| && arrivals[id] == arrival
      modifies this`workers
      ensures Underway(arrivals, id + 1, running + {id})
    {
      ArriveKeepsInv(settings, State(processingTxHashes, workers), id, arrival.delivery, arrival.answers);
      workers := workers[id := Worker(arrival.delivery, arrival.answers, Received)];
    }
  }
}
