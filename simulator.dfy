/** The whole predictor as a value: the BTB table, the shared history register
    and the six global counters, with each operation of the simulator as a
    transition on that value. The class in module BranchPredictor is proved to
    perform exactly these transitions. */
module Simulator {
  import opened Perceptron
  import opened Btb

  /** Everything the per-event handler reads or writes. */
  datatype State = State(
    table: seq<Entry>,     // BTB[]
    history: seq<int>,     // History[]
    seen: nat,             // CountSeen
    takenCount: nat,       // CountTaken
    correct: nat,          // CountCorrect
    replaced: nat,         // CountReplaced
    hits: nat,             // BTBHit
    misses: nat)           // BTBMiss

  /** One branch event as delivered by the instrumentation layer. */
  datatype Event = Event(addr: Addr, taken: bool)

  /** Shape of the state: a full table whose perceptrons all have HISTORY_LEN
      weights, and a well-formed history register. */
  predicate WellFormed(s: State)
  {
    && |s.table| == BTB_SIZE
    && (forall i :: 0 <= i < |s.table| ==> |s.table[i].weights| == HISTORY_LEN)
    && HistoryOk(s.history)
  }

  /** The bookkeeping that holds between events: every event is either a hit
      or a miss, the global replacement count is the sum of the per-slot
      counts, and no more branches are taken or predicted correctly than seen. */
  predicate Inv(s: State)
  {
    && WellFormed(s)
    && s.hits + s.misses == s.seen
    && s.replaced == TotalReplaced(s.table)
    && s.correct <= s.seen
    && s.takenCount <= s.seen
  }

  /** BTB_init: every slot emptied; history and counters untouched. Afterwards
      every lookup misses. */
  function Initialized(s: State): (r: State)
    ensures |r.table| == BTB_SIZE
    ensures forall a :: !IsHit(r.table, a)
  {
    s.(table := EmptyTable())
  }

  /** The state at the first event: static storage (all zero, History = {1})
      after BTB_init. */
  function Boot(): (r: State)
    ensures WellFormed(r) && r.history == INITIAL_HISTORY
    ensures forall a :: !IsHit(r.table, a)
  {
    Initialized(State([], INITIAL_HISTORY, 0, 0, 0, 0, 0, 0))
  }

  /** BTB_lookup: counts a hit or a miss; nothing else changes. */
  function AfterLookup(s: State, a: Addr): (r: State)
    requires |s.table| == BTB_SIZE
    ensures r.hits == s.hits + (if IsHit(s.table, a) then 1 else 0)
    ensures r.misses == s.misses + (if IsHit(s.table, a) then 0 else 1)
    ensures r == s.(hits := r.hits, misses := r.misses)
  {
    if IsHit(s.table, a) then s.(hits := s.hits + 1) else s.(misses := s.misses + 1)
  }

  /** BTB_prediction: the perceptron of a's slot, applied to the shared history.
      Addresses that share a slot share its perceptron, so they are predicted alike. */
  predicate Predict(s: State, a: Addr)
    requires WellFormed(s)
    ensures forall b :: SlotIndex(b) == SlotIndex(a) ==>
      (Predict(s, a) <==> PredictsTaken(s.history, s.table[SlotIndex(b)].weights))
  {
    PredictsTaken(s.history, s.table[SlotIndex(a)].weights)
  }

  /** Two addresses that share a slot are always predicted alike: the tag
      plays no part in BTB_prediction. */
  lemma SlotPeersPredictAlike(s: State, a: Addr, b: Addr)
    requires WellFormed(s) && SlotIndex(a) == SlotIndex(b)
    ensures Predict(s, a) == Predict(s, b)
  {
  }

  /** BTB_update: train a's slot when the rule says so, then record the outcome
      in the history register. */
  function AfterUpdate(s: State, a: Addr, taken: bool): (r: State)
    requires WellFormed(s)
    ensures WellFormed(r)
  {
    var i := SlotIndex(a);
    var w := s.table[i].weights;
    var t := Outcome(taken);
    var w' := if ShouldTrain(s.history, w, taken) then Trained(w, s.history, t) else w;
    ShiftedKeepsHistoryOk(s.history, taken);
    s.(table := s.table[i := s.table[i].(weights := w')],
       history := Shifted(s.history, t))
  }

  /** BTB_insert: install a in its slot, counting a replacement when the slot
      was occupied. */
  function AfterInsert(s: State, a: Addr): (r: State)
    requires WellFormed(s)
    ensures WellFormed(r)
  {
    var i := SlotIndex(a);
    s.(table := s.table[i := Installed(s.table[i], a)],
       replaced := if s.table[i].valid then s.replaced + 1 else s.replaced)
  }

  /** br_predict's first lines: CountSeen++, and CountTaken++ if taken. */
  function Counted(s: State, taken: bool): (r: State)
    ensures r.seen == s.seen + 1
    ensures r.takenCount == s.takenCount + (if taken then 1 else 0)
    ensures r == s.(seen := r.seen, takenCount := r.takenCount)
  {
    s.(seen := s.seen + 1, takenCount := if taken then s.takenCount + 1 else s.takenCount)
  }

  /** CountCorrect++ when the event was predicted correctly. */
  function Scored(s: State, correct: bool): (r: State)
    ensures r.correct == s.correct + (if correct then 1 else 0)
    ensures r == s.(correct := r.correct)
  {
    if correct then s.(correct := s.correct + 1) else s
  }

  /** br_predict (without the branch-limit exit): one event. A hit is scored
      against the perceptron and trains it; a miss counts as a "not taken"
      prediction, and a taken miss is inserted. */
  function Step(s: State, a: Addr, taken: bool): (r: State)
    requires WellFormed(s)
    ensures WellFormed(r)
  {
    var s2 := AfterLookup(Counted(s, taken), a);
    if IsHit(s.table, a) then
      AfterUpdate(Scored(s2, Predict(s2, a) == taken), a, taken)
    else if !taken then
      Scored(s2, true)
    else
      AfterInsert(s2, a)
  }

  /** A sequence of events, handled in order. */
  function Run(s: State, events: seq<Event>): (r: State)
    requires WellFormed(s)
    ensures WellFormed(r)
    ensures r.seen == s.seen + |events|
    decreases |events|
  {
    if events == [] then s else Run(Step(s, events[0].addr, events[0].taken), events[1..])
  }

  // ---------------------------------------------------------------------
  // Properties of the single operations
  // ---------------------------------------------------------------------

  /** BTB_init empties every slot and keeps history and counters. */
  lemma InitializedEmptiesTable(s: State)
    ensures var r := Initialized(s);
      && |r.table| == BTB_SIZE
      && (forall i :: 0 <= i < BTB_SIZE ==>
            && !r.table[i].valid && !r.table[i].prediction
            && r.table[i].tag == 0 && r.table[i].replaceCount == 0
            && |r.table[i].weights| == HISTORY_LEN
            && (forall j :: 0 <= j < HISTORY_LEN ==> r.table[i].weights[j] == 0))
      && r.history == s.history
      && (r.seen, r.takenCount, r.correct, r.replaced, r.hits, r.misses)
         == (s.seen, s.takenCount, s.correct, s.replaced, s.hits, s.misses)
  {
  }

  /** The state at the first event satisfies the bookkeeping invariant. */
  lemma BootInv()
    ensures Inv(Boot())
  {
    TotalReplacedZero(EmptyTable());
  }

  /** A lookup hits iff a's slot is valid and tagged a; it bumps exactly one of
      the hit and miss counters and changes nothing else. */
  lemma LookupCountsOnce(s: State, a: Addr)
    requires |s.table| == BTB_SIZE
    ensures var r := AfterLookup(s, a);
      && (IsHit(s.table, a) <==> s.table[(a & MASK) as int].valid && s.table[(a & MASK) as int].tag == a)
      && r.hits == s.hits + (if IsHit(s.table, a) then 1 else 0)
      && r.misses == s.misses + (if IsHit(s.table, a) then 0 else 1)
      && r == s.(hits := r.hits, misses := r.misses)
  {
  }

  /** The training condition, spelled out: train on a wrong prediction or when
      the output lies in [-33, 33]. */
  lemma TrainingCondition(h: seq<int>, w: seq<int>, taken: bool)
    requires |h| == |w|
    ensures ShouldTrain(h, w, taken) <==> (Dot(h, w) > 0) != taken || -33 <= Dot(h, w) <= 33
  {
  }

  /** Each disjunct of the training condition can decide on its own: with the
      initial history, a first weight of 40 gives a confident output (40) that
      is trained only when mispredicted, while a first weight of 5 gives an
      output (5) below the threshold that is trained even when correct. */
  lemma TrainingConditionWitnesses()
    ensures var confident := [40, 0, 0, 0, 0, 0, 0, 0, 0, 0];
      && Dot(INITIAL_HISTORY, confident) == 40
      && !ShouldTrain(INITIAL_HISTORY, confident, true)
      && ShouldTrain(INITIAL_HISTORY, confident, false)
    ensures var weak := [5, 0, 0, 0, 0, 0, 0, 0, 0, 0];
      && PredictsTaken(INITIAL_HISTORY, weak)
      && ShouldTrain(INITIAL_HISTORY, weak, true)
  {
    DotFirstOnly(INITIAL_HISTORY, [40, 0, 0, 0, 0, 0, 0, 0, 0, 0]);
    DotFirstOnly(INITIAL_HISTORY, [5, 0, 0, 0, 0, 0, 0, 0, 0, 0]);
  }

  /** BTB_update records the outcome: History[0] becomes t and every other
      position takes its predecessor's old value, whether or not the weights
      were trained. */
  lemma UpdateShiftsHistory(s: State, a: Addr, taken: bool)
    requires WellFormed(s)
    ensures var r := AfterUpdate(s, a, taken);
      && r.history[0] == (if taken then 1 else -1)
      && (forall i :: 1 <= i < HISTORY_LEN ==> r.history[i] == s.history[i - 1])
  {
  }

  /** BTB_update changes the weights of a's slot iff the training condition
      holds, and then to w[i] + t * History[i]; every other field of that slot
      and every other slot stay as they were, and so do the counters. */
  lemma UpdateTrainsIff(s: State, a: Addr, taken: bool)
    requires WellFormed(s)
    ensures var r := AfterUpdate(s, a, taken);
      var i := SlotIndex(a);
      var w := s.table[i].weights;
      && (r.table[i].weights != w <==> ShouldTrain(s.history, w, taken))
      && (ShouldTrain(s.history, w, taken) ==>
            forall j :: 0 <= j < HISTORY_LEN ==>
              r.table[i].weights[j] == w[j] + Outcome(taken) * s.history[j])
      && r.table[i] == s.table[i].(weights := r.table[i].weights)
      && (forall k :: 0 <= k < BTB_SIZE && k != i ==> r.table[k] == s.table[k])
      && r == s.(table := r.table, history := r.history)
  {
    var i := SlotIndex(a);
    var w := s.table[i].weights;
    var t := Outcome(taken);
    if ShouldTrain(s.history, w, taken) {
      assert Trained(w, s.history, t)[0] != w[0];
    }
  }

  /** BTB_insert installs a with prediction "taken", keeps the slot's weights,
      counts a replacement iff the slot was occupied, and afterwards a lookup
      of a hits while a lookup of any other address of the same slot misses. */
  lemma InsertInstalls(s: State, a: Addr)
    requires WellFormed(s)
    ensures var r := AfterInsert(s, a);
      var i := SlotIndex(a);
      && IsHit(r.table, a)
      && (forall b :: b != a && SlotIndex(b) == i ==> !IsHit(r.table, b))
      && r.table[i].prediction
      && r.table[i].weights == s.table[i].weights
      && r.table[i].replaceCount == s.table[i].replaceCount + (if s.table[i].valid then 1 else 0)
      && r.replaced == s.replaced + (if s.table[i].valid then 1 else 0)
      && (forall k :: 0 <= k < BTB_SIZE && k != i ==> r.table[k] == s.table[k])
      && r == s.(table := r.table, replaced := r.replaced)
  {
  }

  /** Two addresses that share a slot evict each other: inserting a then b
      raises that slot's replacement count by exactly 1 and a no longer hits. */
  lemma AliasedInsertEvicts(s: State, a: Addr, b: Addr)
    requires WellFormed(s)
    requires a != b && SlotIndex(a) == SlotIndex(b)
    ensures var r := AfterInsert(AfterInsert(s, a), b);
      && r.table[SlotIndex(a)].replaceCount == AfterInsert(s, a).table[SlotIndex(a)].replaceCount + 1
      && IsHit(r.table, b)
      && !IsHit(r.table, a)
  {
  }

  // ---------------------------------------------------------------------
  // Properties of one event and of event sequences
  // ---------------------------------------------------------------------

  /** br_predict's counters: seen grows by 1, taken by 1 iff the branch was
      taken, and correct by 1 iff the event was predicted correctly, where a
      hit is predicted by the perceptron and a miss counts as "not taken". A
      miss leaves history and all weights alone, and a not-taken miss leaves
      the whole table alone. */
  lemma StepBookkeeping(s: State, a: Addr, taken: bool)
    requires WellFormed(s)
    ensures var r := Step(s, a, taken);
      && r.seen == s.seen + 1
      && r.takenCount == s.takenCount + (if taken then 1 else 0)
      && r.correct == s.correct + (if (IsHit(s.table, a) && Predict(s, a)) == taken then 1 else 0)
      && r.hits + r.misses == s.hits + s.misses + 1
      && (!IsHit(s.table, a) ==>
            && r.history == s.history
            && (forall k :: 0 <= k < BTB_SIZE ==> r.table[k].weights == s.table[k].weights))
      && (!IsHit(s.table, a) && !taken ==> r.table == s.table)
      && (r.replaced != s.replaced ==>
            && r.replaced == s.replaced + 1
            && s.table[SlotIndex(a)].valid && s.table[SlotIndex(a)].tag != a)
  {
  }

  /** One event preserves the bookkeeping invariant. */
  lemma StepInv(s: State, a: Addr, taken: bool)
    requires Inv(s)
    ensures Inv(Step(s, a, taken))
  {
    var i := SlotIndex(a);
    var r := Step(s, a, taken);
    StepBookkeeping(s, a, taken);
    StepTable(s, a, taken);
    TotalReplacedUpdate(s.table, i, r.table[i]);
  }

  /** One event rewrites at most a's slot, and moves its replacement counter
      exactly when the global one moves. */
  lemma StepTable(s: State, a: Addr, taken: bool)
    requires WellFormed(s)
    ensures var r := Step(s, a, taken);
      var i := SlotIndex(a);
      && r.table == s.table[i := r.table[i]]
      && r.replaced - s.replaced == r.table[i].replaceCount - s.table[i].replaceCount
  {
    var i := SlotIndex(a);
    var r := Step(s, a, taken);
    if IsHit(s.table, a) {
      assert r.table == s.table[i := r.table[i]];
    } else if taken {
      assert r.table == s.table[i := Installed(s.table[i], a)];
    }
  }

  /** Any sequence of events preserves the bookkeeping invariant and counts
      each event once. */
  lemma {:induction false} RunInv(s: State, events: seq<Event>)
    requires Inv(s)
    ensures var r := Run(s, events);
      && Inv(r)
      && r.seen == s.seen + |events|
    decreases |events|
  {
    if events != [] {
      var e := events[0];
      StepInv(s, e.addr, e.taken);
      StepBookkeeping(s, e.addr, e.taken);
      RunInv(Step(s, e.addr, e.taken), events[1..]);
    }
  }

  /** From program start, after any events: hits + misses == seen and the
      global replacement count is the sum of the per-slot counts. */
  lemma BookkeepingFromBoot(events: seq<Event>)
    ensures var r := Run(Boot(), events);
      Inv(r) && r.seen == |events|
  {
    BootInv();
    RunInv(Boot(), events);
  }

  // ---------------------------------------------------------------------
  // Scenario: one branch, always taken
  // ---------------------------------------------------------------------

  /** n copies of one event. */
  function Repeat(e: Event, n: nat): seq<Event>
  {
    seq(n, _ => e)
  }

  /** a's slot holds a, and with non-negative history and weights and a
      positive first weight its perceptron already predicts "taken". */
  predicate Learned(s: State, a: Addr)
    requires WellFormed(s)
  {
    var e := s.table[SlotIndex(a)];
    && Holds(e, a)
    && (forall j :: 0 <= j < HISTORY_LEN ==> s.history[j] >= 0 && e.weights[j] >= 0)
    && e.weights[0] >= 1
  }

  /** Once learned, a taken event for a is a hit, predicted correctly, and
      keeps the slot learned. */
  lemma LearnedStep(s: State, a: Addr)
    requires WellFormed(s) && Learned(s, a)
    ensures var r := Step(s, a, true);
      && Learned(r, a)
      && r.correct == s.correct + 1
      && r.seen == s.seen + 1
      && r.hits == s.hits + 1 && r.misses == s.misses
      && r.replaced == s.replaced
  {
    var i := SlotIndex(a);
    var w := s.table[i].weights;
    DotNonNegativeBound(s.history, w);
    assert s.history[0] == 1;
    assert Predict(s, a);
    var r := Step(s, a, true);
    assert r.history == Shifted(s.history, 1);
  }

  /** A learned branch taken n more times is predicted correctly every time. */
  lemma {:induction false} LearnedRun(s: State, a: Addr, n: nat)
    requires WellFormed(s) && Learned(s, a)
    decreases n
    ensures var r := Run(s, Repeat(Event(a, true), n));
      && r.correct == s.correct + n
      && r.seen == s.seen + n
      && r.hits == s.hits + n && r.misses == s.misses
      && r.replaced == s.replaced
  {
    if n > 0 {
      var e := Event(a, true);
      assert Repeat(e, n)[0] == e;
      assert Repeat(e, n)[1..] == Repeat(e, n - 1);
      LearnedStep(s, a);
      LearnedRun(Step(s, a, true), a, n - 1);
    }
  }

  /** A taken branch whose slot is empty misses and is installed there,
      without a replacement and without touching the history. */
  lemma TakenIntoEmptySlot(s: State, a: Addr)
    requires WellFormed(s) && !s.table[SlotIndex(a)].valid
    ensures var r := Step(s, a, true);
      var i := SlotIndex(a);
      && Holds(r.table[i], a)
      && r.table[i].weights == s.table[i].weights
      && r.history == s.history
      && r.seen == s.seen + 1 && r.misses == s.misses + 1 && r.hits == s.hits
      && r.correct == s.correct && r.replaced == s.replaced
  {
  }

  /** A taken branch that hits an all-zero perceptron with a non-negative
      history is mispredicted (output 0) and trained, after which it is learned. */
  lemma TakenOnZeroWeights(s: State, a: Addr)
    requires WellFormed(s) && Holds(s.table[SlotIndex(a)], a)
    requires forall j :: 0 <= j < HISTORY_LEN ==> s.table[SlotIndex(a)].weights[j] == 0
    requires forall j :: 0 <= j < HISTORY_LEN ==> s.history[j] >= 0
    ensures var r := Step(s, a, true);
      && Learned(r, a)
      && r.seen == s.seen + 1 && r.hits == s.hits + 1 && r.misses == s.misses
      && r.correct == s.correct && r.replaced == s.replaced
  {
    var i := SlotIndex(a);
    DotZeroWeights(s.history, s.table[i].weights);
    var s2 := AfterLookup(Counted(s, true), a);
    assert s2.table == s.table && s2.history == s.history;
    assert !Predict(s2, a);
    assert Step(s, a, true) == AfterUpdate(s2, a, true);
    ZeroWeightsLearnOnTaken(s2, a);
  }

  /** Training all-zero weights towards "taken" on a non-negative history
      leaves the slot learned. */
  lemma ZeroWeightsLearnOnTaken(s: State, a: Addr)
    requires WellFormed(s) && Holds(s.table[SlotIndex(a)], a)
    requires forall j :: 0 <= j < HISTORY_LEN ==> s.table[SlotIndex(a)].weights[j] == 0
    requires forall j :: 0 <= j < HISTORY_LEN ==> s.history[j] >= 0
    ensures Learned(AfterUpdate(s, a, true), a)
  {
    var i := SlotIndex(a);
    var w := s.table[i].weights;
    var r := AfterUpdate(s, a, true);
    DotZeroWeights(s.history, w);
    var w' := Trained(w, s.history, 1);
    assert r.table[i] == s.table[i].(weights := w');
    assert forall j :: 0 <= j < HISTORY_LEN ==> w'[j] == s.history[j];
    assert r.history == Shifted(s.history, 1);
  }

  /** From program start, address 0x1000 taken n >= 2 times in a row: the
      first event misses and inserts, the second hits but is mispredicted
      (all weights are 0), and every later one is predicted correctly; from
      20 events on, accuracy is at least 90%. */
  lemma AlwaysTakenScenario(n: nat)
    requires n >= 2
    ensures var r := Run(Boot(), Repeat(Event(0x1000, true), n));
      && r.seen == n
      && r.misses == 1 && r.hits == n - 1
      && r.correct == n - 2
      && r.replaced == 0
      && (n >= 20 ==> 10 * r.correct >= 9 * r.seen)
  {
    var a: Addr := 0x1000;
    var s0 := Boot();
    assert SlotIndex(a) == 0;
    TakenIntoEmptySlot(s0, a);
    var s1 := Step(s0, a, true);
    TakenOnZeroWeights(s1, a);
    RunTwoThenRest(s0, Event(a, true), n);
    LearnedRun(Step(s1, a, true), a, n - 2);
  }

  /** Splitting the first two events off a run of copies. */
  lemma RunTwoThenRest(s: State, e: Event, n: nat)
    requires WellFormed(s) && n >= 2
    ensures Run(s, Repeat(e, n))
         == Run(Step(Step(s, e.addr, e.taken), e.addr, e.taken), Repeat(e, n - 2))
  {
    assert Repeat(e, n)[0] == e;
    assert Repeat(e, n)[1..] == Repeat(e, n - 1);
    assert Repeat(e, n - 1)[0] == e;
    assert Repeat(e, n - 1)[1..] == Repeat(e, n - 2);
  }

  // ---------------------------------------------------------------------
  // Scenario: two aliasing branches, alternating
  // ---------------------------------------------------------------------

  /** n rounds of "a taken, then b taken". */
  function Alternate(a: Addr, b: Addr, n: nat): seq<Event>
  {
    if n == 0 then [] else [Event(a, true), Event(b, true)] + Alternate(a, b, n - 1)
  }

  /** A taken branch whose slot holds another address misses and evicts it. */
  lemma AliasedTakenEvicts(s: State, a: Addr, b: Addr)
    requires WellFormed(s)
    requires a != b && SlotIndex(a) == SlotIndex(b) && Holds(s.table[SlotIndex(a)], b)
    ensures var r := Step(s, a, true);
      var i := SlotIndex(a);
      && Holds(r.table[i], a)
      && r.table[i].replaceCount == s.table[i].replaceCount + 1
      && r.replaced == s.replaced + 1
      && r.seen == s.seen + 1 && r.misses == s.misses + 1 && r.hits == s.hits
      && r.correct == s.correct
  {
  }

  /** Each round of the alternation replaces the shared slot twice. */
  lemma {:induction false} AlternateRun(s: State, a: Addr, b: Addr, n: nat)
    requires WellFormed(s)
    decreases n
    requires a != b && SlotIndex(a) == SlotIndex(b) && Holds(s.table[SlotIndex(a)], b)
    ensures var r := Run(s, Alternate(a, b, n));
      var i := SlotIndex(a);
      && Holds(r.table[i], b)
      && r.table[i].replaceCount == s.table[i].replaceCount + 2 * n
      && r.replaced == s.replaced + 2 * n
      && r.seen == s.seen + 2 * n && r.misses == s.misses + 2 * n && r.hits == s.hits
      && r.correct == s.correct
  {
    if n > 0 {
      var events := Alternate(a, b, n);
      assert events[0] == Event(a, true);
      assert events[1..][0] == Event(b, true);
      assert events[1..][1..] == Alternate(a, b, n - 1);
      AliasedTakenEvicts(s, a, b);
      var s1 := Step(s, a, true);
      AliasedTakenEvicts(s1, b, a);
      AlternateRun(Step(s1, b, true), a, b, n - 1);
    }
  }

  /** From program start, two aliasing addresses taken alternately ten times
      each: every event misses, and the shared slot is reallocated 19 times
      (every insertion but the first). */
  lemma AliasingScenario(a: Addr, b: Addr)
    requires a != b && SlotIndex(a) == SlotIndex(b)
    ensures var r := Run(Boot(), Alternate(a, b, 10));
      && r.table[SlotIndex(a)].replaceCount == 19
      && r.replaced == 19
      && r.seen == 20 && r.misses == 20 && r.hits == 0
      && r.correct == 0
  {
    var i := SlotIndex(a);
    var s0 := Boot();
    var events := Alternate(a, b, 10);
    assert events[0] == Event(a, true);
    assert events[1..][0] == Event(b, true);
    assert events[1..][1..] == Alternate(a, b, 9);
    var s1 := Step(s0, a, true);
    assert !IsHit(s0.table, a);
    assert s1.table[i] == Installed(EMPTY_ENTRY, a);
    AliasedTakenEvicts(s1, b, a);
    AlternateRun(Step(s1, b, true), a, b, 9);
  }
}
