/** The simulator's global state as one object: the BTB record array, the
    shared history register and the six counters, updated in place by the
    same operations as the simulator. Each method is proved to perform the
    transition of module Simulator on the abstract value `Abs()`. */
module BranchPredictor {
  import opened Perceptron
  import opened Btb
  import opened Simulator

  class Predictor {
    const btb: array<Entry>          // BTB[BTB_SIZE]
    const history: array<int>        // History[size]
    var countSeen: nat
    var countTaken: nat
    var countCorrect: nat
    var countReplaced: nat
    var btbHit: nat
    var btbMiss: nat

    /** The whole state as a value. */
    ghost function Abs(): State
      reads this, btb, history
    {
      State(btb[..], history[..], countSeen, countTaken, countCorrect,
            countReplaced, btbHit, btbMiss)
    }

    /** Object invariant: the table and history have their fixed shapes. */
    ghost predicate Valid()
      reads this, btb, history
    {
      WellFormed(Abs())
    }

    /** Program start: static storage (all counters and slots zero,
        `History = {1}`) followed by BTB_init. */
    constructor ()
      ensures Valid() && fresh(btb) && fresh(history)
      ensures Abs() == Boot()
    {
      btb := new Entry[BTB_SIZE](_ => EMPTY_ENTRY);
      history := new int[HISTORY_LEN](i => if i == 0 then 1 else 0);
      countSeen, countTaken, countCorrect, countReplaced := 0, 0, 0, 0;
      btbHit, btbMiss := 0, 0;
      new;
      assert history[..] == INITIAL_HISTORY;
      BtbInit();
    }

    /** BTB_init: every slot invalid, not predicted, tag 0, replacement count 0
        and all weights 0; history and counters are not touched. */
    method BtbInit()
      requires Valid()
      modifies btb
      ensures Valid()
      ensures forall i :: 0 <= i < BTB_SIZE ==>
        && !btb[i].valid && !btb[i].prediction
        && btb[i].tag == 0 && btb[i].replaceCount == 0
        && btb[i].weights == seq(HISTORY_LEN, _ => 0)
      ensures Abs() == Initialized(old(Abs()))
    {
      for i := 0 to BTB_SIZE
        invariant forall j :: 0 <= j < i ==> btb[j] == EMPTY_ENTRY
      {
        btb[i] := EMPTY_ENTRY;
      }
      assert btb[..] == EmptyTable();
    }

    /** BTB_lookup: a hit iff the slot `mask & a` is valid and tagged a;
        exactly one of the hit and miss counters goes up; no entry changes. */
    method Lookup(a: Addr) returns (hit: bool)
      requires Valid()
      modifies this`btbHit, this`btbMiss
      ensures Valid()
      ensures hit <==> btb[SlotIndex(a)].valid && btb[SlotIndex(a)].tag == a
      ensures btbHit == old(btbHit) + (if hit then 1 else 0)
      ensures btbMiss == old(btbMiss) + (if hit then 0 else 1)
      ensures Abs() == AfterLookup(old(Abs()), a)
    {
      var index := SlotIndex(a);
      if btb[index].valid && btb[index].tag == a {
        btbHit := btbHit + 1;
        return true;
      }
      btbMiss := btbMiss + 1;
      return false;
    }

    /** BTB_prediction: "taken" iff the dot product of the history with the
        weights of a's slot is positive. Reads the state, changes nothing. */
    method Prediction(a: Addr) returns (taken: bool)
      requires Valid()
      ensures taken <==> Dot(history[..], btb[SlotIndex(a)].weights) > 0
    {
      var x := Output(a);
      taken := x > 0;
    }

    /** The perceptron output of a's slot: the loop shared by BTB_prediction
        and BTB_update. */
    method Output(a: Addr) returns (x: int)
      requires Valid()
      ensures x == Dot(history[..], btb[SlotIndex(a)].weights)
    {
      var index := SlotIndex(a);
      ghost var w := btb[index].weights;
      x := 0;
      for i := 0 to HISTORY_LEN
        invariant x == Dot(history[..i], w[..i])
      {
        assert history[..i + 1][..i] == history[..i];
        assert w[..i + 1][..i] == w[..i];
        x := x + history[i] * btb[index].weights[i];
      }
      assert history[..HISTORY_LEN] == history[..];
      assert w[..HISTORY_LEN] == w;
    }

    /** BTB_update: train a's slot when the prediction was wrong or |x| is
        below the threshold, then shift the outcome into the history. */
    method Update(a: Addr, taken: bool)
      requires Valid()
      modifies btb, history
      ensures Valid()
      ensures history[0] == Outcome(taken)
      ensures forall i :: 1 <= i < HISTORY_LEN ==> history[i] == old(history[i - 1])
      ensures Abs() == AfterUpdate(old(Abs()), a, taken)
    {
      var index := SlotIndex(a);
      var x := Output(a);
      var t := if taken then 1 else -1;
      var p := Prediction(a);
      if p != taken || BelowThreshold(x) {
        Train(index, t);
      }
      ShiftHistory(t);
    }

    /** The training loop of BTB_update: weights[i] += t * History[i] in slot
        `index`; no other slot and no other field changes. */
    method Train(index: nat, t: int)
      requires Valid() && index < BTB_SIZE
      modifies btb
      ensures Valid()
      ensures btb[..] == old(btb[..])[index := old(btb[index]).(
                weights := Trained(old(btb[index].weights), history[..], t))]
    {
      ghost var w := btb[index].weights;
      for i := 0 to HISTORY_LEN
        invariant |btb[index].weights| == HISTORY_LEN
        invariant forall j :: 0 <= j < i ==> btb[index].weights[j] == w[j] + t * history[j]
        invariant forall j :: i <= j < HISTORY_LEN ==> btb[index].weights[j] == w[j]
        invariant btb[..] == old(btb[..])[index := btb[index]]
        invariant btb[index] == old(btb[index]).(weights := btb[index].weights)
      {
        var e := btb[index];
        btb[index] := e.(weights := e.weights[i := e.weights[i] + t * history[i]]);
      }
      assert btb[index].weights == Trained(w, history[..], t);
    }

    /** The shift loop of BTB_update: History[i] = History[i-1] from the old
        end down to 1, then History[0] = t. */
    method ShiftHistory(t: int)
      requires Valid() && (t == 1 || t == -1)
      modifies history
      ensures Valid()
      ensures history[..] == Shifted(old(history[..]), t)
    {
      var i := HISTORY_LEN - 1;
      while i > 0
        invariant 0 <= i < HISTORY_LEN
        invariant forall j :: i < j < HISTORY_LEN ==> history[j] == old(history[j - 1])
        invariant forall j :: 0 <= j <= i ==> history[j] == old(history[j])
      {
        history[i] := history[i - 1];
        i := i - 1;
      }
      history[0] := t;
      assert history[..] == Shifted(old(history[..]), t);
    }

    /** BTB_insert: install a in its slot with prediction "taken", keeping the
        slot's weights; an occupied slot counts a replacement, both in the
        slot and globally. */
    method Insert(a: Addr)
      requires Valid()
      modifies btb, this`countReplaced
      ensures Valid()
      ensures var i := SlotIndex(a);
        && btb[i].valid && btb[i].prediction && btb[i].tag == a
        && btb[i].weights == old(btb[i].weights)
        && btb[i].replaceCount == old(btb[i].replaceCount) + (if old(btb[i].valid) then 1 else 0)
        && countReplaced == old(countReplaced) + (if old(btb[i].valid) then 1 else 0)
      ensures Abs() == AfterInsert(old(Abs()), a)
    {
      var index := SlotIndex(a);
      var e := btb[index];
      if e.valid {
        e := e.(replaceCount := e.replaceCount + 1);
        countReplaced := countReplaced + 1;
      }
      btb[index] := e.(valid := true, prediction := true, tag := a);
    }

    /** br_predict (without the branch-limit exit): count the event, look it
        up, and either score and train on a hit, or score the miss as a
        "not taken" prediction and insert a taken branch. Keeps the
        bookkeeping invariant. */
    method BrPredict(a: Addr, taken: bool)
      requires Valid()
      modifies this, btb, history
      ensures Valid()
      ensures Abs() == Step(old(Abs()), a, taken)
      ensures Inv(old(Abs())) ==> Inv(Abs())
    {
      ghost var s := Abs();
      countSeen := countSeen + 1;
      if taken {
        countTaken := countTaken + 1;
      }
      assert Abs() == Counted(s, taken);
      var hit := Lookup(a);
      ghost var s2 := Abs();
      if hit {
        var p := Prediction(a);
        if p == taken {
          countCorrect := countCorrect + 1;
        }
        assert Abs() == Scored(s2, Predict(s2, a) == taken);
        Update(a, taken);
      } else {
        if !taken {
          countCorrect := countCorrect + 1;
        } else {
          Insert(a);
        }
      }
      if Inv(s) {
        StepInv(s, a, taken);
      }
    }
  }
}
