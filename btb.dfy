/** The Branch Target Buffer: a direct-mapped table of BTB_SIZE entries,
    indexed by the low ten bits of the branch address, each entry holding a
    tag and its own perceptron weights. */
module Btb {
  import opened Perceptron

  /** A 64-bit instruction address (ADDRINT, compared against a UINT64 tag). */
  type Addr = bv64

  /** Number of slots in the table. */
  const BTB_SIZE: nat := 1024

  /** The index mask `mask = 0x03FF`. */
  const MASK: bv64 := 0x3FF

  /** One BTB slot (`struct entry_one_bit`). `prediction` is written by an
      insertion and never read. */
  datatype Entry = Entry(
    valid: bool,
    prediction: bool,
    tag: Addr,
    replaceCount: nat,
    weights: seq<int>)

  /** The state in which the initialisation loop leaves every slot. */
  const EMPTY_ENTRY: Entry := Entry(false, false, 0, 0, seq(HISTORY_LEN, _ => 0))

  /** The slot `mask & ins_ptr` of an address: always a valid index, and the
      address modulo the table size (its low ten bits). */
  function SlotIndex(a: Addr): (i: nat)
    ensures i < BTB_SIZE
    ensures i == (a % 1024) as nat
  {
    (a & MASK) as nat
  }

  /** The table right after initialisation. */
  function EmptyTable(): seq<Entry>
  {
    seq(BTB_SIZE, _ => EMPTY_ENTRY)
  }

  /** A slot holds address a when it is valid and tagged with a. */
  predicate Holds(e: Entry, a: Addr)
  {
    e.valid && e.tag == a
  }

  /** A lookup of a hits when a's slot holds a. The table is direct-mapped:
      while a hits, no other address of the same slot can. */
  predicate IsHit(table: seq<Entry>, a: Addr)
    requires |table| == BTB_SIZE
    ensures IsHit(table, a) ==>
      forall b :: b != a && SlotIndex(b) == SlotIndex(a) ==> !Holds(table[SlotIndex(b)], b)
  {
    Holds(table[SlotIndex(a)], a)
  }

  /** Installing address a in slot e: a replacement is counted when the slot
      was occupied; the weights are kept as they are. */
  function Installed(e: Entry, a: Addr): (r: Entry)
    ensures Holds(r, a) && r.prediction
    ensures forall b :: b != a ==> !Holds(r, b)
    ensures r.weights == e.weights
    ensures r.replaceCount == e.replaceCount + (if e.valid then 1 else 0)
  {
    e.(valid := true,
       prediction := true,
       tag := a,
       replaceCount := if e.valid then e.replaceCount + 1 else e.replaceCount)
  }

  /** Sum of the per-slot replacement counters. */
  function TotalReplaced(table: seq<Entry>): nat
  {
    if table == [] then 0 else table[0].replaceCount + TotalReplaced(table[1..])
  }

  /** Replacing one slot changes the sum by exactly the change in that slot's counter. */
  lemma {:induction false} TotalReplacedUpdate(table: seq<Entry>, i: nat, e: Entry)
    requires i < |table|
    ensures TotalReplaced(table[i := e])
         == TotalReplaced(table) - table[i].replaceCount + e.replaceCount
  {
    if i == 0 {
      assert table[i := e][1..] == table[1..];
    } else {
      assert table[i := e][1..] == table[1..][i - 1 := e];
      TotalReplacedUpdate(table[1..], i - 1, e);
    }
  }

  /** A table whose counters are all zero sums to zero. */
  lemma {:induction false} TotalReplacedZero(table: seq<Entry>)
    requires forall i :: 0 <= i < |table| ==> table[i].replaceCount == 0
    ensures TotalReplaced(table) == 0
  {
    if table != [] {
      TotalReplacedZero(table[1..]);
    }
  }
}
