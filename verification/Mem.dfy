/** The vocabulary of mem.h: threads, shared objects, accesses and the workload that issues them. */
module Mem {

  type Tid = nat
  type ObjId = nat
  type Version = int
  type Memop = int
  type Value = int

  /** An address together with the object it belongs to: `calc_objid(a)` is `a.obj`.  Since
      `calc_objid` is a function of the address, nothing is lost by storing its result. */
  datatype Addr = Addr(obj: ObjId, word: int)

  /** What a thread does next: one call of mem_read or mem_write, or mem_finish_thr. */
  datatype Op = Read(addr: Addr) | Write(addr: Addr, val: Value) | Stop

  /** A thread program is a deterministic function of the values its accesses returned so far. */
  type Program = (Tid, seq<Value>) -> Op

  datatype Workload = Workload(prog: Program, init: map<Addr, Value>, nthr: nat)

  /** Every thread ends after at most n accesses, whatever they return. */
  ghost predicate Bounded(w: Workload, n: nat) {
    forall t: Tid, results | |results| >= n :: w.prog(t, results).Stop?
  }

  /** One completed access, with exactly the fields of `struct mem_acc` plus its thread:
      for a write, `version` is the version it overwrites. */
  datatype Event = Event(tid: Tid, write: bool, addr: Addr, version: Version, val: Value)

  /** struct wait_version; a log ends with an entry whose memop is -1. */
  datatype WaitVersion = WaitVersion(memop: Memop, version: Version)

  datatype Option<T> = None | Some(value: T)

  /** Shared memory; words never stored to are zero. */
  function Get(m: map<Addr, Value>, a: Addr): Value {
    if a in m then m[a] else 0
  }

  /** Per-object counters start at zero (calloc). */
  function Num(m: map<ObjId, int>, o: ObjId): int {
    if o in m then m[o] else 0
  }

  function Last<T>(s: seq<T>): T
    requires s != []
  {
    s[|s| - 1]
  }

  function Front<T>(s: seq<T>): seq<T>
    requires s != []
  {
    s[..|s| - 1]
  }

  /** What the accesses returned to the program; a write returns nothing, shown as 0. */
  function Results(es: seq<Event>): seq<Value> {
    seq(|es|, i requires 0 <= i < |es| => if es[i].write then 0 else es[i].val)
  }

  predicate SameOp(e: Event, op: Op) {
    match op
    case Read(a) => !e.write && e.addr == a
    case Write(a, x) => e.write && e.addr == a && e.val == x
    case Stop => false
  }

  /** How many elements there are in all. */
  function Total<T>(s: seq<seq<T>>): nat {
    if s == [] then 0 else Total(Front(s)) + |Last(s)|
  }

  lemma {:induction false} TotalUpdate<T>(s: seq<seq<T>>, i: nat, x: seq<T>)
    requires i < |s|
    ensures Total(s[i := x]) == Total(s) + |x| - |s[i]|
  {
    var s' := s[i := x];
    if i < |s| - 1 {
      TotalUpdate(Front(s), i, x);
      assert Front(s') == Front(s)[i := x];
    } else {
      assert Front(s') == Front(s);
    }
  }
}
