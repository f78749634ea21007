/** Addresses, pointers, mutexes that know their holder, and logs of calls that carry a value. */
module Primitives {
  type Addr = nat
  datatype Ref = Null | Ptr(addr: Addr)
  datatype Lock = Unlocked | Held(owner: nat)
  datatype Call = Call(thread: nat, value: int)

  function ValuesOf(calls: seq<Call>): (r: seq<int>)
    ensures |r| == |calls|
  {
    seq(|calls|, i requires 0 <= i < |calls| => calls[i].value)
  }

  /** The values in the calls of thread `t`. */
  function Of(calls: seq<Call>, t: nat): seq<int> {
    if calls == [] then []
    else Of(calls[..|calls| - 1], t) + if calls[|calls| - 1].thread == t then [calls[|calls| - 1].value] else []
  }

  lemma OneMore(calls: seq<Call>, c: Call, t: nat)
    ensures ValuesOf(calls + [c]) == ValuesOf(calls) + [c.value]
    ensures Of(calls + [c], t) == Of(calls, t) + if c.thread == t then [c.value] else []
  {
    assert (calls + [c])[..|calls|] == calls;
  }
}
