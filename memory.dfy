/** The memory row of the sandbox's usage table and the accounting rule that
    `memory_manager` applies to every allocation, reallocation and free the
    script engine asks for. */
module Memory {
  import opened Common

  /** One row of the usage table: the current value, the peak ever seen
      (the source's LSB_US_MAXIMUM) and the ceiling, 0 meaning unlimited. */
  datatype Usage = Usage(current: nat, peak: nat, limit: nat)

  /** What `memory_manager` did: freed a block (nsize 0, result NULL),
      granted the request (non-NULL result) or refused it (NULL result). */
  datatype AllocResult = Freed | Granted | Refused

  predicate WithinLimit(u: Usage) { u.limit == 0 || u.current <= u.limit }

  /** The total the ledger would hold after resizing a block of `osize`
      bytes to `nsize` bytes. */
  function Proposed(u: Usage, osize: nat, nsize: nat): nat
    requires osize <= u.current
  {
    u.current - osize + nsize
  }

  /** The effect of one `memory_manager(ptr, osize, nsize)` call on the
      ledger; `hostOk` says whether the underlying `realloc` succeeded. */
  function Allocate(u: Usage, osize: nat, nsize: nat, hostOk: bool): (r: (Usage, AllocResult))
    requires osize <= u.current
    ensures r.0.limit == u.limit
    ensures r.1 == Freed <==> nsize == 0
    ensures r.1 == Granted <==> nsize > 0 && hostOk && (u.limit == 0 || Proposed(u, osize, nsize) <= u.limit)
    ensures r.1 == Refused ==> r.0 == u
    ensures r.1 == Granted ==> WithinLimit(r.0)
    ensures WithinLimit(u) ==> WithinLimit(r.0)
    ensures u.current <= u.peak ==> r.0.current <= r.0.peak
    ensures u.peak <= r.0.peak
  {
    if nsize == 0 then
      (u.(current := u.current - osize), Freed)
    else
      var total := Proposed(u, osize, nsize);
      if (u.limit == 0 || total <= u.limit) && hostOk then
        (Usage(total, Max(u.peak, total), u.limit), Granted)
      else
        (u, Refused)
  }

  /** A request from the engine: resize the block in slot `block` (size 0
      meaning "no block yet", which the engine passes as NULL) to `nsize` bytes. */
  datatype Request = Request(block: nat, nsize: nat)

  function Sum(s: seq<nat>): nat
  {
    if |s| == 0 then 0 else s[0] + Sum(s[1..])
  }

  /** Changing one slot changes the sum by exactly the difference. */
  lemma {:induction false} SumUpdate(s: seq<nat>, i: nat, v: nat)
    requires i < |s|
    ensures s[i] <= Sum(s)
    ensures Sum(s[i := v]) == Sum(s) - s[i] + v
  {
    if i == 0 {
      assert s[i := v][1..] == s[1..];
    } else {
      assert s[i := v][1..] == s[1..][i - 1 := v];
      SumUpdate(s[1..], i - 1, v);
    }
  }

  /** The ledger and the live blocks after the engine issues `reqs`, the
      k-th `realloc` succeeding exactly when `host[k]` holds. The old size
      the engine passes is the block's current size (0 for a new block), as
      the engine's allocator interface requires. A refused request leaves
      its block as it was. */
  function Replay(u: Usage, heap: seq<nat>, reqs: seq<Request>, host: seq<bool>): (r: (Usage, seq<nat>))
    requires u.current == Sum(heap)
    requires |host| == |reqs|
    requires forall k | 0 <= k < |reqs| :: reqs[k].block < |heap|
    ensures |r.1| == |heap|
    ensures r.0.current == Sum(r.1)
    ensures r.0.limit == u.limit
    ensures WithinLimit(u) ==> WithinLimit(r.0)
    ensures u.current <= u.peak ==> r.0.current <= r.0.peak
    ensures u.peak <= r.0.peak
    decreases |reqs|
  {
    if |reqs| == 0 then (u, heap)
    else
      var q := reqs[0];
      SumUpdate(heap, q.block, q.nsize);
      var step := Allocate(u, heap[q.block], q.nsize, host[0]);
      var heap' := if step.1 == Refused then heap else heap[q.block := q.nsize];
      Replay(step.0, heap', reqs[1..], host[1..])
  }
}
