/**
 * `get_current_thread`, the per-process thread lookup of the `THREAD_LEVEL`
 * build: `thread_no_map` maps a process id, written as decimal text, to the
 * slot of `threads` that process owns; a process seen for the first time
 * takes the next slot, numbered by how many processes came before it.
 */
module Threads {
  import opened Basics
  import opened StrMaps
  import opened Ledger

  /** `thread_no_map`: process id (as `"%d"` text) to slot. */
  type ThreadMap = map<string, int>

  /** Every slot in 0 .. |m| - 1 is held by exactly one process and no other slot is. */
  predicate Numbered(m: ThreadMap) {
    && (forall k :: k in m ==> 0 <= m[k] < |m|)
    && (forall k, j :: k in m && j in m && m[k] == m[j] ==> k == j)
  }

  /**
   * `get_current_thread` as written: a known process gets its slot back; a
   * new one is given slot `strmap_get_count(thread_no_map)`, with nothing
   * keeping that slot inside the `MAX_THREADS` entries of `threads`.
   */
  function SlotAsWritten(m: ThreadMap, pid: int): (r: (int, ThreadMap))
    ensures IntToString(pid) in m && 0 <= m[IntToString(pid)] < MaxThreads ==> r == (m[IntToString(pid)], m)
    ensures IntToString(pid) !in m ==> r.0 == |m| && r.1 == m[IntToString(pid) := |m|]
  {
    var key := IntToString(pid);
    if key in m && 0 <= m[key] < MaxThreads then
      SlotFits(m[key]);
      (m[key], m)
    else
      match Fetch(m, key, WrapperBuffer, IntWidth)
      case Some(slot) => (slot, m)
      case None => (|m|, m[key := |m|])
  }

  /** The map after the processes `pids` asked for their thread, in order, with the code as written. */
  function ArrivedAsWritten(m: ThreadMap, pids: seq<int>): ThreadMap
    decreases |pids|
  {
    if pids == [] then m else ArrivedAsWritten(SlotAsWritten(m, pids[0]).1, pids[1..])
  }

  predicate Distinct(pids: seq<int>) {
    forall i, j :: 0 <= i < j < |pids| ==> pids[i] != pids[j]
  }

  /** Distinct processes arriving at an empty map are numbered 0, 1, 2, ... in order. */
  lemma {:induction false} ArrivedInOrder(m: ThreadMap, pids: seq<int>)
    requires Distinct(pids) && forall i :: 0 <= i < |pids| ==> IntToString(pids[i]) !in m
    ensures var after := ArrivedAsWritten(m, pids);
            && |after| == |m| + |pids|
            && (forall k :: k in m ==> k in after && after[k] == m[k])
            && (forall i :: 0 <= i < |pids| ==> IntToString(pids[i]) in after)
            && (forall q :: q !in pids && IntToString(q) !in m ==> IntToString(q) !in after)
    decreases |pids|
  {
    if pids != [] {
      var key := IntToString(pids[0]);
      var m' := SlotAsWritten(m, pids[0]).1;
      assert m' == m[key := |m|];
      forall i | 0 <= i < |pids[1..]|
        ensures IntToString(pids[1..][i]) !in m'
      {
        AtoiIntToString(pids[1..][i]);
        AtoiIntToString(pids[0]);
      }
      ArrivedInOrder(m', pids[1..]);
      forall q | q !in pids && IntToString(q) !in m
        ensures IntToString(q) !in ArrivedAsWritten(m, pids)
      {
        AtoiIntToString(q);
        AtoiIntToString(pids[0]);
        assert q !in pids[1..];
      }
      forall i | 0 <= i < |pids|
        ensures IntToString(pids[i]) in ArrivedAsWritten(m, pids)
      {
        if i > 0 {
          assert pids[i] == pids[1..][i - 1];
        }
      }
    }
  }

  /**
   * The ninth distinct process is given slot 8, one past the last of the
   * `MAX_THREADS` entries of `threads`: the thread it then writes lies
   * outside the array.
   */
  lemma {:induction false} NinthProcessOverflows(pids: seq<int>, pid: int)
    requires |pids| == MaxThreads && Distinct(pids) && pid !in pids
    ensures SlotAsWritten(ArrivedAsWritten(map[], pids), pid).0 == MaxThreads
  {
    ArrivedInOrder(map[], pids);
  }

  /** A slot below `MAX_THREADS` is written as one digit, so it always fits the reading buffer. */
  lemma {:induction false} SlotFits(slot: int)
    requires 0 <= slot < MaxThreads
    ensures IntWidth(slot) < WrapperBuffer
  {
    assert NatToString(slot) == [DigitChar(slot)];
  }

  /**
   * `get_current_thread` with the bound it needs: a known process gets its
   * slot back and its thread; a new one takes the next slot while one is
   * left, and that thread is numbered with its process id; with every slot
   * taken there is no thread for it.
   */
  function CurrentThread(m: ThreadMap, ledgers: seq<LedgerState>, pid: int)
    : (r: Option<(nat, ThreadMap, seq<LedgerState>)>)
    requires Numbered(m) && |m| <= MaxThreads == |ledgers|
    ensures r.Some? ==> r.value.0 < MaxThreads && Numbered(r.value.1) && |r.value.1| <= MaxThreads
    ensures r.Some? ==> IntToString(pid) in r.value.1 && r.value.1[IntToString(pid)] == r.value.0
    ensures IntToString(pid) in m ==> r == Some((m[IntToString(pid)], m, ledgers))
    ensures IntToString(pid) !in m ==>
              if |m| < MaxThreads
              then r.Some? && r.value.0 == |m| && r.value.1 == m[IntToString(pid) := |m|]
                   && r.value.2 == ledgers[|m| := ledgers[|m|].(counters := ledgers[|m|].counters.(threadNum := pid))]
              else r.None?
  {
    var key := IntToString(pid);
    if key in m then
      Some((m[key], m, ledgers))
    else if |m| < MaxThreads then
      var slot := |m|;
      Some((slot, m[key := slot], ledgers[slot := ledgers[slot].(counters := ledgers[slot].counters.(threadNum := pid))]))
    else
      None
  }

  /** Corrected lookup agrees with the code as written whenever a slot is left or the process is known. */
  lemma {:induction false} CurrentThreadAgrees(m: ThreadMap, ledgers: seq<LedgerState>, pid: int)
    requires Numbered(m) && |m| <= MaxThreads == |ledgers|
    requires |m| < MaxThreads || IntToString(pid) in m
    ensures CurrentThread(m, ledgers, pid).Some?
    ensures CurrentThread(m, ledgers, pid).value.0 == SlotAsWritten(m, pid).0
    ensures CurrentThread(m, ledgers, pid).value.1 == SlotAsWritten(m, pid).1
  {
    if IntToString(pid) in m {
      SlotFits(m[IntToString(pid)]);
    }
  }
}
