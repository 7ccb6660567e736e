/**
 * The tracer (`base_trace_t`) as far as the vulnerability engine uses it:
 * one ledger per hardware thread, the shadow ledger of the redundant region,
 * the map from memory address to the record of the last store there, the
 * fan matrix, and the two trace entry points, `text_trace_data` for memory
 * accesses and `text_trace_instruction` for executed instructions.
 *
 * The ledgers and the store map are held as values here; the hash tables
 * behind them are `StrMaps.StrMap` and `Ledger.Thread`, each proved to
 * behave as the value it stands for. The configuration the Simics
 * attributes set (`cores[..].active`, `redundant_region`,
 * `redundant_thread`, `redundant`, `partial_result`) is held in plain
 * fields a caller may assign between calls.
 */
module Tracing {
  import opened Basics
  import opened StrMaps
  import opened Fan
  import opened StoreCodec
  import opened Factors
  import opened Operands
  import opened Ledger
  import opened Engine

  class Tracer {
    /** `threads`, then `rr_thread`, the ledger of the redundant region, at index `Shadow`. */
    var ledgers: seq<LedgerState>
    /** `memory_store`: address (as lower-case hex) to the record of the last store there. */
    var memoryStore: map<string, StoreInfo>
    const fan: FanInfo
    /** Whether records carry a fan snapshot and loads update the fan matrix (the `FAN` build). */
    const fanTracking: bool
    /** Whether the redundant thread squares its local factors (the `REDUNDANCY` build). */
    const redundancy: bool
    /** `cores[i].active`: non-zero when core `i` is traced. */
    const active: array<int>

    var redundantRegion: int
    var redundantThread: int
    var redundant: int
    var partialResult: int
    var region: int
    var execCount: int
    var dataCount: int

    /** One ledger per thread and the shadow, a square fan matrix, 32 cores and well-formed records. */
    ghost predicate Valid()
      reads this
    {
      && |ledgers| == MaxThreads + 1 && fan.Valid() && active.Length == Cores
      && forall k :: k in memoryStore ==> RecordOk(memoryStore[k], fanTracking)
    }

    /** The configuration the attributes set, as a value. */
    function Settings(): Config
      reads this, active
    {
      Config(active[..], redundantRegion, redundantThread, redundant, fanTracking, redundancy)
    }

    /** The tracer's engine as a value. */
    ghost function Snapshot(): (e: EngineState)
      requires Valid()
      reads this, active, fan.cells
      ensures Shaped(e, Settings())
    {
      EngineState(ledgers, memoryStore, fan.Matrix(), partialResult, region, execCount, dataCount)
    }

    /**
     * `base_trace_new_instance` with `init_thread`: the shadow fresh under -1,
     * every thread fresh under its own number, an empty fan matrix, every
     * core inactive, an empty store map and no redundant region.
     */
    constructor (fanTracking: bool, redundancy: bool)
      ensures Valid() && fresh(active) && fresh(fan.cells)
      ensures Settings() == Config(seq(Cores, _ => 0), 0, -1, 0, fanTracking, redundancy)
      ensures Snapshot() == Start()
    {
      var threads: seq<LedgerState> := [];
      for i := 0 to MaxThreads
        invariant threads == seq(i, k => Fresh(k))
      {
        threads := threads + [Fresh(i)];
      }
      ledgers := threads + [Fresh(-1)];
      fan := new FanInfo();
      active := new int[Cores](_ => 0);
      memoryStore := map[];
      this.fanTracking, this.redundancy := fanTracking, redundancy;
      redundantRegion, redundantThread, redundant := 0, -1, 0;
      partialResult, region, execCount, dataCount := 0, 0, 0, 0;
      new;
      assert ledgers == Start().ledgers;
      ghost var cells, empty := fan.Matrix(), Start().fan;
      assert forall i :: 0 <= i < MaxThreads ==> cells[i] == empty[i];
    }

    /**
     * The `REGION` block of both entry points: inside the redundant region the
     * shadow follows `cpu`, and it restarts fresh when it followed another
     * thread. Returns whether the shadow is in use.
     */
    method FollowShadow(cpu: int) returns (useShadow: bool)
      requires Valid() && 0 <= cpu < MaxThreads
      modifies this
      ensures Valid() && Settings() == old(Settings())
      ensures useShadow == ShadowOn(Settings(), cpu)
      ensures Snapshot() == Followed(old(Snapshot()), Settings(), cpu)
    {
      useShadow := redundantRegion == 1 && cpu == redundantThread;
      if useShadow && ledgers[Shadow].counters.threadNum != cpu {
        ledgers := ledgers[Shadow := Fresh(cpu)];
      }
    }

    /** `print_temp_results`: `print_cpu` settles the self values of every thread in turn. */
    method PrintTempResults()
      requires Valid()
      modifies this
      ensures Valid() && Settings() == old(Settings())
      ensures Snapshot() == old(Snapshot()).(ledgers := SettledFirst(old(ledgers), MaxThreads))
    {
      for i := 0 to MaxThreads
        invariant Valid() && Settings() == old(Settings())
        invariant Snapshot() == old(Snapshot()).(ledgers := SettledFirst(old(ledgers), i))
      {
        ledgers := ledgers[i := ledgers[i].(counters := Settled(ledgers[i].counters))];
      }
    }

    /** The bookkeeping of an instruction on core `cpu`: the shadow follows, then the counts grow. */
    method CountInstruction(cpu: int) returns (useShadow: bool)
      requires Valid() && 0 <= cpu < MaxThreads
      modifies this
      ensures Valid() && Settings() == old(Settings())
      ensures useShadow == ShadowOn(Settings(), cpu)
      ensures Snapshot() == Counted(old(Snapshot()), Settings(), cpu)
    {
      useShadow := FollowShadow(cpu);
      if useShadow {
        ledgers := ledgers[Shadow := Ticked(ledgers[Shadow])];
      }
      ledgers := ledgers[cpu := Ticked(ledgers[cpu])];
      execCount := execCount + 1;
    }

    /** The partial report `partial_result` asks for. */
    method ReportPartial()
      requires Valid()
      modifies this
      ensures Valid() && Settings() == old(Settings())
      ensures Snapshot() == Reported(old(Snapshot()))
    {
      if partialResult == 1 {
        region := region + 1;
        PrintTempResults();
        partialResult := 0;
      }
    }

    /** The register calls of a traced instruction, on the thread and then on the shadow in use. */
    method RouteInstruction(cpu: int, family: Family, accesses: seq<Access>, useShadow: bool)
      requires Valid() && 0 <= cpu < MaxThreads && useShadow == ShadowOn(Settings(), cpu)
      modifies this
      ensures Valid() && Settings() == old(Settings())
      ensures Snapshot() == Routed(old(Snapshot()), Settings(), cpu, family, accesses)
    {
      ledgers := ledgers[cpu := Executed(ledgers[cpu], family, accesses)];
      if useShadow {
        ledgers := ledgers[Shadow := Executed(ledgers[Shadow], family, accesses)];
      }
    }

    /**
     * `text_trace_instruction` on core `cpu`, with `text` what the
     * disassembler returned (`None` for a null string).
     */
    method TraceInstruction(cpu: int, text: Option<string>)
      requires Valid() && 0 <= cpu < MaxThreads && (text.Some? ==> NoNul(text.value))
      modifies this
      ensures Valid() && Settings() == old(Settings())
      ensures Snapshot() == Instruction(old(Snapshot()), old(Settings()), cpu, text)
    {
      if active[cpu] == 0 {
        return;
      }
      var useShadow := CountInstruction(cpu);
      ReportPartial();
      if text.None? {
        return;
      }
      var family, w, r := DecodeOperands(text.value);
      if family != Untraced {
        RouteInstruction(cpu, family, Accesses(w, r), useShadow);
      }
    }

    /** A load hit by thread `cpu` of a value stored at its instruction `storeInst`. */
    method LoadHit(cpu: int, key: string, hit: int, storeInst: int, useShadow: bool)
      requires Valid() && 0 <= cpu < MaxThreads && useShadow == ShadowOn(Settings(), cpu)
      modifies this
      ensures Valid() && Settings() == old(Settings())
      ensures Snapshot() == Hit(old(Snapshot()), Settings(), cpu, key, hit, storeInst)
    {
      if hit == 1 {
        var start := LoadWindowStart(ledgers[cpu], key, storeInst);
        ledgers := ledgers[cpu := Loaded(ledgers[cpu], key, storeInst)];
        if useShadow {
          ledgers := ledgers[Shadow := Loaded(ledgers[Shadow], key, start)];
        }
      }
    }

    /** A load by thread `cpu` of the record `si` another thread may have stored. */
    method LoadRemote(cpu: int, si: StoreInfo)
      requires Valid() && 0 <= cpu < MaxThreads && RecordOk(si, fanTracking)
      modifies this, fan.cells
      ensures Valid() && Settings() == old(Settings())
      ensures Snapshot() == Remote(old(Snapshot()), Settings(), cpu, si)
    {
      if si.threadNo != cpu {
        ledgers := ledgers[cpu := RemoteLoaded(ledgers[cpu], si.threadNo, si.tvf)];
        var rt := ledgers[si.threadNo];
        ledgers := ledgers[si.threadNo := rt.(counters := ReadBack(rt.counters, si.localInterval))];
        if fanTracking {
          fan.HandleFanInfo(si.threadNo, si.lvf, si.fan.value, cpu);
        }
      }
    }

    /**
     * The load branch of `text_trace_data`: the store record at `key` is read
     * back through its text, then the hit and the remote read take effect.
     */
    method TraceLoad(cpu: int, key: string, hit: int, useShadow: bool)
      requires Valid() && 0 <= cpu < MaxThreads && useShadow == ShadowOn(Settings(), cpu)
      modifies this, fan.cells
      ensures Valid() && Settings() == old(Settings())
      ensures Snapshot() == Load(old(Snapshot()), old(Settings()), cpu, key, hit)
    {
      var found := Fetch(memoryStore, key, StoreBuffer, RecordWidth);
      if found.None? {
        return;
      }
      var text := Encode(found.value);
      DecodeEncode(found.value, fanTracking);
      var si := Decode(text, fanTracking).value;
      LoadHit(cpu, key, hit, si.instrNum[cpu], useShadow);
      LoadRemote(cpu, si);
    }

    /**
     * The store branch of `text_trace_data`: the record of the store, with
     * every thread's instruction number copied in, replaces whatever was
     * stored at `key`.
     */
    method TraceStore(cpu: int, key: string, useShadow: bool)
      requires Valid() && 0 <= cpu < MaxThreads && useShadow == ShadowOn(Settings(), cpu)
      modifies this
      ensures Valid() && Settings() == old(Settings())
      ensures Snapshot() == Store(old(Snapshot()), old(Settings()), cpu, key)
    {
      var shadow := if useShadow then Some(SourceOf(ledgers[Shadow])) else None;
      var own := ledgers[cpu];
      var instrNums: seq<int> := [];
      for i := 0 to MaxThreads
        invariant instrNums == InstrNums(ledgers[..i])
      {
        instrNums := instrNums + [ledgers[i].counters.instrNum];
      }
      var record := StoreRecord(cpu, SourceOf(own), own.counters.rem, own.counters.remoteCount, shadow,
                                instrNums, redundancy && cpu == redundant, fanTracking, fan.Matrix());
      memoryStore := memoryStore[key := record];
    }

    /**
     * `text_trace_data` on core `cpu` for an access to physical address `pa`;
     * `readOrWrite` is 0 for a load and 1 for a store, `hit` the L1 outcome.
     */
    method TraceData(cpu: int, pa: nat, readOrWrite: int, hit: int)
      requires Valid() && 0 <= cpu < MaxThreads
      modifies this, fan.cells
      ensures Valid() && Settings() == old(Settings())
      ensures Snapshot() == Data(old(Snapshot()), old(Settings()), cpu, pa, readOrWrite, hit)
    {
      if active[cpu] == 0 {
        return;
      }
      var useShadow := FollowShadow(cpu);
      dataCount := dataCount + 1;
      var key := HexString(pa);
      if readOrWrite == 0 {
        TraceLoad(cpu, key, hit, useShadow);
      } else if readOrWrite == 1 {
        TraceStore(cpu, key, useShadow);
      }
    }
  }
}
