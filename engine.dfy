/**
 * The vulnerability engine as a function of its state: what one call of
 * `text_trace_instruction` or of `text_trace_data` does to the ledger of every
 * thread and of the redundant region, to the store map and to the fan
 * matrix. The tracer's methods are proved to do exactly this, and the lemmas
 * at the end state what the engine keeps true from one call to the next.
 */
module Engine {
  import opened Basics
  import opened Formats
  import opened StrMaps
  import opened Fan
  import opened StoreCodec
  import opened Factors
  import opened Operands
  import opened Ledger

  /** Number of entries of `cores`. */
  const Cores: nat := 32

  /** The buffer a load reads a store record into. */
  const StoreBuffer: nat := 50000

  /** The shadow ledger (`rr_thread`) comes after the ledgers of the threads. */
  const Shadow: nat := MaxThreads

  /** `atof` of a record's text reads its leading thread number. */
  function RecordNum(si: StoreInfo): real { si.threadNo as real }

  /** The length of a record's text. */
  function RecordWidth(si: StoreInfo): nat { |Encode(si)| }

  /** The shape of every record a store writes. */
  predicate RecordOk(si: StoreInfo, fanTracking: bool) {
    WellFormed(si, fanTracking) && 0 <= si.threadNo < MaxThreads
  }

  /** Every ledger's instruction number, in order. */
  function InstrNums(ls: seq<LedgerState>): (r: seq<int>)
    ensures |r| == |ls| && forall i :: 0 <= i < |ls| ==> r[i] == ls[i].counters.instrNum
  {
    seq(|ls|, i requires 0 <= i < |ls| => ls[i].counters.instrNum)
  }

  /**
   * The record a store by thread `cpu` writes, from what it reads of its own
   * ledger (`own`, `rem`, `remoteCount`) and of the shadow in use: the
   * thread, its total factors, its local factors with fan tracking on, its
   * values as the interval a remote reader later restarts it from, every
   * thread's instruction number and, with fan tracking on, the fan matrix.
   */
  function StoreRecord(cpu: int, own: Source, rem: Triple, remoteCount: int, shadow: Option<Source>,
                       instrNums: seq<int>, squareOwn: bool, fanTracking: bool, fan: seq<seq<FanCell>>): (r: StoreInfo)
    ensures r.threadNo == cpu && r.instrNum == instrNums && r.localInterval == own.vul
    ensures r.fan.Some? <==> fanTracking
    ensures fanTracking ==> r.fan == Some(fan)
    ensures var f := StoreFactorsOf(own, shadow, rem, remoteCount, squareOwn);
            r.tvf == f.tvf && r.lvf == (if fanTracking then f.local else Zero)
    ensures |instrNums| == MaxThreads && IsMatrix(fan) && 0 <= cpu < MaxThreads ==> RecordOk(r, fanTracking)
  {
    var f := StoreFactorsOf(own, shadow, rem, remoteCount, squareOwn);
    StoreInfo(cpu, f.tvf, if fanTracking then f.local else Zero, own.vul, instrNums,
              if fanTracking then Some(fan) else None)
  }

  // ---- the whole engine ----

  /** The configuration Simics attributes set between calls. */
  datatype Config = Config(active: seq<int>, redundantRegion: int, redundantThread: int, redundant: int,
                           fanTracking: bool, redundancy: bool)

  /** Every ledger (the shadow last), the store map, the fan matrix and the progress counters. */
  datatype EngineState = EngineState(ledgers: seq<LedgerState>, store: map<string, StoreInfo>,
                                     fan: seq<seq<FanCell>>, partialResult: int, region: int,
                                     execCount: int, dataCount: int)

  /**
   * The engine as `base_trace_new_instance` leaves it: every thread fresh
   * under its own number, the shadow under -1, no record stored, an empty fan
   * matrix and every counter at zero.
   */
  function Start(): (e: EngineState)
    ensures |e.ledgers| == MaxThreads + 1 && IsMatrix(e.fan)
  {
    EngineState(seq(MaxThreads, k => Fresh(k)) + [Fresh(-1)], map[],
                seq(MaxThreads, i => seq(MaxThreads, j => EmptyCell)), 0, 0, 0, 0)
  }

  /** Whether the shadow ledger follows thread `cpu`. */
  predicate ShadowOn(cfg: Config, cpu: int) {
    cfg.redundantRegion == 1 && cpu == cfg.redundantThread
  }

  /** The shape the tracer keeps: one ledger per thread and the shadow, a fan matrix, well-formed records. */
  predicate Shaped(e: EngineState, cfg: Config) {
    && |e.ledgers| == MaxThreads + 1 && |cfg.active| == Cores && IsMatrix(e.fan)
    && forall k :: k in e.store ==> RecordOk(e.store[k], cfg.fanTracking)
  }

  /** The `REGION` block: a shadow in use that followed another thread restarts as thread `cpu`'s. */
  function Followed(e: EngineState, cfg: Config, cpu: int): (r: EngineState)
    requires |e.ledgers| == MaxThreads + 1
    ensures |r.ledgers| == MaxThreads + 1 && r.(ledgers := e.ledgers) == e
    ensures forall k :: 0 <= k < MaxThreads ==> r.ledgers[k] == e.ledgers[k]
    ensures ShadowOn(cfg, cpu) ==> r.ledgers[Shadow].counters.threadNum == cpu
  {
    if ShadowOn(cfg, cpu) && e.ledgers[Shadow].counters.threadNum != cpu
    then e.(ledgers := e.ledgers[Shadow := Fresh(cpu)])
    else e
  }

  /** The first `n` ledgers after `print_cpu` settled their self values. */
  function SettledFirst(ls: seq<LedgerState>, n: nat): seq<LedgerState>
    requires n <= |ls|
  {
    seq(|ls|, i requires 0 <= i < |ls| => if i < n then ls[i].(counters := Settled(ls[i].counters)) else ls[i])
  }

  /**
   * The bookkeeping every traced instruction does first: the shadow follows
   * thread `cpu`, the shadow in use and the thread count one more
   * instruction, and so does the tracer.
   */
  function Counted(e: EngineState, cfg: Config, cpu: int): (r: EngineState)
    requires |e.ledgers| == MaxThreads + 1 && 0 <= cpu < MaxThreads
    ensures |r.ledgers| == MaxThreads + 1 && r.store == e.store && r.fan == e.fan
    ensures r.ledgers[cpu] == Ticked(e.ledgers[cpu]) && r.execCount == e.execCount + 1
    ensures forall k :: 0 <= k < MaxThreads && k != cpu ==> r.ledgers[k] == e.ledgers[k]
  {
    var e1 := Followed(e, cfg, cpu);
    var l1 := if ShadowOn(cfg, cpu) then e1.ledgers[Shadow := Ticked(e1.ledgers[Shadow])] else e1.ledgers;
    e1.(ledgers := l1[cpu := Ticked(l1[cpu])], execCount := e1.execCount + 1)
  }

  /** A pending partial report opens the next region and settles every thread. */
  function Reported(e: EngineState): (r: EngineState)
    requires |e.ledgers| == MaxThreads + 1
    ensures |r.ledgers| == MaxThreads + 1 && r.store == e.store && r.fan == e.fan && r.execCount == e.execCount
    // only the self values of the threads are settled
    ensures forall k :: 0 <= k <= MaxThreads ==>
              r.ledgers[k].(counters := e.ledgers[k].counters) == e.ledgers[k]
              && r.ledgers[k].counters.(self := e.ledgers[k].counters.self) == e.ledgers[k].counters
  {
    if e.partialResult == 1
    then e.(region := e.region + 1, ledgers := SettledFirst(e.ledgers, MaxThreads), partialResult := 0)
    else e
  }

  /** An instruction of a traced `family` making the register calls `accesses` reaches the thread and the shadow in use. */
  function Routed(e: EngineState, cfg: Config, cpu: int, family: Family, accesses: seq<Access>): (r: EngineState)
    requires |e.ledgers| == MaxThreads + 1 && 0 <= cpu < MaxThreads
    ensures |r.ledgers| == MaxThreads + 1 && r.(ledgers := e.ledgers) == e
    ensures r.ledgers[cpu] == Executed(e.ledgers[cpu], family, accesses)
    ensures forall k :: 0 <= k < MaxThreads && k != cpu ==> r.ledgers[k] == e.ledgers[k]
  {
    var l := e.ledgers[cpu := Executed(e.ledgers[cpu], family, accesses)];
    e.(ledgers := if ShadowOn(cfg, cpu) then l[Shadow := Executed(l[Shadow], family, accesses)] else l)
  }

  /**
   * `text_trace_instruction` on core `cpu` with the disassembled `text`
   * (`None` when the disassembler returned nothing): an inactive core is
   * ignored; otherwise the instruction is counted, a pending partial report
   * settles every thread, and an instruction of a traced family reaches the
   * ledger of the thread and of the shadow in use.
   */
  function Instruction(e: EngineState, cfg: Config, cpu: int, text: Option<string>): (r: EngineState)
    requires Shaped(e, cfg) && 0 <= cpu < MaxThreads
    ensures Shaped(r, cfg) && r.store == e.store && r.fan == e.fan && r.dataCount == e.dataCount
    ensures cfg.active[cpu] == 0 ==> r == e
    ensures cfg.active[cpu] != 0 ==>
              r.execCount == e.execCount + 1
              && r.ledgers[cpu].counters.instrNum == e.ledgers[cpu].counters.instrNum + 1
    ensures forall k :: 0 <= k < MaxThreads && k != cpu ==>
              r.ledgers[k].counters.instrNum == e.ledgers[k].counters.instrNum
  {
    if cfg.active[cpu] == 0 then e
    else
      var counted := Reported(Counted(e, cfg, cpu));
      if text.None? then counted
      else
        var (family, accesses) := Route(text.value);
        if family == Untraced then counted else Routed(counted, cfg, cpu, family, accesses)
  }

  /**
   * A load by thread `cpu` of a value stored at its instruction `storeInst`:
   * a hit closes the liveness window of the thread and then of the shadow in
   * use, whose window opens no earlier than the thread's.
   */
  function Hit(e: EngineState, cfg: Config, cpu: int, key: string, hit: int, storeInst: int): (r: EngineState)
    requires |e.ledgers| == MaxThreads + 1 && 0 <= cpu < MaxThreads
    ensures |r.ledgers| == MaxThreads + 1 && r.(ledgers := e.ledgers) == e
    ensures hit != 1 ==> r == e
    ensures hit == 1 ==> r.ledgers[cpu].loads == e.ledgers[cpu].loads[key := e.ledgers[cpu].counters.instrNum]
    ensures forall k :: 0 <= k < MaxThreads && k != cpu ==> r.ledgers[k] == e.ledgers[k]
    ensures forall k :: 0 <= k < MaxThreads ==> r.ledgers[k].counters.instrNum == e.ledgers[k].counters.instrNum
  {
    if hit != 1 then e
    else
      var start := LoadWindowStart(e.ledgers[cpu], key, storeInst);
      var l := e.ledgers[cpu := Loaded(e.ledgers[cpu], key, storeInst)];
      e.(ledgers := if ShadowOn(cfg, cpu) then l[Shadow := Loaded(l[Shadow], key, start)] else l)
  }

  /**
   * A load by thread `cpu` of the record `si`: a value another thread stored
   * adds that store's factors to the remote sums, restarts the storing
   * thread's self values and, with fan tracking on, feeds the fan matrix.
   */
  function Remote(e: EngineState, cfg: Config, cpu: int, si: StoreInfo): (r: EngineState)
    requires |e.ledgers| == MaxThreads + 1 && IsMatrix(e.fan) && 0 <= cpu < MaxThreads
    requires RecordOk(si, cfg.fanTracking)
    ensures |r.ledgers| == MaxThreads + 1 && IsMatrix(r.fan) && r.store == e.store
    ensures si.threadNo == cpu ==> r == e
    ensures si.threadNo != cpu ==>
              && r.ledgers[cpu].counters.rem == e.ledgers[cpu].counters.rem.Plus(si.tvf)
              && r.ledgers[cpu].counters.remoteCount == e.ledgers[cpu].counters.remoteCount + 1
              && r.ledgers[si.threadNo].counters.self == si.localInterval
    ensures !cfg.fanTracking ==> r.fan == e.fan
    ensures forall k :: 0 <= k < MaxThreads ==> r.ledgers[k].counters.instrNum == e.ledgers[k].counters.instrNum
    // the reader's remote sums and the storing thread's self values change; nothing else of a ledger does
    ensures forall k :: 0 <= k <= MaxThreads ==>
              var (c, c') := (e.ledgers[k].counters, r.ledgers[k].counters);
              && r.ledgers[k].(counters := c, remoteAlu := e.ledgers[k].remoteAlu, remoteReg := e.ledgers[k].remoteReg,
                               remoteMem := e.ledgers[k].remoteMem, remoteCounts := e.ledgers[k].remoteCounts) == e.ledgers[k]
              && c'.(rem := c.rem, remoteCount := c.remoteCount, self := c.self, lastRemote := c.lastRemote) == c
              && (k != cpu ==> r.ledgers[k].remoteAlu == e.ledgers[k].remoteAlu && c'.rem == c.rem
                               && c'.remoteCount == c.remoteCount)
  {
    if si.threadNo == cpu then e
    else
      var l := e.ledgers[cpu := RemoteLoaded(e.ledgers[cpu], si.threadNo, si.tvf)];
      var rt := l[si.threadNo];
      e.(ledgers := l[si.threadNo := rt.(counters := ReadBack(rt.counters, si.localInterval))],
         fan := if cfg.fanTracking then Handled(e.fan, si.threadNo, si.lvf, si.fan.value, cpu) else e.fan)
  }

  /**
   * The load branch: a load of `key` finding the record of a store reads it
   * back through its text, then the hit and the remote read take effect.
   */
  function Load(e: EngineState, cfg: Config, cpu: int, key: string, hit: int): (r: EngineState)
    requires Shaped(e, cfg) && 0 <= cpu < MaxThreads
    ensures Shaped(r, cfg) && r.store == e.store && r.execCount == e.execCount && r.dataCount == e.dataCount
    ensures key !in e.store ==> r == e
    ensures forall k :: 0 <= k < MaxThreads ==> r.ledgers[k].counters.instrNum == e.ledgers[k].counters.instrNum
  {
    match Fetch(e.store, key, StoreBuffer, RecordWidth)
    case None => e
    case Some(stored) =>
      var si := Rounded(stored);
      Remote(Hit(e, cfg, cpu, key, hit, si.instrNum[cpu]), cfg, cpu, si)
  }

  /** The store branch: the record of the store replaces whatever was stored at `key`. */
  function Store(e: EngineState, cfg: Config, cpu: int, key: string): (r: EngineState)
    requires |e.ledgers| == MaxThreads + 1 && IsMatrix(e.fan) && 0 <= cpu < MaxThreads
    ensures r.(store := e.store) == e && key in r.store && r.store == e.store[key := r.store[key]]
    ensures RecordOk(r.store[key], cfg.fanTracking) && r.store[key].threadNo == cpu
    ensures forall k :: 0 <= k < MaxThreads ==> r.store[key].instrNum[k] == e.ledgers[k].counters.instrNum
    ensures r.store[key].localInterval == e.ledgers[cpu].counters.vul
  {
    var shadow := if ShadowOn(cfg, cpu) then Some(SourceOf(e.ledgers[Shadow])) else None;
    var own := e.ledgers[cpu];
    var record := StoreRecord(cpu, SourceOf(own), own.counters.rem, own.counters.remoteCount, shadow,
                              InstrNums(e.ledgers[..MaxThreads]), cfg.redundancy && cpu == cfg.redundant,
                              cfg.fanTracking, e.fan);
    e.(store := e.store[key := record])
  }

  /**
   * `text_trace_data` on core `cpu` for an access to physical address `pa`
   * (`readOrWrite` 0 for a load, 1 for a store; `hit` the L1 outcome): an
   * inactive core is ignored; otherwise the shadow follows the thread, the
   * access is counted and the load or store branch runs on the address's
   * hexadecimal key.
   */
  function Data(e: EngineState, cfg: Config, cpu: int, pa: nat, readOrWrite: int, hit: int): (r: EngineState)
    requires Shaped(e, cfg) && 0 <= cpu < MaxThreads
    ensures Shaped(r, cfg) && r.execCount == e.execCount
    ensures cfg.active[cpu] == 0 ==> r == e
    ensures cfg.active[cpu] != 0 ==> r.dataCount == e.dataCount + 1
    ensures readOrWrite != 1 ==> r.store == e.store
    ensures forall k :: 0 <= k < MaxThreads ==> r.ledgers[k].counters.instrNum == e.ledgers[k].counters.instrNum
  {
    if cfg.active[cpu] == 0 then e
    else
      var e1 := Followed(e, cfg, cpu).(dataCount := e.dataCount + 1);
      var key := HexString(pa);
      if readOrWrite == 0 then Load(e1, cfg, cpu, key, hit)
      else if readOrWrite == 1 then Store(e1, cfg, cpu, key)
      else e1
  }

  // ---- what every call keeps ----

  /** No register entry and no earlier load of a ledger is later than its current instruction. */
  predicate LedgerOrdered(s: LedgerState) {
    && NotAfter(s.registers, s.counters.instrNum)
    && forall a :: a in s.loads ==> s.loads[a] <= s.counters.instrNum
  }

  /** No record in `store` was written after instruction `n` of thread `k`. */
  predicate StoredBefore(store: map<string, StoreInfo>, k: nat, n: int) {
    forall key :: key in store ==> k < |store[key].instrNum| && store[key].instrNum[k] <= n
  }

  /**
   * The order the engine keeps for every thread: no register entry, no
   * earlier load and no stored record names an instruction of the thread
   * later than its current one.
   */
  predicate Ordered(e: EngineState) {
    && |e.ledgers| == MaxThreads + 1
    && forall k :: 0 <= k < MaxThreads ==>
         LedgerOrdered(e.ledgers[k]) && StoredBefore(e.store, k, e.ledgers[k].counters.instrNum)
  }

  /** Neither the instruction number nor the ALU, register or memory vulnerability went down. */
  predicate CountersGrown(c: Counters, c': Counters) {
    c.instrNum <= c'.instrNum && c.vul.alu <= c'.vul.alu && c.vul.reg <= c'.vul.reg && c.vul.mem <= c'.vul.mem
  }

  /** No thread's counters went down from `e` to `e'`. */
  predicate Grown(e: EngineState, e': EngineState)
    requires |e.ledgers| == MaxThreads + 1 && |e'.ledgers| == MaxThreads + 1
  {
    forall k :: 0 <= k < MaxThreads ==> CountersGrown(e.ledgers[k].counters, e'.ledgers[k].counters)
  }

  lemma {:induction false} GrownTransitive(e0: EngineState, e1: EngineState, e2: EngineState)
    requires |e0.ledgers| == |e1.ledgers| == |e2.ledgers| == MaxThreads + 1
    requires Grown(e0, e1) && Grown(e1, e2)
    ensures Grown(e0, e2)
  {
  }

  lemma {:induction false} StartOrdered()
    ensures Ordered(Start())
  {
  }

  /** Counting an instruction moves the thread forward and keeps every other thread. */
  lemma {:induction false} CountedOrdered(e: EngineState, cfg: Config, cpu: int)
    requires Ordered(e) && 0 <= cpu < MaxThreads
    ensures Ordered(Counted(e, cfg, cpu)) && Grown(e, Counted(e, cfg, cpu))
  {
  }

  lemma {:induction false} ReportedOrdered(e: EngineState)
    requires Ordered(e)
    ensures Ordered(Reported(e)) && Grown(e, Reported(e))
  {
  }

  /** The register calls of an instruction close only non-negative windows. */
  lemma {:induction false} RoutedOrdered(e: EngineState, cfg: Config, cpu: int, family: Family, accesses: seq<Access>)
    requires Ordered(e) && 0 <= cpu < MaxThreads
    ensures Ordered(Routed(e, cfg, cpu, family, accesses)) && Grown(e, Routed(e, cfg, cpu, family, accesses))
  {
    var s := e.ledgers[cpu];
    RegisteredWindows(s.registers, RegWidth, s.counters.instrNum, accesses);
  }

  /**
   * An instruction keeps the order, and no thread's vulnerability goes down:
   * every register window it closes is non-negative.
   */
  lemma {:induction false} InstructionOrdered(e: EngineState, cfg: Config, cpu: int, text: Option<string>)
    requires Shaped(e, cfg) && Ordered(e) && 0 <= cpu < MaxThreads
    ensures Ordered(Instruction(e, cfg, cpu, text)) && Grown(e, Instruction(e, cfg, cpu, text))
  {
    if cfg.active[cpu] != 0 {
      CountedOrdered(e, cfg, cpu);
      var e1 := Counted(e, cfg, cpu);
      ReportedOrdered(e1);
      var e2 := Reported(e1);
      GrownTransitive(e, e1, e2);
      if text.Some? && Route(text.value).0 != Untraced {
        var route := Route(text.value);
        RoutedOrdered(e2, cfg, cpu, route.0, route.1);
        GrownTransitive(e, e2, Routed(e2, cfg, cpu, route.0, route.1));
        assert Instruction(e, cfg, cpu, text) == Routed(e2, cfg, cpu, route.0, route.1);
      } else {
        assert Instruction(e, cfg, cpu, text) == e2;
      }
    }
  }

  /** A hit on a value stored no later than the loading instruction closes a non-negative window. */
  lemma {:induction false} HitOrdered(e: EngineState, cfg: Config, cpu: int, key: string, hit: int, storeInst: int)
    requires Ordered(e) && 0 <= cpu < MaxThreads && storeInst <= e.ledgers[cpu].counters.instrNum
    ensures Ordered(Hit(e, cfg, cpu, key, hit, storeInst)) && Grown(e, Hit(e, cfg, cpu, key, hit, storeInst))
  {
  }

  lemma {:induction false} RemoteOrdered(e: EngineState, cfg: Config, cpu: int, si: StoreInfo)
    requires Ordered(e) && IsMatrix(e.fan) && 0 <= cpu < MaxThreads && RecordOk(si, cfg.fanTracking)
    ensures Ordered(Remote(e, cfg, cpu, si)) && Grown(e, Remote(e, cfg, cpu, si))
  {
  }

  lemma {:induction false} StoreOrdered(e: EngineState, cfg: Config, cpu: int, key: string)
    requires Ordered(e) && IsMatrix(e.fan) && 0 <= cpu < MaxThreads
    ensures Ordered(Store(e, cfg, cpu, key)) && Grown(e, Store(e, cfg, cpu, key))
  {
  }

  lemma {:induction false} FollowedOrdered(e: EngineState, cfg: Config, cpu: int)
    requires Ordered(e)
    ensures Ordered(Followed(e, cfg, cpu)) && Grown(e, Followed(e, cfg, cpu))
  {
  }

  /** A load reads a record stored no later than the loading instruction. */
  lemma {:induction false} LoadOrdered(e: EngineState, cfg: Config, cpu: int, key: string, hit: int)
    requires Shaped(e, cfg) && Ordered(e) && 0 <= cpu < MaxThreads
    ensures Ordered(Load(e, cfg, cpu, key, hit)) && Grown(e, Load(e, cfg, cpu, key, hit))
  {
    if Fetch(e.store, key, StoreBuffer, RecordWidth).Some? {
      var si := Rounded(e.store[key]);
      assert StoredBefore(e.store, cpu, e.ledgers[cpu].counters.instrNum);
      HitOrdered(e, cfg, cpu, key, hit, si.instrNum[cpu]);
      var e2 := Hit(e, cfg, cpu, key, hit, si.instrNum[cpu]);
      RemoteOrdered(e2, cfg, cpu, si);
      GrownTransitive(e, e2, Remote(e2, cfg, cpu, si));
      assert Load(e, cfg, cpu, key, hit) == Remote(e2, cfg, cpu, si);
    }
  }

  /**
   * A memory access keeps the order, and no thread's vulnerability goes
   * down: a load's window opens no later than the loading instruction.
   */
  lemma {:induction false} DataOrdered(e: EngineState, cfg: Config, cpu: int, pa: nat, readOrWrite: int, hit: int)
    requires Shaped(e, cfg) && Ordered(e) && 0 <= cpu < MaxThreads
    ensures Ordered(Data(e, cfg, cpu, pa, readOrWrite, hit)) && Grown(e, Data(e, cfg, cpu, pa, readOrWrite, hit))
  {
    if cfg.active[cpu] != 0 {
      FollowedOrdered(e, cfg, cpu);
      var e1 := Followed(e, cfg, cpu).(dataCount := e.dataCount + 1);
      assert Ordered(e1) && Grown(e, e1);
      var key := HexString(pa);
      if readOrWrite == 0 {
        LoadOrdered(e1, cfg, cpu, key, hit);
        GrownTransitive(e, e1, Load(e1, cfg, cpu, key, hit));
        assert Data(e, cfg, cpu, pa, readOrWrite, hit) == Load(e1, cfg, cpu, key, hit);
      } else if readOrWrite == 1 {
        StoreOrdered(e1, cfg, cpu, key);
        assert Data(e, cfg, cpu, pa, readOrWrite, hit) == Store(e1, cfg, cpu, key);
      }
    }
  }

  // ---- a whole trace ----

  /** One callback from the simulator: an executed instruction or a memory access. */
  datatype Event =
    | OnInstruction(cpu: int, text: Option<string>)
    | OnData(cpu: int, pa: nat, readOrWrite: int, hit: int)

  predicate OnThreads(events: seq<Event>) {
    forall i :: 0 <= i < |events| ==> 0 <= events[i].cpu < MaxThreads
  }

  /** The engine after the callbacks `events`, in order, with the configuration `cfg` throughout. */
  function Run(e: EngineState, cfg: Config, events: seq<Event>): (r: EngineState)
    requires Shaped(e, cfg) && OnThreads(events)
    ensures Shaped(r, cfg)
    decreases |events|
  {
    if events == [] then e
    else
      var next := match events[0]
        case OnInstruction(cpu, text) => Instruction(e, cfg, cpu, text)
        case OnData(cpu, pa, readOrWrite, hit) => Data(e, cfg, cpu, pa, readOrWrite, hit);
      Run(next, cfg, events[1..])
  }

  /** Every trace keeps the order, and along it no thread's counters ever go down. */
  lemma {:induction false} RunOrdered(e: EngineState, cfg: Config, events: seq<Event>)
    requires Shaped(e, cfg) && Ordered(e) && OnThreads(events)
    ensures Ordered(Run(e, cfg, events)) && Grown(e, Run(e, cfg, events))
    decreases |events|
  {
    if events != [] {
      var next := match events[0]
        case OnInstruction(cpu, text) => Instruction(e, cfg, cpu, text)
        case OnData(cpu, pa, readOrWrite, hit) => Data(e, cfg, cpu, pa, readOrWrite, hit);
      match events[0] {
        case OnInstruction(cpu, text) => InstructionOrdered(e, cfg, cpu, text);
        case OnData(cpu, pa, readOrWrite, hit) => DataOrdered(e, cfg, cpu, pa, readOrWrite, hit);
      }
      RunOrdered(next, cfg, events[1..]);
      GrownTransitive(e, next, Run(next, cfg, events[1..]));
    }
  }

  /**
   * From the engine `base_trace_new_instance` builds, whatever the simulator
   * reports, no thread ever holds a negative instruction number or a negative
   * ALU, register or memory vulnerability.
   */
  lemma {:induction false} TraceNonNegative(cfg: Config, events: seq<Event>)
    requires |cfg.active| == Cores && OnThreads(events)
    ensures forall k :: 0 <= k < MaxThreads ==>
              var c := Run(Start(), cfg, events).ledgers[k].counters;
              c.instrNum >= 0 && c.vul.alu >= 0.0 && c.vul.reg >= 0.0 && c.vul.mem >= 0.0
  {
    StartOrdered();
    RunOrdered(Start(), cfg, events);
  }
}
