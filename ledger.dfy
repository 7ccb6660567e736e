/**
 * The per-thread vulnerability ledger (`thread_t`): instruction counters,
 * the accumulated local and remote vulnerability of each resource class, and
 * the maps that remember, per register and per memory address, when it was
 * last touched and how much vulnerability it has gathered.
 */
module Ledger {
  import opened Basics
  import opened Formats
  import opened StrMaps
  import opened Factors
  import opened Operands

  // ---- the text form of map values ----

  /** A register entry `"%lld+%f"`: the instruction of the last access and the accumulated value. */
  datatype RegEntry = RegEntry(last: int, vul: real)

  function RegWidth(e: RegEntry): nat { |IntToString(e.last)| + 1 + |FormatFixed(e.vul)| }
  /** `atof` of a register entry stops at the '+': it reads the instruction number. */
  function RegNum(e: RegEntry): real { e.last as real }

  /** Values stored with `DOUBLE_TYPE` (`"%f"`). */
  function RealWidth(x: real): nat { |FormatFixed(x)| }
  function RealNum(x: real): real { x }

  /** Values stored with `LONG_LONG_TYPE` (`"%lld"`). */
  function IntWidth(n: int): nat { |IntToString(n)| }
  function IntNum(n: int): real { n as real }

  /** The buffer sizes of the reads in `get_from_char_map` and `reg_vulnerability`. */
  const WrapperBuffer: nat := 50
  const RegisterBuffer: nat := 1000

  // ---- typed map wrappers ----

  /**
   * `get_from_char_map`: the value when it is present and its text fits the
   * 50-character buffer; otherwise the caller's `default` is left in place.
   */
  method GetFrom<V>(m: StrMap<V>, key: string, default: V) returns (v: V, found: bool)
    requires m.Valid()
    ensures found <==> Fetch(m.Contents, key, WrapperBuffer, m.width).Some?
    ensures v == Fetch(m.Contents, key, WrapperBuffer, m.width).GetOr(default)
    ensures found ==> key in m.Contents && v == m.Contents[key]
  {
    var r := m.Get(Some(key), WrapperBuffer);
    found := r.Some?;
    v := r.GetOr(default);
  }

  /** `put_to_char_map` with `DOUBLE_TYPE`: the stored text keeps six decimals. */
  method PutReal(m: StrMap<real>, key: string, x: real)
    requires m.Valid()
    modifies m, m.buckets
    ensures m.Valid()
    ensures m.Contents == old(m.Contents)[key := Round6(x)]
  {
    var _ := m.Put(Some(key), Some(Round6(x)));
  }

  /** `put_to_char_map` with `LONG_LONG_TYPE`: integers are stored exactly. */
  method PutInt(m: StrMap<int>, key: string, n: int)
    requires m.Valid()
    modifies m, m.buckets
    ensures m.Valid()
    ensures m.Contents == old(m.Contents)[key := n]
  {
    var _ := m.Put(Some(key), Some(n));
  }

  lemma {:induction false} Round6NonNegative(x: real)
    requires x >= 0.0
    ensures Round6(x) >= 0.0
  {
  }

  // ---- the register ledger, as a function of the entry before ----

  /**
   * One `reg_vulnerability` call: the new entry and the returned value.
   * A read of a known register returns the instructions since its last
   * access and adds them to its value; a write returns 0 and keeps the
   * value; an unknown register starts at value 0.
   */
  function RegStep(prev: Option<RegEntry>, cur: int, read: bool): (RegEntry, int) {
    match prev
    case None => (RegEntry(cur, 0.0), 0)
    case Some(e) =>
      if read then (RegEntry(cur, Round6(e.vul + (cur - e.last) as real)), cur - e.last)
      else (RegEntry(cur, Round6(e.vul)), 0)
  }

  /**
   * Every call records the current instruction. A read of a known register
   * returns the instructions since its last access and stores the old value
   * plus that window; a write returns 0 and keeps the old value; both up to
   * the six decimals `%f` keeps. A register seen for the first time returns 0
   * and starts at 0.
   */
  lemma {:induction false} RegStepCases(prev: Option<RegEntry>, cur: int, read: bool)
    ensures RegStep(prev, cur, read).0.last == cur
    ensures prev.None? ==> RegStep(prev, cur, read) == (RegEntry(cur, 0.0), 0)
    ensures prev.Some? && read ==>
              && RegStep(prev, cur, read).1 == cur - prev.value.last
              && Abs(RegStep(prev, cur, read).0.vul - (prev.value.vul + (cur - prev.value.last) as real))
                   <= 0.5 / Scale as real
    ensures prev.Some? && !read ==>
              && RegStep(prev, cur, read).1 == 0
              && Abs(RegStep(prev, cur, read).0.vul - prev.value.vul) <= 0.5 / Scale as real
  {
    if prev.Some? {
      Round6Error(prev.value.vul + (cur - prev.value.last) as real);
      Round6Error(prev.value.vul);
    }
  }

  /** Replays a series of accesses `(instruction, read)` on one register that is never evicted. */
  function Replay(prev: Option<RegEntry>, accesses: seq<(int, bool)>): Option<RegEntry>
    decreases |accesses|
  {
    if accesses == [] then prev
    else Replay(Some(RegStep(prev, accesses[0].0, accesses[0].1).0), accesses[1..])
  }

  /** The sum of what the replayed calls return. */
  function Returned(prev: Option<RegEntry>, accesses: seq<(int, bool)>): int
    decreases |accesses|
  {
    if accesses == [] then 0
    else RegStep(prev, accesses[0].0, accesses[0].1).1
         + Returned(Some(RegStep(prev, accesses[0].0, accesses[0].1).0), accesses[1..])
  }

  predicate Ascending(accesses: seq<(int, bool)>) {
    forall i, j :: 0 <= i < j < |accesses| ==> accesses[i].0 <= accesses[j].0
  }

  /**
   * What one register accumulates is what the calls returned: its value is
   * the sum of the returned liveness windows, the windows are never negative
   * when instruction numbers only grow, and together they never exceed the
   * instructions between the first and the last access.
   */
  lemma {:induction false} ReplayAccounts(accesses: seq<(int, bool)>)
    requires |accesses| > 0 && Ascending(accesses)
    ensures Replay(None, accesses).Some?
    ensures Replay(None, accesses).value.last == accesses[|accesses| - 1].0
    ensures Replay(None, accesses).value.vul == Returned(None, accesses) as real
    ensures 0 <= Returned(None, accesses) <= accesses[|accesses| - 1].0 - accesses[0].0
  {
    ReplayFrom(RegEntry(accesses[0].0, 0.0), accesses[1..], accesses[0].0);
    assert Replay(None, accesses) == Replay(Some(RegEntry(accesses[0].0, 0.0)), accesses[1..]);
    if |accesses| > 1 {
      assert accesses[1..][|accesses[1..]| - 1] == accesses[|accesses| - 1];
    }
  }

  /** The induction behind `ReplayAccounts`, from an entry whose value is a whole number. */
  lemma {:induction false} ReplayFrom(e: RegEntry, accesses: seq<(int, bool)>, first: int)
    requires e.vul == e.vul.Floor as real && 0 <= e.vul.Floor <= e.last - first
    requires forall i :: 0 <= i < |accesses| ==> e.last <= accesses[i].0
    requires Ascending(accesses)
    ensures Replay(Some(e), accesses).Some?
    ensures Replay(Some(e), accesses).value.last == if accesses == [] then e.last else accesses[|accesses| - 1].0
    ensures Replay(Some(e), accesses).value.vul == e.vul + Returned(Some(e), accesses) as real
    ensures 0 <= e.vul.Floor + Returned(Some(e), accesses)
              <= (if accesses == [] then e.last else accesses[|accesses| - 1].0) - first
    decreases |accesses|
  {
    if accesses != [] {
      var (cur, read) := accesses[0];
      var (e', d) := RegStep(Some(e), cur, read);
      var whole := e.vul.Floor + d;
      Round6Whole(whole);
      assert e'.vul == whole as real;
      ReplayFrom(e', accesses[1..], first);
      if |accesses| > 1 {
        assert accesses[1..][|accesses[1..]| - 1] == accesses[|accesses| - 1];
      }
    }
  }

  // ---- the register calls of one instruction ----

  /**
   * The register map after the ledger calls `accesses` of one instruction at
   * instruction number `cur`, the sum of the windows they return and the
   * number of reads among them; the last call is applied last.
   */
  function Registered(contents: map<string, RegEntry>, width: RegEntry -> nat, cur: int, accesses: seq<Access>)
    : (map<string, RegEntry>, int, int)
    decreases |accesses|
  {
    if accesses == [] then (contents, 0, 0)
    else
      var before := Registered(contents, width, cur, accesses[..|accesses| - 1]);
      var a := accesses[|accesses| - 1];
      var step := RegStep(Fetch(before.0, a.key, RegisterBuffer, width), cur, a.read);
      (before.0[a.key := step.0], before.1 + step.1, before.2 + (if a.read then 1 else 0))
  }

  /** Appending one call applies it to the state the earlier calls left. */
  lemma {:induction false} RegisteredSnoc(contents: map<string, RegEntry>, width: RegEntry -> nat, cur: int, done: seq<Access>, a: Access)
    ensures var before := Registered(contents, width, cur, done);
            var step := RegStep(Fetch(before.0, a.key, RegisterBuffer, width), cur, a.read);
            Registered(contents, width, cur, done + [a])
              == (before.0[a.key := step.0], before.1 + step.1, before.2 + (if a.read then 1 else 0))
  {
    assert (done + [a])[..|done|] == done;
  }

  /** The number of reads among `accesses`. */
  function ReadCount(accesses: seq<Access>): nat {
    if accesses == [] then 0 else (if accesses[0].read then 1 else 0) + ReadCount(accesses[1..])
  }

  lemma {:induction false} ReadCountAppend(accesses: seq<Access>, a: Access)
    ensures ReadCount(accesses + [a]) == ReadCount(accesses) + if a.read then 1 else 0
    decreases |accesses|
  {
    if accesses != [] {
      assert (accesses + [a])[1..] == accesses[1..] + [a];
      ReadCountAppend(accesses[1..], a);
    }
  }

  /** No entry of `contents` records an access later than instruction `cur`. */
  predicate NotAfter(contents: map<string, RegEntry>, cur: int) {
    forall k :: k in contents ==> contents[k].last <= cur
  }

  /**
   * The calls of one instruction never return a negative window when no
   * register was accessed later than the instruction, leave no entry later
   * than it, and count exactly the reads as live.
   */
  lemma {:induction false} RegisteredWindows(contents: map<string, RegEntry>, width: RegEntry -> nat, cur: int,
                                            accesses: seq<Access>)
    requires NotAfter(contents, cur)
    ensures var (after, windows, readCount) := Registered(contents, width, cur, accesses);
            windows >= 0 && NotAfter(after, cur) && readCount == ReadCount(accesses)
    decreases |accesses|
  {
    if accesses != [] {
      var prefix := accesses[..|accesses| - 1];
      RegisteredWindows(contents, width, cur, prefix);
      assert accesses == prefix + [accesses[|accesses| - 1]];
      ReadCountAppend(prefix, accesses[|accesses| - 1]);
    }
  }

  /**
   * Every register the calls of one instruction touch is left recording that
   * instruction, and every other entry is kept.
   */
  lemma {:induction false} RegisteredKeys(contents: map<string, RegEntry>, width: RegEntry -> nat, cur: int,
                                         accesses: seq<Access>)
    ensures var after := Registered(contents, width, cur, accesses).0;
            && (forall k :: 0 <= k < |accesses| ==> accesses[k].key in after && after[accesses[k].key].last == cur)
            && (forall key :: key in contents && (forall k :: 0 <= k < |accesses| ==> accesses[k].key != key) ==>
                  key in after && after[key] == contents[key])
    decreases |accesses|
  {
    if accesses != [] {
      RegisteredKeys(contents, width, cur, accesses[..|accesses| - 1]);
    }
  }

  /** An instruction whose operands are both untracked makes no register call. */
  lemma {:induction false} NoCallsNoChange(contents: map<string, RegEntry>, width: RegEntry -> nat, cur: int)
    ensures Registered(contents, width, cur, Accesses(Classified(Untracked, []), Classified(Untracked, [])))
            == (contents, 0, 0)
  {
  }

  // ---- remote sums per source thread ----

  /**
   * The four per-source values `remote_vulnerability` writes for one store
   * thread, given what the four maps answered: a source whose ALU entry is
   * readable adds the new values to the stored ones (a missing companion
   * entry reads as the new value itself) and counts one more read; any other
   * source starts from the new values with a count of 1.
   */
  datatype RemoteEntry = RemoteEntry(alu: real, reg: real, mem: real, count: int)

  function RemoteStep(alu: Option<real>, reg: Option<real>, mem: Option<real>, count: Option<int>,
                      v: Triple): (r: RemoteEntry)
    ensures alu.None? ==> r == RemoteEntry(v.alu, v.reg, v.mem, 1)
    ensures alu.Some? && reg.Some? && mem.Some? && count.Some? ==>
              r == RemoteEntry(alu.value + v.alu, reg.value + v.reg, mem.value + v.mem, count.value + 1)
    ensures alu.Some? ==> r.alu == alu.value + v.alu
    ensures alu.Some? && reg.None? ==> r.reg == 2.0 * v.reg
    ensures alu.Some? && mem.None? ==> r.mem == 2.0 * v.mem
    ensures alu.Some? && count.None? ==> r.count == 2
  {
    if alu.Some? then
      RemoteEntry(alu.value + v.alu, reg.GetOr(v.reg) + v.reg, mem.GetOr(v.mem) + v.mem, count.GetOr(1) + 1)
    else
      RemoteEntry(v.alu, v.reg, v.mem, 1)
  }

  /** The scalar part of a thread's ledger. */
  datatype Counters = Counters(
    threadNum: int, instrNum: int, instrCount: int, regLiveArea: int, memLiveArea: int, remoteCount: int,
    vul: Triple, self: Triple, lastRemote: Triple, rem: Triple)

  /** The liveness window a load closes, and where it starts. */
  function WindowStart(storeInst: int, lastLoad: Option<int>): (s: int)
    ensures s >= storeInst
    ensures lastLoad.Some? ==> s >= lastLoad.value
    ensures s == storeInst || (lastLoad.Some? && s == lastLoad.value)
  {
    if lastLoad.Some? && lastLoad.value > storeInst then lastLoad.value else storeInst
  }

  /** A ledger whose liveness window `w` of one address closed (`w` non-zero counts). */
  function Windowed(c: Counters, w: int): (r: Counters)
    ensures w == 0 ==> r == c
    ensures r.vul.mem == c.vul.mem + w as real && r.vul.alu == c.vul.alu && r.vul.reg == c.vul.reg
    ensures r.memLiveArea == c.memLiveArea + (if w != 0 then 1 else 0)
    ensures r.(memLiveArea := c.memLiveArea, vul := c.vul) == c
  {
    if w != 0 then c.(memLiveArea := c.memLiveArea + 1, vul := c.vul.(mem := c.vul.mem + w as real)) else c
  }

  /** The storing thread of a value another thread loaded: its self values restart from the recorded ones. */
  function ReadBack(c: Counters, localInterval: Triple): (r: Counters)
    ensures r.self == localInterval
    ensures r.(self := c.self, lastRemote := c.lastRemote) == c
    ensures r.lastRemote.alu == (if c.self.alu != 0.0 then c.self.alu else c.lastRemote.alu)
    ensures r.lastRemote.reg == (if c.self.reg != 0.0 then c.self.reg else c.lastRemote.reg)
    ensures r.lastRemote.mem == (if c.self.mem != 0.0 then c.self.mem else c.lastRemote.mem)
  {
    c.(self := localInterval,
       lastRemote := Triple(LastRemoteAfter(c.self.alu, c.lastRemote.alu),
                            LastRemoteAfter(c.self.reg, c.lastRemote.reg),
                            LastRemoteAfter(c.self.mem, c.lastRemote.mem)))
  }

  /** A ledger after `print_cpu` settled its self values. */
  function Settled(c: Counters): (r: Counters)
    ensures r.(self := c.self) == c
    ensures r.self.alu == 0.0 ==> c.vul.alu == c.self.alu || c.vul.alu == c.lastRemote.alu
    ensures r.self.reg == 0.0 ==> c.vul.reg == c.self.reg || c.vul.reg == c.lastRemote.reg
    ensures r.self.mem == 0.0 ==> c.vul.mem == c.self.mem || c.vul.mem == c.lastRemote.mem
  {
    c.(self := Triple(SettledSelf(c.vul.alu, c.self.alu, c.lastRemote.alu),
                      SettledSelf(c.vul.reg, c.self.reg, c.lastRemote.reg),
                      SettledSelf(c.vul.mem, c.self.mem, c.lastRemote.mem)))
  }

  /** A ledger as `initialize_thread_data` leaves it. */
  function Initial(id: int): Counters {
    Counters(id, 0, 0, 0, 0, 0, Zero, Zero, Zero, Zero)
  }

  /** A ledger as a value: its counters and the contents of its seven maps. */
  datatype LedgerState = LedgerState(
    counters: Counters, registers: map<string, RegEntry>, memory: map<string, real>, loads: map<string, int>,
    remoteAlu: map<string, real>, remoteReg: map<string, real>, remoteMem: map<string, real>,
    remoteCounts: map<string, int>)

  // ---- a ledger as a value ----

  /** `initialize_thread_data`: zero counters under the number `id` and empty maps. */
  function Fresh(id: int): LedgerState {
    LedgerState(Initial(id), map[], map[], map[], map[], map[], map[], map[])
  }

  /** One more executed instruction. */
  function Ticked(s: LedgerState): LedgerState {
    s.(counters := s.counters.(instrNum := s.counters.instrNum + 1, instrCount := s.counters.instrCount + 1))
  }

  /**
   * An instruction of `family` making the register calls `accesses`: one unit
   * of ALU exposure for the families that count it, every returned window
   * added to the register vulnerability and every read counted as live.
   */
  function Executed(s: LedgerState, family: Family, accesses: seq<Access>): LedgerState {
    var (after, windows, readCount) := Registered(s.registers, RegWidth, s.counters.instrNum, accesses);
    var c := s.counters;
    s.(registers := after,
       counters := c.(regLiveArea := c.regLiveArea + readCount,
                      vul := Triple(c.vul.alu + (if CountsAlu(family) then 1.0 else 0.0),
                                    c.vul.reg + windows as real, c.vul.mem)))
  }

  /** Where the window of a load of `key` opens: the later of the store and the last load. */
  function LoadWindowStart(s: LedgerState, key: string, storeInst: int): int {
    WindowStart(storeInst, Fetch(s.loads, key, WrapperBuffer, IntWidth))
  }

  /** A load of `key` that hit, of a value stored at this ledger's instruction `storeInst`. */
  function Loaded(s: LedgerState, key: string, storeInst: int): LedgerState {
    var w := s.counters.instrNum - LoadWindowStart(s, key, storeInst);
    var before := Fetch(s.memory, key, WrapperBuffer, RealWidth).GetOr(0.0);
    s.(counters := Windowed(s.counters, w),
       memory := if w != 0 then s.memory[key := Round6(before + w as real)] else s.memory,
       loads := s.loads[key := s.counters.instrNum])
  }

  /** A load of a value thread `source` stored with total factors `tvf`. */
  function RemoteLoaded(s: LedgerState, source: int, tvf: Triple): LedgerState {
    var key := IntToString(source);
    var e := RemoteStep(Fetch(s.remoteAlu, key, WrapperBuffer, RealWidth), Fetch(s.remoteReg, key, WrapperBuffer, RealWidth),
                        Fetch(s.remoteMem, key, WrapperBuffer, RealWidth), Fetch(s.remoteCounts, key, WrapperBuffer, IntWidth),
                        tvf);
    s.(counters := s.counters.(rem := s.counters.rem.Plus(tvf), remoteCount := s.counters.remoteCount + 1),
       remoteAlu := s.remoteAlu[key := Round6(e.alu)], remoteReg := s.remoteReg[key := Round6(e.reg)],
       remoteMem := s.remoteMem[key := Round6(e.mem)], remoteCounts := s.remoteCounts[key := e.count])
  }

  /** What a store reads of a ledger: its instruction number, its values and the sizes of two maps. */
  function SourceOf(s: LedgerState): Source {
    Source(s.counters.instrNum, s.counters.vul, |s.registers|, |s.memory|)
  }

  class Thread {
    /** The scalar part of `thread_t`: counters and accumulated vulnerabilities. */
    var counters: Counters

    const registerVul: StrMap<RegEntry>
    const memoryVul: StrMap<real>
    const memoryLoad: StrMap<int>
    const remoteAlu: StrMap<real>
    const remoteReg: StrMap<real>
    const remoteMem: StrMap<real>
    const remoteCounts: StrMap<int>

    /**
     * The ledger, its seven maps and their bucket tables are fifteen distinct
     * objects, so updating one of them leaves the others as they were.
     */
    predicate Separate() {
      && this as object != registerVul && this as object != registerVul.buckets && this as object != memoryVul
      && this as object != memoryVul.buckets && this as object != memoryLoad && this as object != memoryLoad.buckets
      && this as object != remoteAlu && this as object != remoteAlu.buckets && this as object != remoteReg
      && this as object != remoteReg.buckets && this as object != remoteMem && this as object != remoteMem.buckets
      && this as object != remoteCounts && this as object != remoteCounts.buckets
      && registerVul as object != registerVul.buckets && registerVul as object != memoryVul
      && registerVul as object != memoryVul.buckets && registerVul as object != memoryLoad
      && registerVul as object != memoryLoad.buckets && registerVul as object != remoteAlu
      && registerVul as object != remoteAlu.buckets && registerVul as object != remoteReg
      && registerVul as object != remoteReg.buckets && registerVul as object != remoteMem
      && registerVul as object != remoteMem.buckets && registerVul as object != remoteCounts
      && registerVul as object != remoteCounts.buckets
      && registerVul.buckets as object != memoryVul && registerVul.buckets as object != memoryVul.buckets
      && registerVul.buckets as object != memoryLoad && registerVul.buckets as object != memoryLoad.buckets
      && registerVul.buckets as object != remoteAlu && registerVul.buckets as object != remoteAlu.buckets
      && registerVul.buckets as object != remoteReg && registerVul.buckets as object != remoteReg.buckets
      && registerVul.buckets as object != remoteMem && registerVul.buckets as object != remoteMem.buckets
      && registerVul.buckets as object != remoteCounts && registerVul.buckets as object != remoteCounts.buckets
      && memoryVul as object != memoryVul.buckets && memoryVul as object != memoryLoad
      && memoryVul as object != memoryLoad.buckets && memoryVul as object != remoteAlu
      && memoryVul as object != remoteAlu.buckets && memoryVul as object != remoteReg
      && memoryVul as object != remoteReg.buckets && memoryVul as object != remoteMem
      && memoryVul as object != remoteMem.buckets && memoryVul as object != remoteCounts
      && memoryVul as object != remoteCounts.buckets
      && memoryVul.buckets as object != memoryLoad && memoryVul.buckets as object != memoryLoad.buckets
      && memoryVul.buckets as object != remoteAlu && memoryVul.buckets as object != remoteAlu.buckets
      && memoryVul.buckets as object != remoteReg && memoryVul.buckets as object != remoteReg.buckets
      && memoryVul.buckets as object != remoteMem && memoryVul.buckets as object != remoteMem.buckets
      && memoryVul.buckets as object != remoteCounts && memoryVul.buckets as object != remoteCounts.buckets
      && memoryLoad as object != memoryLoad.buckets && memoryLoad as object != remoteAlu
      && memoryLoad as object != remoteAlu.buckets && memoryLoad as object != remoteReg
      && memoryLoad as object != remoteReg.buckets && memoryLoad as object != remoteMem
      && memoryLoad as object != remoteMem.buckets && memoryLoad as object != remoteCounts
      && memoryLoad as object != remoteCounts.buckets
      && memoryLoad.buckets as object != remoteAlu && memoryLoad.buckets as object != remoteAlu.buckets
      && memoryLoad.buckets as object != remoteReg && memoryLoad.buckets as object != remoteReg.buckets
      && memoryLoad.buckets as object != remoteMem && memoryLoad.buckets as object != remoteMem.buckets
      && memoryLoad.buckets as object != remoteCounts && memoryLoad.buckets as object != remoteCounts.buckets
      && remoteAlu as object != remoteAlu.buckets && remoteAlu as object != remoteReg
      && remoteAlu as object != remoteReg.buckets && remoteAlu as object != remoteMem
      && remoteAlu as object != remoteMem.buckets && remoteAlu as object != remoteCounts
      && remoteAlu as object != remoteCounts.buckets
      && remoteAlu.buckets as object != remoteReg && remoteAlu.buckets as object != remoteReg.buckets
      && remoteAlu.buckets as object != remoteMem && remoteAlu.buckets as object != remoteMem.buckets
      && remoteAlu.buckets as object != remoteCounts && remoteAlu.buckets as object != remoteCounts.buckets
      && remoteReg as object != remoteReg.buckets && remoteReg as object != remoteMem
      && remoteReg as object != remoteMem.buckets && remoteReg as object != remoteCounts
      && remoteReg as object != remoteCounts.buckets
      && remoteReg.buckets as object != remoteMem && remoteReg.buckets as object != remoteMem.buckets
      && remoteReg.buckets as object != remoteCounts && remoteReg.buckets as object != remoteCounts.buckets
      && remoteMem as object != remoteMem.buckets && remoteMem as object != remoteCounts
      && remoteMem as object != remoteCounts.buckets
      && remoteMem.buckets as object != remoteCounts && remoteMem.buckets as object != remoteCounts.buckets
      && remoteCounts as object != remoteCounts.buckets
    }

    /**
     * The fifteen objects are distinct and each map measures
     * its values' texts as the format its values are written with; none of
     * this depends on the heap, so it holds for the thread's whole life.
     */
    ghost predicate Wired() {
      Separate() && TextWidths()
    }

    /** Every map is sound. */
    ghost predicate Valid()
      reads registerVul, registerVul.buckets, memoryVul, memoryVul.buckets, memoryLoad, memoryLoad.buckets
      reads remoteAlu, remoteAlu.buckets, remoteReg, remoteReg.buckets, remoteMem, remoteMem.buckets
      reads remoteCounts, remoteCounts.buckets
    {
      RegisterValid() && MemoryValid() && RemoteValid()
    }

    ghost predicate RegisterValid()
      reads registerVul, registerVul.buckets
    {
      registerVul.Valid()
    }

    ghost predicate MemoryValid()
      reads memoryVul, memoryVul.buckets, memoryLoad, memoryLoad.buckets
    {
      memoryVul.Valid() && memoryLoad.Valid()
    }

    ghost predicate RemoteValid()
      reads remoteAlu, remoteAlu.buckets, remoteReg, remoteReg.buckets, remoteMem, remoteMem.buckets
      reads remoteCounts, remoteCounts.buckets
    {
      remoteAlu.Valid() && remoteReg.Valid() && remoteMem.Valid() && remoteCounts.Valid()
    }

    /** Each map measures its values' texts as the format its values are written with. */
    ghost predicate TextWidths() {
      && registerVul.width == RegWidth && memoryVul.width == RealWidth && memoryLoad.width == IntWidth
      && remoteAlu.width == RealWidth && remoteReg.width == RealWidth && remoteMem.width == RealWidth
      && remoteCounts.width == IntWidth
    }

    /** The ledger as a value. */
    ghost function State(): LedgerState
      reads this, registerVul, memoryVul, memoryLoad, remoteAlu, remoteReg, remoteMem, remoteCounts
    {
      LedgerState(counters, registerVul.Contents, memoryVul.Contents, memoryLoad.Contents,
                  remoteAlu.Contents, remoteReg.Contents, remoteMem.Contents, remoteCounts.Contents)
    }

    /** `initialize_thread_data`: zero counters and empty maps. */
    constructor (id: int)
      ensures Wired() && Valid()
      ensures State() == Fresh(id)
    {
      counters := Initial(id);
      var mv := new StrMap(10000, RealNum, RealWidth);
      var ml := new StrMap(10000, IntNum, IntWidth);
      var rv := new StrMap(500, RegNum, RegWidth);
      var ra := new StrMap(500, RealNum, RealWidth);
      var rr := new StrMap(500, RealNum, RealWidth);
      var rm := new StrMap(500, RealNum, RealWidth);
      var rc := new StrMap(500, IntNum, IntWidth);
      memoryVul, memoryLoad, registerVul := mv, ml, rv;
      remoteAlu, remoteReg, remoteMem, remoteCounts := ra, rr, rm, rc;
      assert mv.Contents == map[] && ml.Contents == map[] && rv.Contents == map[];
      assert ra.Contents == map[] && rr.Contents == map[] && rm.Contents == map[] && rc.Contents == map[];
    }

    /**
     * `initialize_thread_data` on a ledger in use: the counters restart from
     * zero under the number `id` and every map is emptied.
     */
    method Reset(id: int)
      requires Wired() && Valid()
      modifies this, registerVul, registerVul.buckets, memoryVul, memoryVul.buckets, memoryLoad, memoryLoad.buckets
      modifies remoteAlu, remoteAlu.buckets, remoteReg, remoteReg.buckets, remoteMem, remoteMem.buckets
      modifies remoteCounts, remoteCounts.buckets
      ensures Valid()
      ensures State() == Fresh(id)
      ensures counters == Initial(id)
      ensures registerVul.Contents == map[] && memoryVul.Contents == map[] && memoryLoad.Contents == map[]
      ensures remoteAlu.Contents == map[] && remoteReg.Contents == map[] && remoteMem.Contents == map[]
      ensures remoteCounts.Contents == map[]
    {
      ClearMaps();
      counters := Initial(id);
    }

    method ClearMaps()
      requires Wired() && Valid()
      modifies registerVul, registerVul.buckets, memoryVul, memoryVul.buckets, memoryLoad, memoryLoad.buckets
      modifies remoteAlu, remoteAlu.buckets, remoteReg, remoteReg.buckets, remoteMem, remoteMem.buckets
      modifies remoteCounts, remoteCounts.buckets
      ensures Valid()
      ensures registerVul.Contents == map[] && memoryVul.Contents == map[] && memoryLoad.Contents == map[]
      ensures remoteAlu.Contents == map[] && remoteReg.Contents == map[] && remoteMem.Contents == map[]
      ensures remoteCounts.Contents == map[]
    {
      registerVul.Clear();
      ClearMemory();
      ClearRemote();
    }

    method ClearMemory()
      requires Separate() && MemoryValid()
      modifies memoryVul, memoryVul.buckets, memoryLoad, memoryLoad.buckets
      ensures MemoryValid() && memoryVul.Contents == map[] && memoryLoad.Contents == map[]
    {
      memoryVul.Clear();
      memoryLoad.Clear();
    }

    method ClearRemote()
      requires Separate() && RemoteValid()
      modifies remoteAlu, remoteAlu.buckets, remoteReg, remoteReg.buckets, remoteMem, remoteMem.buckets
      modifies remoteCounts, remoteCounts.buckets
      ensures RemoteValid()
      ensures remoteAlu.Contents == map[] && remoteReg.Contents == map[] && remoteMem.Contents == map[]
      ensures remoteCounts.Contents == map[]
    {
      remoteAlu.Clear();
      remoteReg.Clear();
      remoteMem.Clear();
      remoteCounts.Clear();
    }

    /**
     * `reg_vulnerability`: updates the entry of register `key` for an access
     * at instruction `cur` and returns the liveness window a read closes.
     */
    method RegVulnerability(key: string, cur: int, read: bool) returns (window: int)
      requires RegisterValid()
      modifies registerVul, registerVul.buckets
      ensures RegisterValid()
      ensures var step := RegStep(old(Fetch(registerVul.Contents, key, RegisterBuffer, registerVul.width)), cur, read);
              && window == step.1
              && registerVul.Contents == old(registerVul.Contents)[key := step.0]
    {
      var prev := registerVul.Get(Some(key), RegisterBuffer);
      var step := RegStep(prev, cur, read);
      var _ := registerVul.Put(Some(key), Some(step.0));
      window := step.1;
    }

    /**
     * One register operand of an instruction: the ledger call, one more live
     * register for a read, and the returned window added to the register
     * vulnerability.
     */
    method RegisterAccess(key: string, read: bool)
      requires RegisterValid()
      modifies this, registerVul, registerVul.buckets
      ensures RegisterValid()
      ensures var c := old(counters);
              var step := RegStep(old(Fetch(registerVul.Contents, key, RegisterBuffer, registerVul.width)), c.instrNum, read);
              && registerVul.Contents == old(registerVul.Contents)[key := step.0]
              && counters == c.(regLiveArea := c.regLiveArea + (if read then 1 else 0),
                                vul := c.vul.(reg := c.vul.reg + step.1 as real))
    {
      var window := RegVulnerability(key, counters.instrNum, read);
      var c := counters;
      counters := c.(regLiveArea := c.regLiveArea + (if read then 1 else 0), vul := c.vul.(reg := c.vul.reg + window as real));
    }

    /** One executed instruction: both instruction counters advance. */
    method Tick()
      requires Wired() && Valid()
      modifies this
      ensures Valid()
      ensures counters == old(counters).(instrNum := old(counters.instrNum) + 1, instrCount := old(counters.instrCount) + 1)
      ensures State() == Ticked(old(State()))
    {
      counters := counters.(instrNum := counters.instrNum + 1, instrCount := counters.instrCount + 1);
    }

    /** An arithmetic, logic or unary instruction adds one to the ALU vulnerability. */
    method CountAlu()
      modifies this
      ensures counters == old(counters).(vul := old(counters.vul).(alu := old(counters.vul.alu) + 1.0))
    {
      counters := counters.(vul := counters.vul.(alu := counters.vul.alu + 1.0));
    }

    /**
     * The hit part of a load from `key` whose store recorded `storeInst` for
     * this thread: the window since the later of the store and this thread's
     * last load of the address is added to the memory vulnerability (the
     * address's entry, the live count and the total) when it is not empty,
     * and the load is remembered. Returns where the window started.
     */
    method LoadWindow(key: string, storeInst: int) returns (start: int)
      requires Wired() && Valid()
      modifies this, memoryVul, memoryVul.buckets, memoryLoad, memoryLoad.buckets
      ensures Valid()
      ensures start == LoadWindowStart(old(State()), key, storeInst)
      ensures State() == Loaded(old(State()), key, storeInst)
    {
      var c := counters;
      start := MemoryWindow(key, storeInst, c.instrNum);
      counters := Windowed(c, c.instrNum - start);
      assert unchanged(registerVul, remoteAlu, remoteReg, remoteMem, remoteCounts);
      LoadedState(key, storeInst, start);
    }

    /** The maps and counters `LoadWindow` leaves make up the ledger `Loaded` describes. */
    twostate lemma LoadedState(new key: string, new storeInst: int, new start: int)
      requires TextWidths()
      requires start == WindowStart(storeInst, old(Fetch(memoryLoad.Contents, key, WrapperBuffer, memoryLoad.width)))
      requires memoryLoad.Contents == old(memoryLoad.Contents)[key := old(counters.instrNum)]
      requires counters == Windowed(old(counters), old(counters.instrNum) - start)
      requires var w := old(counters.instrNum) - start;
               var before := old(Fetch(memoryVul.Contents, key, WrapperBuffer, memoryVul.width)).GetOr(0.0);
               memoryVul.Contents == if w != 0 then old(memoryVul.Contents)[key := Round6(before + w as real)]
                                     else old(memoryVul.Contents)
      requires unchanged(registerVul, remoteAlu, remoteReg, remoteMem, remoteCounts)
      ensures start == LoadWindowStart(old(State()), key, storeInst)
      ensures State() == Loaded(old(State()), key, storeInst)
    {
    }

    /** The map part of `LoadWindow` for a load at instruction `cur`. */
    method MemoryWindow(key: string, storeInst: int, cur: int) returns (start: int)
      requires Wired() && Valid()
      modifies memoryVul, memoryVul.buckets, memoryLoad, memoryLoad.buckets
      ensures Valid()
      ensures start == WindowStart(storeInst, old(Fetch(memoryLoad.Contents, key, WrapperBuffer, memoryLoad.width)))
      ensures memoryLoad.Contents == old(memoryLoad.Contents)[key := cur]
      ensures var w := cur - start;
              var before := old(Fetch(memoryVul.Contents, key, WrapperBuffer, memoryVul.width)).GetOr(0.0);
              memoryVul.Contents == if w != 0 then old(memoryVul.Contents)[key := Round6(before + w as real)]
                                    else old(memoryVul.Contents)
    {
      start := LoadStart(key, storeInst);
      if cur - start != 0 {
        AddMemoryWindow(key, cur - start);
      }
      RecordLoad(key, cur);
    }

    /** The load of `key` at instruction `n` is remembered for this thread. */
    method RecordLoad(key: string, n: int)
      requires Wired() && Valid()
      modifies memoryLoad, memoryLoad.buckets
      ensures Valid()
      ensures memoryLoad.Contents == old(memoryLoad.Contents)[key := n]
    {
      PutInt(memoryLoad, key, n);
    }

    /** The later of the store and this thread's last load of `key`. */
    method LoadStart(key: string, storeInst: int) returns (start: int)
      requires MemoryValid()
      ensures start == WindowStart(storeInst, Fetch(memoryLoad.Contents, key, WrapperBuffer, memoryLoad.width))
    {
      var lastLoad, found := GetFrom(memoryLoad, key, 0);
      start := if found && lastLoad > storeInst then lastLoad else storeInst;
    }

    /** A non-empty window `w` is added to the entry of `key`, the live count and the memory vulnerability. */
    method AddMemoryWindow(key: string, w: int)
      requires Wired() && Valid()
      modifies memoryVul, memoryVul.buckets
      ensures Valid()
      ensures var before := old(Fetch(memoryVul.Contents, key, WrapperBuffer, memoryVul.width)).GetOr(0.0);
              memoryVul.Contents == old(memoryVul.Contents)[key := Round6(before + w as real)]
    {
      var before, _ := GetFrom(memoryVul, key, 0.0);
      PutReal(memoryVul, key, before + w as real);
    }

    /** The per-source values of store thread `key` after a remote read of `v`, given what the four maps answer. */
    ghost function NextRemote(key: string, v: Triple): RemoteEntry
      reads remoteAlu, remoteReg, remoteMem, remoteCounts
    {
      RemoteStep(Fetch(remoteAlu.Contents, key, WrapperBuffer, remoteAlu.width),
                 Fetch(remoteReg.Contents, key, WrapperBuffer, remoteReg.width),
                 Fetch(remoteMem.Contents, key, WrapperBuffer, remoteMem.width),
                 Fetch(remoteCounts.Contents, key, WrapperBuffer, remoteCounts.width), v)
    }

    /** `remote_vulnerability`: adds a remote read of `v` from store thread `source` to the per-source sums. */
    method RemoteVulnerability(source: int, v: Triple)
      requires Wired() && Valid()
      modifies remoteAlu, remoteAlu.buckets, remoteReg, remoteReg.buckets, remoteMem, remoteMem.buckets
      modifies remoteCounts, remoteCounts.buckets
      ensures Valid()
      ensures var key := IntToString(source);
              var e := old(NextRemote(key, v));
              && remoteAlu.Contents == old(remoteAlu.Contents)[key := Round6(e.alu)]
              && remoteReg.Contents == old(remoteReg.Contents)[key := Round6(e.reg)]
              && remoteMem.Contents == old(remoteMem.Contents)[key := Round6(e.mem)]
              && remoteCounts.Contents == old(remoteCounts.Contents)[key := e.count]
    {
      var key := IntToString(source);
      var e := ReadRemoteEntry(key, v);
      WriteRemoteEntry(key, e);
    }

    /**
     * A load of a value thread `source` stored with total factors `tvf`: the
     * remote sums and count grow, then `remote_vulnerability` adds the read to
     * the per-source sums.
     */
    method RemoteLoad(source: int, tvf: Triple)
      requires Wired() && Valid()
      modifies this, remoteAlu, remoteAlu.buckets, remoteReg, remoteReg.buckets, remoteMem, remoteMem.buckets
      modifies remoteCounts, remoteCounts.buckets
      ensures Valid()
      ensures State() == RemoteLoaded(old(State()), source, tvf)
    {
      CountRemote(tvf);
      RemoteVulnerability(source, tvf);
      RemoteLoadedState(source, tvf);
    }

    /** The maps and counters `RemoteLoad` leaves make up the ledger `RemoteLoaded` describes. */
    twostate lemma RemoteLoadedState(new source: int, new tvf: Triple)
      requires TextWidths()
      requires counters == old(counters).(rem := old(counters.rem).Plus(tvf), remoteCount := old(counters.remoteCount) + 1)
      requires unchanged(registerVul, memoryVul, memoryLoad)
      requires var key := IntToString(source);
               var e := old(NextRemote(key, tvf));
               && remoteAlu.Contents == old(remoteAlu.Contents)[key := Round6(e.alu)]
               && remoteReg.Contents == old(remoteReg.Contents)[key := Round6(e.reg)]
               && remoteMem.Contents == old(remoteMem.Contents)[key := Round6(e.mem)]
               && remoteCounts.Contents == old(remoteCounts.Contents)[key := e.count]
      ensures State() == RemoteLoaded(old(State()), source, tvf)
    {
    }

    /** The writing half of `remote_vulnerability`, in the order of its puts: register, ALU, memory, count. */
    method WriteRemoteEntry(key: string, e: RemoteEntry)
      requires Separate() && RemoteValid()
      modifies remoteAlu, remoteAlu.buckets, remoteReg, remoteReg.buckets, remoteMem, remoteMem.buckets
      modifies remoteCounts, remoteCounts.buckets
      ensures RemoteValid()
      ensures && remoteAlu.Contents == old(remoteAlu.Contents)[key := Round6(e.alu)]
              && remoteReg.Contents == old(remoteReg.Contents)[key := Round6(e.reg)]
              && remoteMem.Contents == old(remoteMem.Contents)[key := Round6(e.mem)]
              && remoteCounts.Contents == old(remoteCounts.Contents)[key := e.count]
    {
      PutReal(remoteReg, key, e.reg);
      PutReal(remoteAlu, key, e.alu);
      PutReal(remoteMem, key, e.mem);
      PutInt(remoteCounts, key, e.count);
    }

    /** The reading half of `remote_vulnerability`: the four values it will write back. */
    method ReadRemoteEntry(key: string, v: Triple) returns (e: RemoteEntry)
      requires RemoteValid()
      ensures e == NextRemote(key, v)
    {
      var alu, foundAlu := GetFrom(remoteAlu, key, v.alu);
      if !foundAlu {
        return RemoteEntry(v.alu, v.reg, v.mem, 1);
      }
      var reg, foundReg := GetFrom(remoteReg, key, v.reg);
      var mem, foundMem := GetFrom(remoteMem, key, v.mem);
      var count, foundCount := GetFrom(remoteCounts, key, 1);
      e := RemoteEntry(alu + v.alu, reg + v.reg, mem + v.mem, count + 1);
    }

    /**
     * A load of a value another thread stored, after its per-source sums
     * grew: the store's total factors are added to the remote sums and one
     * more remote read is counted.
     */
    method CountRemote(tvf: Triple)
      requires Wired() && Valid()
      modifies this
      ensures Valid()
      ensures counters == old(counters).(rem := old(counters.rem).Plus(tvf), remoteCount := old(counters.remoteCount) + 1)
    {
      counters := counters.(rem := counters.rem.Plus(tvf), remoteCount := counters.remoteCount + 1);
    }

    /**
     * The ledger part of one traced instruction with classified operands `w`
     * (written) and `r` (read): one more unit of ALU exposure for the
     * arithmetic and unary families, then the register calls of
     * `Accesses(w, r)` at the current instruction number, each read counted
     * as live and every returned window added to the register vulnerability.
     */
    method Execute(family: Family, w: Classified, r: Classified)
      requires Wired() && Valid()
      modifies this, registerVul, registerVul.buckets
      ensures Valid()
      ensures State() == Executed(old(State()), family, Accesses(w, r))
    {
      if CountsAlu(family) {
        CountAlu();
      }
      ghost var counted := counters;
      Registers(w, r);
      ExecutedState(family, Accesses(w, r), counted);
    }

    /** The register map and counters `Execute` leaves make up the ledger `Executed` describes. */
    twostate lemma ExecutedState(new family: Family, new accesses: seq<Access>, new counted: Counters)
      requires TextWidths()
      requires counted == old(counters).(vul := old(counters.vul).(alu := old(counters.vul.alu) + (if CountsAlu(family) then 1.0 else 0.0)))
      requires Accounted(old(registerVul.Contents), counted, accesses)
      requires unchanged(memoryVul, memoryLoad, remoteAlu, remoteReg, remoteMem, remoteCounts)
      ensures State() == Executed(old(State()), family, accesses)
    {
    }

    /** The register calls of `Execute`: the read of `r`, then the write (or addressing read) of `w`. */
    method Registers(w: Classified, r: Classified)
      requires RegisterValid()
      modifies this, registerVul, registerVul.buckets
      ensures RegisterValid()
      ensures Accounted(old(registerVul.Contents), old(counters), Accesses(w, r))
    {
      ghost var c0, k0 := registerVul.Contents, counters;
      ghost var done: seq<Access> := [];
      if r.code == Tracked {
        Call(c0, k0, done, Access(r.name, true));
        done := [Access(r.name, true)];
      }
      if w.code == Tracked {
        Call(c0, k0, done, Access(w.name, false));
      } else if w.code == TrackedAddressWrite {
        Call(c0, k0, done, Access(w.name, true));
      }
    }

    /** One register call `a` after the calls `done`, accounted from the state `c0`, `k0`. */
    method Call(ghost c0: map<string, RegEntry>, ghost k0: Counters, ghost done: seq<Access>, a: Access)
      requires RegisterValid() && Accounted(c0, k0, done)
      modifies this, registerVul, registerVul.buckets
      ensures RegisterValid() && Accounted(c0, k0, done + [a])
    {
      RegisterAccess(a.key, a.read);
      RegisteredSnoc(c0, registerVul.width, k0.instrNum, done, a);
    }

    /** The register map and counters hold the effect of the calls `done` on the state `c0`, `l0`, `v0`. */
    ghost predicate Accounted(c0: map<string, RegEntry>, k0: Counters, done: seq<Access>)
      reads this, registerVul
    {
      var (after, windows, readCount) := Registered(c0, registerVul.width, k0.instrNum, done);
      && registerVul.Contents == after
      && counters == k0.(regLiveArea := k0.regLiveArea + readCount, vul := k0.vul.(reg := k0.vul.reg + windows as real))
    }

    /**
     * The storing thread of a value read remotely: each non-zero self value is
     * kept as the last one before the read, and the self values restart from
     * the local values the store recorded.
     */
    method RemotelyRead(localInterval: Triple)
      requires Wired() && Valid()
      modifies this
      ensures Valid()
      ensures counters == ReadBack(old(counters), localInterval)
      ensures State() == old(State()).(counters := ReadBack(old(counters), localInterval))
    {
      var c := counters;
      if c.self.alu != 0.0 {
        c := c.(lastRemote := c.lastRemote.(alu := c.self.alu));
      }
      if c.self.mem != 0.0 {
        c := c.(lastRemote := c.lastRemote.(mem := c.self.mem));
      }
      if c.self.reg != 0.0 {
        c := c.(lastRemote := c.lastRemote.(reg := c.self.reg));
      }
      counters := c.(self := localInterval);
    }

    /** The self-vulnerability update `print_cpu` makes before reporting. */
    method SettleSelf()
      requires Wired() && Valid()
      modifies this
      ensures Valid()
      ensures counters == Settled(old(counters))
      ensures State() == old(State()).(counters := Settled(old(counters)))
    {
      var c := counters;
      var alu := c.vul.alu - c.self.alu;
      if alu == 0.0 {
        alu := c.vul.alu - c.lastRemote.alu;
      }
      var reg := c.vul.reg - c.self.reg;
      if reg == 0.0 {
        reg := c.vul.reg - c.lastRemote.reg;
      }
      var mem := c.vul.mem - c.self.mem;
      if mem == 0.0 {
        mem := c.vul.mem - c.lastRemote.mem;
      }
      counters := c.(self := Triple(alu, reg, mem));
    }
  }
}
