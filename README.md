# Critical-thread vulnerability tracer, modelled in Dafny

`critical.c` is a Simics tracer. It estimates how exposed each simulated
thread is to soft errors. For every executed instruction and every data
access the simulator reports, it keeps a per-thread ledger (`thread_t`):

- registers: the instruction of each register's last access and the
  liveness windows read since then;
- memory: the liveness windows between a store and the loads that read it;
- ALU: a count of arithmetic and logic instructions;
- remote sums: what a thread inherits when it loads a value that another
  thread stored.

Each store records a `Store_info` snapshot: the storing thread, its local
(LVF), remote (RVF) and total (TVF) vulnerability factors, and every
thread's instruction number. Stores are kept, as text, in a
string-keyed hash map (`StrMap`) under the address. A later load reads the
snapshot back to close memory windows and to attribute remote
vulnerability. With fan tracking on, each remote read also updates a
thread-to-thread fan-in/fan-out matrix. The reports pick the most
critical thread from that matrix.

The model follows the build as configured:

- `THREAD_LEVEL` is off, so thread = core number.
- `REGION` is on: the redundant-region shadow ledger `rr_thread`.
- `FAN` and `REDUNDANCY` are flags given to the tracer when it is built,
  so both paths of each are modelled.

Modules, one per part of the engine:

- `Basics`: the C library pieces the engine relies on: `sprintf("%d")`,
  `"%llx"`, `atoi`/`atoll` and `strtok_r`.
- `Formats`: `sprintf("%f")` and `atof`, in exact rationals.
- `StrMaps`: `StrMap`, a class over an array of buckets. A ghost map
  `Contents` is its abstract value, and the running `total_value` is
  proved equal to the sum of the stored values.
- `Operands`: `get_operand`, a method over the C character buffer that
  it compacts in place, proved against the classifier function
  `Classify`. Also the mnemonic families and the read/write routing of
  `text_trace_instruction`.
- `Factors`: `calculate_lvf/rvf/tvf` and the store-time factors.
- `Ledger`: the class `Thread`, with one `StrMap` per ledger map, and its
  updates: `reg_vulnerability`, `remote_vulnerability`, the hit and
  remote parts of a load, the instruction counters and the self values.
  Each update is proved against a function on the ledger's abstract
  `LedgerState`.
- `StoreCodec`: `storeToString`/`stringToStore`, with the round trip.
- `Fan`: `handle_fan_info` on a class holding the 8×8 matrix, and the
  first-maximum choice of `print_fan_info`.
- `Engine`: the whole engine as a function of its state, one call of
  `text_trace_instruction` or `text_trace_data` at a time, plus the
  invariant a whole trace keeps.
- `Tracing`: the class `Tracer` (`base_trace_t`), whose methods are
  proved to do what `Engine` says. It holds the nine ledgers (`threads`
  and the shadow `rr_thread`) as `LedgerState` values and `memory_store`
  as a map of typed records. The in-place `Ledger.Thread` and
  `StrMaps.StrMap` classes are proved against the same functions on those
  values, which is what links the two.
- `Threads`: `get_current_thread` of the `THREAD_LEVEL` build, as written
  and corrected.

Vulnerability values are `real`. Instruction numbers and counters are
unbounded `int`.

Two points of `storeToString` read differently from what the code
around them suggests. The model follows the code:

- Weights: `critical.c:783-788` sets the local weight to 1 when the
  remote count is 0. But `critical.c:773-775` has already raised that
  count to at least 1, so the branch never runs, and the weights stay
  0.5/0.5 (`Factors.TvfIsMidpoint`).
- Division by zero: the guard at `critical.c:781` tests the thread's own
  `instr_num`, while in a redundant region `critical.c:797-799` divide by
  the shadow's `instr_num`, which can be 0 (see Findings).

## Model

| member | source | states |
|---|---|---|
| Basics.AtoiIntToString | critical.c:516-521 | `atoi` of the `"%d"` text of any integer gives that integer back, so int-map keys and int values read back exactly |
| Basics.StrTok | critical.c:400-437 | `strtok_r` returns a non-empty token free of delimiters, or nothing once only delimiters remain, and the rest it leaves is strictly shorter |
| Formats.AtofFormatFixed | critical.c:523-553 | `atof` of the `"%f"` text of a value is that value rounded to six decimals |
| Formats.Round6Error | critical.c:523-553 | the six-decimal rounding of `"%f"` is within half a millionth of the value |
| Formats.FormatFixedAlphabet | critical.c:374-398 | the `"%f"` text is non-empty and never contains the `+` field separator |
| StrMaps.SignedChar | critical.c:4645-4648 | `int c = *str` reads a character's low byte as a signed `char`: between −128 and 127 and equal to the byte modulo 256 |
| StrMaps.Hash | critical.c:4642-4651 | djb2 adding each signed character, with `unsigned long` wrap-around, stays below 2^64 |
| StrMaps.HashIsExactModulo | critical.c:4642-4651 | the `unsigned long` hash equals the exact djb2 sum (5381, times 33 plus each signed character) taken modulo 2^64, so wrapping at each step loses nothing |
| StrMaps.FindPair | critical.c:4608-4637 | `get_pair` returns the first pair of the bucket holding the key, or the bucket's end when no pair does |
| StrMaps.SumReplace | critical.c:4346-4449 | replacing a key's value moves the sum of the values by new − old |
| StrMaps.SumInsert | critical.c:4346-4449 | inserting a fresh key adds its value to the sum of the values |
| StrMaps.StrMap.constructor | critical.c:4238-4256 | `strmap_new(capacity)` makes an empty map with `capacity` buckets |
| StrMaps.StrMap.Count | critical.c:4483-4486 | `strmap_get_count` is the number of keys stored |
| StrMaps.StrMap.Total | critical.c:4654-4657 | `sum_strmap`, the running `total_value`, equals the sum of the stored values |
| StrMaps.StrMap.Clear | critical.c:4238-4256 | a map made anew is empty, with count 0 and total 0 |
| StrMaps.StrMap.Get | critical.c:4289-4323 | `strmap_get` yields nothing for a null or absent key, or when the value's text does not fit the buffer; otherwise the stored value |
| StrMaps.StrMap.Put | critical.c:4346-4449 | `strmap_put` with a null key or value stores nothing and returns 0. On an existing key it replaces the value, keeps `size` and moves `total_value` by new − old. On a fresh key it adds the pair, `size` grows by 1 and `total_value` by the value |
| Ledger.GetFrom | critical.c:479-514 | `get_from_char_map` reports whether the key was found (and fits). It yields the stored value when found and leaves the caller's default in place when not |
| Ledger.PutReal | critical.c:523-560 | `put_to_char_map` of a `double` stores the value rounded to six decimals under the key, and changes no other key |
| Ledger.PutInt | critical.c:523-560 | `put_to_char_map` of an integer stores it exactly under the key, and changes no other key |
| Ledger.RegStepCases | critical.c:904-934 | every call records the current instruction. A read of a known register returns current − last and stores old + window. A write returns 0 and keeps old. A new register returns 0 and stores 0 |
| Ledger.ReplayAccounts | critical.c:904-934 | over ascending accesses to one register, its stored value equals the sum of the returned windows, which lies between 0 and last − first |
| Ledger.ReplayFrom | critical.c:904-934 | the same accounting continued from an existing entry |
| Ledger.RegisteredWindows | critical.c:1170-1219 | the register calls of one instruction return no negative window, leave no entry later than the instruction, and count exactly the reads as live |
| Ledger.RegisteredKeys | critical.c:1170-1219 | every register an instruction touches records that instruction, and every other register entry is kept |
| Ledger.NoCallsNoChange | critical.c:1170-1219 | with both operands rejected, no register call is made and nothing is added |
| Ledger.RemoteStep | critical.c:874-902 | a source with no ALU entry starts its sums at the read values with count 1. One with an ALU entry adds the read values to the stored ones and 1 to the count; a missing register or memory entry leaves the default, the read value, so that sum is twice the read value, and a missing count gives 2 |
| Ledger.WindowStart | critical.c:679-684 | a memory window starts at the later of the store's instruction and this thread's last load of the address |
| Ledger.Windowed | critical.c:686-694 | a non-zero window adds 1 to `mem_live_area` and the window to `mem_vul`. A zero window changes nothing |
| Ledger.ReadBack | critical.c:745-754 | the storing thread's self values become the store's local intervals. A last-remote value is overwritten only by a non-zero previous self value. Nothing else changes |
| Ledger.Settled | critical.c:1968-1978 | only the self values change. A zero result means the accumulator equalled the old self value or the last remote value |
| Ledger.Thread.constructor | critical.c:3648-3672 | `initialize_thread_data` gives the ledger of thread `id`, with zero counters and empty maps |
| Ledger.Thread.Reset | critical.c:633-643 | re-initialising the shadow ledger for a new thread gives the fresh ledger of that thread |
| Ledger.Thread.RegVulnerability | critical.c:904-934 | the returned window and the register's new entry are those of `RegStepCases`, and no other register changes |
| Ledger.Thread.RegisterAccess | critical.c:1174-1219 | one operand: the ledger call, `reg_live_area` + 1 for a read, and the window added to `reg_vul` |
| Ledger.Thread.Tick | critical.c:1003-1018 | an executed instruction adds 1 to `instr_count` and to `instr_num` |
| Ledger.Thread.CountAlu | critical.c:1104-1110 | an arithmetic, logic or unary instruction adds exactly 1 to `alu_vul` |
| Ledger.Thread.LoadWindow | critical.c:671-697 | a hit: the window from `WindowStart` to the current instruction is added when non-zero, and `memory_load[addr]` is always set to the current instruction |
| Ledger.Thread.LoadStart | critical.c:679-684 | the window start read from `memory_load` |
| Ledger.Thread.AddMemoryWindow | critical.c:686-694 | a non-zero window adds to the address's `memory_vul` entry (from 0 when absent) and to the counters |
| Ledger.Thread.RecordLoad | critical.c:696 | `memory_load[addr]` becomes the given instruction |
| Ledger.Thread.MemoryWindow | critical.c:671-697 | window and load record together for one ledger |
| Ledger.Thread.RemoteVulnerability | critical.c:874-902 | the four per-source maps hold the `RemoteStep` of their previous entries under the source's `"%d"` key |
| Ledger.Thread.ReadRemoteEntry | critical.c:884-895 | reads the previous per-source entries and combines them as `RemoteStep` says |
| Ledger.Thread.WriteRemoteEntry | critical.c:897-901 | writes the four per-source entries, sums rounded to six decimals |
| Ledger.Thread.CountRemote | critical.c:730-736 | the `rem_*` sums grow by the store's TVFs, and `remote_count` grows by 1 |
| Ledger.Thread.RemoteLoad | critical.c:725-740 | a remote read updates the counters and the per-source maps as the ledger function `RemoteLoaded` says |
| Ledger.Thread.Execute | critical.c:1063-1219 | an instruction's family and operands update the ledger as `Executed` says: the ALU count, then read, write and bracketed-write-as-read, in that order |
| Ledger.Thread.Registers | critical.c:1170-1219 | the register calls for the routed operands, in order |
| Ledger.Thread.Call | critical.c:1170-1219 | one more register call extends the accounted prefix |
| Ledger.Thread.RemotelyRead | critical.c:745-754 | the storing thread's counters become `ReadBack` of the old ones |
| Ledger.Thread.SettleSelf | critical.c:1968-1978 | the self values become `Settled` of the old counters |
| Factors.CalculateLvf | critical.c:580-583 | LVF × (instructions × resources) is the accumulated value |
| Factors.CalculateRvf | critical.c:585-588 | RVF × remote count is the remote sum |
| Factors.CalculateTvf | critical.c:590-593 | with non-negative weights summing to 1, the TVF lies between the LVF and the RVF |
| Factors.TvfBetween | critical.c:590-593 | a convex combination lies between its two terms |
| Factors.AtLeastOne | critical.c:792-797 | a zero count becomes 1, and any other count is kept |
| Factors.LocalFactors | critical.c:790-811 | the local factors divide the ALU, register and memory sums by instructions × distinct resources (at least 1) |
| Factors.StoreFactorsOf | critical.c:768-839 | with no instructions executed all factors are 0. Wherever the code as written is defined, the corrected factors agree with it |
| Factors.ShadowDivisionByZero | critical.c:790-800 | a shadow that has executed nothing leaves the as-written factors undefined, and the corrected ones 0 |
| Factors.TvfIsMidpoint | critical.c:768-839 | each TVF is the midpoint of the LVF and sum / max(remote count, 1) |
| Factors.FactorsNonNegative | critical.c:768-839 | non-negative sums and counts give non-negative factors |
| Factors.SettledSelf | critical.c:1968-1978 | accumulator − self, or, when that is 0, accumulator − last remote |
| Factors.LastRemoteAfter | critical.c:745-751 | a last-remote value is overwritten only by a non-zero self value |
| Operands.Classify | critical.c:1227-1291 | 1 for a leading digit. A code other than 1 names 2–4 characters with no space: the bracket contents when there is a `[`, the operand without spaces otherwise. 2 only for a bracketed operand with `write == 1`. A tracked name never starts with `0` |
| Operands.BracketScanSkip | critical.c:1240-1255 | the loop keeps nothing before the first `[` |
| Operands.BracketScanInside | critical.c:1243-1252 | after the `[`, characters up to a digit, `*` or `]` are kept with spaces dropped |
| Operands.ClassifyBracketed | critical.c:1237-1291 | for `pre[mid` ended by `*`, `]` or the end: the name is `mid` without spaces; code 2 exactly when writing with 2–4 characters; code 0 exactly when reading with 2–4 characters not starting with `0` |
| Operands.ClassifyDigitInBracket | critical.c:1245-1246 | a digit after the `[` and before any `*` or `]` gives 1 |
| Operands.ClassifyPlain | critical.c:1263-1291 | with no `[` and no leading digit: the name is the operand without spaces, never code 2, and code 0 exactly when it has 2–4 characters not starting with `0` |
| Operands.GetOperand | critical.c:1227-1291 | 1 for a null buffer. Otherwise the code `Classify` gives, and for an accepted operand the buffer left holding the normalised name |
| Operands.ScanBracket | critical.c:1237-1257 | the bracket loop: it stops with 1 at a digit after `[`. Otherwise it compacts the bracket contents up to `*`/`]` with spaces dropped, and leaves the buffer as it was when there is no `[` |
| Operands.StripSpaces | critical.c:1263-1276 | without a bracket, the buffer is left holding the operand with every space removed |
| Operands.StrLen | critical.c:1239 | `strlen` is the index of the first NUL |
| Operands.ExtractOperand | critical.c:1083-1102 | the next `,` token, copied when shorter than 100 characters, is classified as `get_operand` does; a missing token is rejected |
| Operands.DecodeOperands | critical.c:1063-1168 | the mnemonic family and the two classified operands of a disassembled instruction |
| Operands.Accesses | critical.c:1170-1219 | at most two register calls: the tracked read first, then a tracked write, or a bracketed write as a read |
| Operands.MoveFamily | critical.c:1112-1113 | an instruction is in the move family exactly when its mnemonic starts with `mov` |
| Operands.UntracedNoAccesses | critical.c:1163-1168 | any other mnemonic returns before any register call |
| Operands.UnaryReadsThenWrites | critical.c:1137-1162 | `inc`/`neg` on a tracked register reads it and then writes it |
| Operands.SpacedImmediateAccepted | critical.c:1227-1291 | `" 12"` passes the leading-digit test and is accepted as the register name `12` |
| Fan.HandledCell | critical.c:440-477 | only cell `[out][in]` gets the store's LVFs and +1 in its direct part. Indirect parts are only ever raised. One changes only in column `in`, after the edge count passes 100, when the snapshot row `j→out` is over 100, and then to 0.8 × (direct + indirect) |
| Fan.Handled | critical.c:440-477 | every cell of the matrix is handled as `HandledCell` says |
| Fan.FanInfo.constructor | critical.c:3581-3593 | every cell starts at zero |
| Fan.FanInfo.HandleFanInfo | critical.c:440-477 | the live matrix becomes `Handled` of the old one, with the gate read from the store's snapshot |
| Fan.FirstMaxUnique | critical.c:1750-1766 | that argmax is unique: ties go to the lowest index, and all-zero sums give 0 |
| Fan.MostCritical | critical.c:1750-1766 | the loop returns that argmax |
| Fan.FanInfo.CriticalThreads | critical.c:1724-1899 | for a resource class, the most critical thread by its total, direct and indirect sums, as each section of `print_fan_info` reports it |
| StoreCodec.Decode | critical.c:400-437 | a text with enough `+` fields decodes to a well-formed record, and one with fewer has no record |
| StoreCodec.TokensJoin | critical.c:374-437 | splitting the `+`-joined fields on `+` gives the fields back |
| StoreCodec.FieldsLayout | critical.c:374-398 | field 0 is the thread, 1–9 the factors, 10–17 the instruction numbers, then the fan matrix |
| StoreCodec.DecodeEncode | critical.c:374-437 | decoding an encoded record gives the record with every real rounded to six decimals |
| StoreCodec.IntegerFieldsRoundTrip | critical.c:374-437 | the thread number and all instruction numbers survive the text round trip exactly |
| Engine.StoreRecord | critical.c:768-867 | the record holds the storing thread, every thread's instruction number, its local intervals and the corrected factors; the fan snapshot is there only with fan tracking |
| Engine.Start | critical.c:3566-3604 | eight thread ledgers and a shadow ledger, and a zero 8×8 fan matrix |
| Engine.Followed | critical.c:633-643 | only the shadow ledger changes, and when in use it belongs to the current thread |
| Engine.Counted | critical.c:1003-1023 | only the current thread's counters advance, and `exec_count` grows by 1 |
| Engine.Reported | critical.c:1025-1031 | a partial report settles the self values and nothing else of the ledgers |
| Engine.Routed | critical.c:1063-1219 | the routed instruction reaches the current thread's ledger (and the shadow in use) only |
| Engine.Instruction | critical.c:964-1219 | an inactive core changes nothing. Otherwise the thread's `instr_num` and `exec_count` grow by 1, and no other thread's instruction number moves |
| Engine.Hit | critical.c:671-722 | a miss changes nothing. A hit records the load in the thread's `memory_load` and touches no other thread |
| Engine.Remote | critical.c:725-757 | a value the thread stored itself changes nothing. Another thread's value adds the TVFs to the reader's remote sums and count, and restarts the storer's self values. Nothing else changes |
| Engine.Load | critical.c:658-767 | an address with no store changes nothing, the store map is kept, and no instruction number moves |
| Engine.Store | critical.c:768-871 | the record of this store replaces the address's entry, and no other state changes |
| Engine.Data | critical.c:596-871 | an inactive core changes nothing. Otherwise `data_count` grows by 1, only a store changes the store map, and no instruction number moves |
| Engine.StartOrdered | critical.c:3566-3604 | the initial engine is ordered |
| Engine.CountedOrdered | critical.c:1003-1023 | counting an instruction keeps the order and only grows counters |
| Engine.ReportedOrdered | critical.c:1025-1031 | a partial report keeps the order |
| Engine.RoutedOrdered | critical.c:1063-1219 | register calls keep every entry at or before the current instruction |
| Engine.InstructionOrdered | critical.c:964-1219 | an instruction callback keeps the order |
| Engine.HitOrdered | critical.c:671-722 | a hit keeps every recorded load at or before the current instruction |
| Engine.RemoteOrdered | critical.c:725-757 | a remote read keeps the order |
| Engine.StoreOrdered | critical.c:768-871 | no record holds an instruction number beyond its thread's current one |
| Engine.FollowedOrdered | critical.c:633-643 | re-initialising the shadow keeps the order |
| Engine.LoadOrdered | critical.c:658-767 | a load keeps the order |
| Engine.DataOrdered | critical.c:596-871 | a data callback keeps the order |
| Engine.RunOrdered | critical.c:596-1219 | any sequence of callbacks keeps the order, and no thread's counters or vulnerabilities ever go down |
| Engine.TraceNonNegative | critical.c:596-1219 | from a freshly built tracer, no thread ever has a negative instruction number or ALU, register or memory vulnerability |
| Tracing.Tracer.constructor | critical.c:3566-3604 | the tracer starts with no core active, no redundant region, and the engine's initial state |
| Tracing.Tracer.FollowShadow | critical.c:633-643 | the shadow is in use exactly for the redundant thread in a redundant region, and it is reset when it belonged to another thread |
| Tracing.Tracer.PrintTempResults | critical.c:1920-1934 | every thread's self values are settled |
| Tracing.Tracer.CountInstruction | critical.c:1003-1023 | as `Engine.Counted` |
| Tracing.Tracer.ReportPartial | critical.c:1025-1031 | as `Engine.Reported` |
| Tracing.Tracer.RouteInstruction | critical.c:1063-1219 | as `Engine.Routed` |
| Tracing.Tracer.TraceInstruction | critical.c:964-1219 | as `Engine.Instruction` |
| Tracing.Tracer.LoadHit | critical.c:671-722 | as `Engine.Hit` |
| Tracing.Tracer.LoadRemote | critical.c:725-757 | as `Engine.Remote` |
| Tracing.Tracer.TraceLoad | critical.c:658-767 | as `Engine.Load` |
| Tracing.Tracer.TraceStore | critical.c:768-871 | as `Engine.Store` |
| Tracing.Tracer.TraceData | critical.c:596-871 | as `Engine.Data` |
| Threads.SlotAsWritten | critical.c:562-578 | a known process gets its slot back. A new one gets slot = number of known processes, with no bound |
| Threads.ArrivedInOrder | critical.c:562-578 | distinct new processes each add exactly one entry and keep the earlier ones |
| Threads.NinthProcessOverflows | critical.c:562-578 | after eight distinct processes, a ninth gets slot 8, past the end of `threads` |
| Threads.SlotFits | critical.c:562-578 | a slot's `"%d"` text fits the wrapper's 50-byte buffer |
| Threads.CurrentThread | critical.c:562-578 | corrected: a known process gets its slot; a new one takes the next slot while one is left, and that thread takes the process id; with all slots taken there is no thread |
| Threads.CurrentThreadAgrees | critical.c:562-578 | where a slot is left, the corrected lookup agrees with the code as written |

## Left out

- Simics plumbing is not modelled: hooks, hook installation, `cache_cpu_info`, attribute getters and setters, the fault-injection hap. The tracer's configuration is a value; cores are switched on by the caller.
- The disassembler call is left out: an instruction arrives as its already disassembled text, or `None` when there is no text.
- All file, gzip and console output is left out: `text_tracer`, `raw_tracer`, the `fprintf` text of `print_results`, `print_temp_results`, `print_cpu`, `print_fan_info` and `print_strmap`. Only the self-value update of `print_cpu` and the argmax of `print_fan_info` are kept.
- `print_results` (the final report) is not modelled beyond those two pieces, because it only writes a file.
- `data_range_filter`, `create_interval` and `is_gz_filename` are not part of this model. They are peripheral filters outside the engine.
- The `FAULT_INJECTION` path and all commented-out code are not modelled.
- `double` arithmetic is left out: reals are exact. The `"%f"` text of the map wrappers and of the store record is modelled as rounding to six decimals, which is where the model is exact about precision.
- StrMaps.Hash: bucket choice is modelled (djb2 modulo 2^64, then modulo the bucket count) but only affects placement, not the map's contents. A character is taken as a byte, its code modulo 256, as a signed `char` of the x86 ABI.
- StrMaps.StrMap.Put: the C code copies the key and value strings; allocation failure (`malloc` returning NULL, return 0) is not modelled.
- Engine.Store: the store map holds the typed record rather than its text. The text round trip is proved separately (`StoreCodec.DecodeEncode`), and `Engine.Load` applies the rounding the round trip gives.
- Engine.Load: a record longer than the 50000-byte buffer is treated as absent, as `strmap_get` does; the record's fan part is not bounded otherwise.
- The shadow pointer `temp2` is uninitialised outside a redundant region in C, which is undefined behaviour. The model reads it as "no shadow" there.
- Aliasing is not modelled: the tracer holds `threads[cpu]` and `rr_thread` as separate `LedgerState` values, so one ledger's update cannot reach another. In the code they are distinct structs too. `remote_vulnerability` (`critical.c:874-902`) updates the reading thread's per-source sums under the store thread's key. The store thread's own ledger is touched only by the self-value update at `critical.c:745-757`, through `rt = &threads[store_thread]`, which is a different struct because that branch runs only when `store_thread != thread_no`.
- Operands.Decoded: an empty or all-blank disassembly makes `strtok_r` at `critical.c:1065` return NULL, which the `strncmp` chain at `critical.c:1068-1082` then dereferences, which is undefined behaviour. The model treats such text as an untraced instruction.
- Engine.StoreRecord: without fan tracking the `lvf` fields of the record are never set, because `critical.c:852-856` lie inside `#ifdef FAN`, so the text carries indeterminate values there. The model stores zeros.
- StoreCodec: `storeToString` writes into the 50000-byte `info` buffer with no bound check (`critical.c:862-864`). The model's record text is unbounded.
- Tracing.Tracer: every operation requires `0 <= cpu < 8`, because `threads[cpu_no]` is indexed without a check.
- `thread_index` and `core_map` of `get_current_thread` are not modelled, because nothing in the engine reads them.
- Threads: the `THREAD_LEVEL` lookup is modelled on its own and is not wired into the tracer, because that build option is off.
- Counters are unbounded: the 64-bit `long long` instruction numbers and `int` counts do not wrap in the model.

## Findings

| source | as written | input that shows it | evidently intended | confidence | as-written member | corrected member |
|---|---|---|---|---|---|---|
| critical.c:790-800 | in a redundant region the local factors divide by the shadow's `instr_num`, and the shadow is re-initialised to 0 instructions (`critical.c:635-642`) when the store is the redundant thread's first access since the shadow last followed a different thread (initially none) | redundant region on thread 0, thread 0 has executed instructions, then a store by thread 0 arrives before any instruction after the shadow reset | no local factor from a shadow that has executed nothing, as the thread's own guard `instr_num != 0` gives | not executed | Factors.ShadowDivisionByZero | Factors.StoreFactorsOf |
| critical.c:562-578 | a new process takes slot `strmap_get_count(thread_no_map)` with no check against `MAX_THREADS` | eight distinct process ids, then a ninth: slot 8, past the end of `threads[8]` | a new process is only given a slot while one is free | not executed | Threads.NinthProcessOverflows | Threads.CurrentThread |
