/**
 * The store record (`Store_info`) and its text form. Every store writes a
 * record into the tracer's `memory_store` map as '+'-separated text
 * (`storeToString`), and every load that finds one reads it back field by
 * field with `strtok_r` and `atoi` / `atof` / `atoll` (`stringToStore`).
 * With fan tracking on, the record also carries a snapshot of the 8 x 8 fan
 * matrix, eight values per cell.
 */
module StoreCodec {
  import opened Basics
  import opened Formats
  import opened Fan

  datatype StoreInfo = StoreInfo(
    threadNo: int,
    /** total vulnerability factors of the storing thread */
    tvf: Triple,
    /** local vulnerability factors (written only with fan tracking on) */
    lvf: Triple,
    /** the storing thread's accumulated alu/reg/mem values at the store */
    localInterval: Triple,
    /** every thread's instruction number at the store */
    instrNum: seq<int>,
    /** the fan matrix at the store, when fan tracking is on */
    fan: Option<seq<seq<FanCell>>>)

  /** The shape every record the tracer writes has. */
  predicate WellFormed(si: StoreInfo, fanTracking: bool) {
    && |si.instrNum| == MaxThreads
    && (si.fan.Some? <==> fanTracking)
    && (si.fan.Some? ==> IsMatrix(si.fan.value))
  }

  const Separator: char := '+'

  /** Number of fields of a record: 1 + 9 + 8, plus 8 per fan cell. */
  function FieldCount(fanTracking: bool): nat {
    18 + if fanTracking then 8 * MaxThreads * MaxThreads else 0
  }

  function Join(fields: seq<string>): string {
    if |fields| == 0 then ""
    else if |fields| == 1 then fields[0]
    else fields[0] + [Separator] + Join(fields[1..])
  }

  function TripleFields(t: Triple): seq<string> {
    [FormatFixed(t.alu), FormatFixed(t.reg), FormatFixed(t.mem)]
  }

  function QuadFields(q: Quad): seq<string> {
    [FormatFixed(q.alu), FormatFixed(q.reg), FormatFixed(q.mem), FormatFixed(q.count)]
  }

  function CellFields(c: FanCell): seq<string> {
    QuadFields(c.direct) + QuadFields(c.indirect)
  }

  function Flatten<T>(chunks: seq<seq<T>>): seq<T> {
    if chunks == [] then [] else chunks[0] + Flatten(chunks[1..])
  }

  function RowFields(row: seq<FanCell>): seq<string> {
    Flatten(seq(|row|, j requires 0 <= j < |row| => CellFields(row[j])))
  }

  /** The fan cells in the order the record lists them: row by row. */
  function MatrixFields(m: seq<seq<FanCell>>): seq<string> {
    Flatten(seq(|m|, i requires 0 <= i < |m| => RowFields(m[i])))
  }

  function IntFields(xs: seq<int>): seq<string> {
    if xs == [] then [] else [IntToString(xs[0])] + IntFields(xs[1..])
  }

  function Fields(si: StoreInfo): seq<string> {
    [IntToString(si.threadNo)] + TripleFields(si.tvf) + TripleFields(si.lvf) + TripleFields(si.localInterval)
    + IntFields(si.instrNum)
    + (if si.fan.Some? then MatrixFields(si.fan.value) else [])
  }

  /** `storeToString`. */
  function Encode(si: StoreInfo): string {
    Join(Fields(si))
  }

  /** All the tokens `strtok_r(…, "+", …)` hands out, in order. */
  function Tokens(s: string): seq<string>
    decreases |s|
  {
    var (t, rest) := StrTok(s, {Separator});
    if t.None? then [] else [t.value] + Tokens(rest)
  }

  function ReadTriple(ts: seq<string>, at: nat): Triple
    requires at + 3 <= |ts|
  {
    Triple(Atof(ts[at]), Atof(ts[at + 1]), Atof(ts[at + 2]))
  }

  function ReadQuad(ts: seq<string>, at: nat): Quad
    requires at + 4 <= |ts|
  {
    Quad(Atof(ts[at]), Atof(ts[at + 1]), Atof(ts[at + 2]), Atof(ts[at + 3]))
  }

  function ReadCell(ts: seq<string>, at: nat): FanCell
    requires at + 8 <= |ts|
  {
    FanCell(ReadQuad(ts, at), ReadQuad(ts, at + 4))
  }

  /** The eight cells of one row of the fan snapshot, starting at field `at`. */
  function ReadRow(ts: seq<string>, at: nat): (row: seq<FanCell>)
    requires at + 64 <= |ts|
    ensures |row| == MaxThreads
    ensures forall j :: 0 <= j < MaxThreads ==> row[j] == ReadCell(ts, at + 8 * j)
  {
    seq(MaxThreads, j requires 0 <= j < MaxThreads => ReadCell(ts, at + 8 * j))
  }

  function ReadMatrix(ts: seq<string>, at: nat): (m: seq<seq<FanCell>>)
    requires at + 512 <= |ts|
    ensures IsMatrix(m)
    ensures forall i :: 0 <= i < MaxThreads ==> m[i] == ReadRow(ts, at + 64 * i)
  {
    seq(MaxThreads, i requires 0 <= i < MaxThreads => ReadRow(ts, at + 64 * i))
  }

  /** Every thread's instruction number, eight integer fields from field `at`. */
  function ReadInts(ts: seq<string>, at: nat): (xs: seq<int>)
    requires at + MaxThreads <= |ts|
    ensures |xs| == MaxThreads
    ensures forall i :: 0 <= i < MaxThreads ==> xs[i] == Atoi(ts[at + i])
  {
    seq(MaxThreads, i requires 0 <= i < MaxThreads => Atoi(ts[at + i]))
  }

  /**
   * `stringToStore`: None when the text has too few fields (where the C code
   * would hand a null token to `atoi`); fields beyond the last are ignored.
   */
  function Decode(s: string, fanTracking: bool): (r: Option<StoreInfo>)
    ensures r.Some? ==> WellFormed(r.value, fanTracking)
    ensures r.Some? <==> |Tokens(s)| >= FieldCount(fanTracking)
  {
    var ts := Tokens(s);
    if |ts| < FieldCount(fanTracking) then None
    else
      Some(StoreInfo(
        Atoi(ts[0]), ReadTriple(ts, 1), ReadTriple(ts, 4), ReadTriple(ts, 7),
        ReadInts(ts, 10),
        if fanTracking then Some(ReadMatrix(ts, 18)) else None))
  }

  function RoundTriple(t: Triple): Triple {
    Triple(Round6(t.alu), Round6(t.reg), Round6(t.mem))
  }

  function RoundQuad(q: Quad): Quad {
    Quad(Round6(q.alu), Round6(q.reg), Round6(q.mem), Round6(q.count))
  }

  function RoundCell(c: FanCell): FanCell {
    FanCell(RoundQuad(c.direct), RoundQuad(c.indirect))
  }

  function RoundRow(row: seq<FanCell>): (r: seq<FanCell>)
    ensures |r| == |row| && forall j :: 0 <= j < |row| ==> r[j] == RoundCell(row[j])
  {
    seq(|row|, j requires 0 <= j < |row| => RoundCell(row[j]))
  }

  function RoundMatrix(m: seq<seq<FanCell>>): (r: seq<seq<FanCell>>)
    requires IsMatrix(m)
    ensures IsMatrix(r) && forall i :: 0 <= i < MaxThreads ==> r[i] == RoundRow(m[i])
  {
    seq(MaxThreads, i requires 0 <= i < MaxThreads => RoundRow(m[i]))
  }

  /** A record as a load sees it: every real field rounded to six decimals by `%f`. */
  function Rounded(si: StoreInfo): (r: StoreInfo)
    requires si.fan.Some? ==> IsMatrix(si.fan.value)
    ensures r.threadNo == si.threadNo && r.instrNum == si.instrNum
  {
    StoreInfo(si.threadNo, RoundTriple(si.tvf), RoundTriple(si.lvf), RoundTriple(si.localInterval),
              si.instrNum, if si.fan.Some? then Some(RoundMatrix(si.fan.value)) else None)
  }

  // ---- the text round trip ----

  predicate Token(t: string) {
    |t| > 0 && forall k :: 0 <= k < |t| ==> t[k] != Separator
  }

  /** `strtok_r` on a text that starts with a token ending at `i`. */
  lemma {:induction false} StrTokAt(s: string, i: nat)
    requires s != [] && s[0] != Separator && FirstDelim(s, {Separator}) == i
    ensures StrTok(s, {Separator}) == (Some(s[..i]), if i < |s| then s[i + 1..] else [])
  {
    var delims := {Separator};
    assert s[0] !in delims;
    assert SkipDelims(s, delims) == s;
    var r := StrTok(s, delims);
    assert r == (Some(s[..i]), if i < |s| then s[i + 1..] else []);
  }

  lemma {:induction false} StrTokSplits(t: string, rest: string)
    requires Token(t)
    ensures StrTok(t + [Separator] + rest, {Separator}) == (Some(t), rest)
    ensures StrTok(t, {Separator}) == (Some(t), [])
  {
    var s := t + [Separator] + rest;
    assert s == t + ([Separator] + rest);
    FirstDelimAt(t, [Separator] + rest);
    StrTokAt(s, |t|);
    assert s[..|t|] == t;
    assert s[|t| + 1..] == rest;
    FirstDelimAt(t, []);
    assert t + [] == t;
    StrTokAt(t, |t|);
    assert t[..|t|] == t;
  }

  lemma {:induction false} FirstDelimAt(t: string, rest: string)
    requires forall k :: 0 <= k < |t| ==> t[k] != Separator
    requires rest == [] || rest[0] == Separator
    ensures FirstDelim(t + rest, {Separator}) == |t|
    decreases |t|
  {
    var s := t + rest;
    if t == [] {
      assert s == rest;
    } else {
      assert s[0] == t[0] && s[0] !in {Separator};
      assert s[1..] == t[1..] + rest;
      FirstDelimAt(t[1..], rest);
    }
  }

  /** A token followed by the separator is the first token of the text. */
  lemma {:induction false} TokensCons(t: string, rest: string)
    requires Token(t)
    ensures Tokens(t + [Separator] + rest) == [t] + Tokens(rest)
  {
    StrTokSplits(t, rest);
  }

  lemma {:induction false} TokensSingle(t: string)
    requires Token(t)
    ensures Tokens(t) == [t]
  {
    var delims := {Separator};
    StrTokSplits(t, []);
    assert StrTok(t, delims) == (Some(t), []);
    assert Tokens([]) == [] by {
      assert StrTok([], delims).0.None?;
    }
    assert Tokens(t) == [t] + Tokens([]);
  }

  /** Tokenising a joined list of tokens gives the list back. */
  lemma {:induction false} TokensJoin(fields: seq<string>)
    requires forall k :: 0 <= k < |fields| ==> Token(fields[k])
    ensures Tokens(Join(fields)) == fields
    decreases |fields|
  {
    if |fields| == 0 {
      assert StrTok([], {Separator}).0.None?;
    } else if |fields| == 1 {
      TokensSingle(fields[0]);
    } else {
      var tail := fields[1..];
      assert Token(fields[0]);
      assert forall k :: 0 <= k < |tail| ==> tail[k] == fields[k + 1];
      TokensCons(fields[0], Join(tail));
      TokensJoin(tail);
      ConsTail(fields);
    }
  }

  lemma {:induction false} ConsTail<T>(s: seq<T>)
    requires |s| > 0
    ensures [s[0]] + s[1..] == s
  {
  }

  predicate AllTokens(fs: seq<string>) {
    forall k :: 0 <= k < |fs| ==> Token(fs[k])
  }

  lemma {:induction false} AllTokensAppend(a: seq<string>, b: seq<string>)
    requires AllTokens(a) && AllTokens(b)
    ensures AllTokens(a + b)
  {
  }

  lemma {:induction false} FixedToken(x: real)
    ensures Token(FormatFixed(x))
  {
    FormatFixedAlphabet(x);
  }

  lemma {:induction false} IntToken(x: int)
    ensures Token(IntToString(x))
  {
    IntToStringAlphabet(x);
  }

  lemma {:induction false} TripleTokens(t: Triple)
    ensures AllTokens(TripleFields(t))
  {
    FixedToken(t.alu);
    FixedToken(t.reg);
    FixedToken(t.mem);
  }

  lemma {:induction false} CellTokens(c: FanCell)
    ensures AllTokens(CellFields(c))
  {
    FixedToken(c.direct.alu);
    FixedToken(c.direct.reg);
    FixedToken(c.direct.mem);
    FixedToken(c.direct.count);
    FixedToken(c.indirect.alu);
    FixedToken(c.indirect.reg);
    FixedToken(c.indirect.mem);
    FixedToken(c.indirect.count);
  }

  lemma {:induction false} IntTokens(xs: seq<int>)
    ensures AllTokens(IntFields(xs))
  {
    if xs != [] {
      IntToken(xs[0]);
      IntTokens(xs[1..]);
      AllTokensAppend([IntToString(xs[0])], IntFields(xs[1..]));
    }
  }

  lemma {:induction false} FlattenTokens(chunks: seq<seq<string>>)
    requires forall k :: 0 <= k < |chunks| ==> AllTokens(chunks[k])
    ensures AllTokens(Flatten(chunks))
  {
    if chunks != [] {
      FlattenTokens(chunks[1..]);
      AllTokensAppend(chunks[0], Flatten(chunks[1..]));
    }
  }

  lemma {:induction false} RowTokens(row: seq<FanCell>)
    ensures AllTokens(RowFields(row))
  {
    forall j | 0 <= j < |row| {
      CellTokens(row[j]);
    }
    FlattenTokens(seq(|row|, j requires 0 <= j < |row| => CellFields(row[j])));
  }

  lemma {:induction false} MatrixTokens(m: seq<seq<FanCell>>)
    ensures AllTokens(MatrixFields(m))
  {
    forall i | 0 <= i < |m| {
      RowTokens(m[i]);
    }
    FlattenTokens(seq(|m|, i requires 0 <= i < |m| => RowFields(m[i])));
  }

  lemma {:induction false} FieldsAreTokens(si: StoreInfo)
    ensures AllTokens(Fields(si))
  {
    IntToken(si.threadNo);
    TripleTokens(si.tvf);
    TripleTokens(si.lvf);
    TripleTokens(si.localInterval);
    IntTokens(si.instrNum);
    if si.fan.Some? {
      MatrixTokens(si.fan.value);
    }
  }

  lemma {:induction false} IntFieldsIndex(xs: seq<int>, k: nat)
    requires k < |xs|
    ensures |IntFields(xs)| == |xs| && IntFields(xs)[k] == IntToString(xs[k])
  {
    if k > 0 {
      IntFieldsIndex(xs[1..], k - 1);
    } else {
      IntFieldsLength(xs);
    }
  }

  lemma {:induction false} IntFieldsLength(xs: seq<int>)
    ensures |IntFields(xs)| == |xs|
  {
    if xs != [] {
      IntFieldsLength(xs[1..]);
    }
  }

  /** w * k, by repeated addition (keeps the index arithmetic linear). */
  function Offset(w: nat, k: nat): nat {
    if k == 0 then 0 else Offset(w, k - 1) + w
  }

  lemma {:induction false} OffsetBefore(w: nat, k: nat, n: nat)
    requires k < n
    ensures Offset(w, k) + w <= Offset(w, n)
    decreases n
  {
    if k < n - 1 {
      OffsetBefore(w, k, n - 1);
    }
  }

  lemma {:induction false} OffsetOfEight(k: nat)
    ensures Offset(8, k) == 8 * k && Offset(64, k) == 64 * k
  {
    if k > 0 {
      OffsetOfEight(k - 1);
    }
  }

  lemma {:induction false} FlattenLength<T>(chunks: seq<seq<T>>, w: nat)
    requires forall c :: 0 <= c < |chunks| ==> |chunks[c]| == w
    ensures |Flatten(chunks)| == Offset(w, |chunks|)
    decreases |chunks|
  {
    if chunks != [] {
      FlattenLength(chunks[1..], w);
      OffsetShift(w, |chunks| - 1);
    }
  }

  /** Offset counted from the front instead of the back. */
  lemma {:induction false} OffsetShift(w: nat, k: nat)
    ensures Offset(w, k + 1) == w + Offset(w, k)
  {
  }

  lemma {:induction false} FlattenIndex<T>(chunks: seq<seq<T>>, w: nat, k: nat, f: nat)
    requires forall c :: 0 <= c < |chunks| ==> |chunks[c]| == w
    requires k < |chunks| && f < w
    ensures |Flatten(chunks)| == Offset(w, |chunks|)
    ensures Offset(w, k) + f < |Flatten(chunks)|
    ensures Flatten(chunks)[Offset(w, k) + f] == chunks[k][f]
    decreases k
  {
    FlattenLength(chunks, w);
    OffsetBefore(w, k, |chunks|);
    if k > 0 {
      FlattenIndex(chunks[1..], w, k - 1, f);
      OffsetShift(w, k - 1);
      FlattenLength(chunks[1..], w);
    }
  }

  lemma {:induction false} RowFieldsIndex(row: seq<FanCell>, j: nat, f: nat)
    requires j < |row| && f < 8
    ensures |RowFields(row)| == 8 * |row|
    ensures RowFields(row)[8 * j + f] == CellFields(row[j])[f]
  {
    FlattenIndex(seq(|row|, j requires 0 <= j < |row| => CellFields(row[j])), 8, j, f);
    OffsetOfEight(j);
    OffsetOfEight(|row|);
  }

  lemma {:induction false} MatrixFieldsIndex(m: seq<seq<FanCell>>, i: nat, j: nat, f: nat)
    requires IsMatrix(m) && i < MaxThreads && j < MaxThreads && f < 8
    ensures |MatrixFields(m)| == 512
    ensures MatrixFields(m)[64 * i + 8 * j + f] == CellFields(m[i][j])[f]
  {
    var rows := seq(|m|, i requires 0 <= i < |m| => RowFields(m[i]));
    forall r | 0 <= r < |m|
      ensures |rows[r]| == 64
    {
      RowFieldsIndex(m[r], 0, 0);
    }
    FlattenIndex(rows, 64, i, 8 * j + f);
    OffsetOfEight(i);
    OffsetOfEight(|m|);
    RowFieldsIndex(m[i], j, f);
  }

  /** Where each field of a record sits in its list of fields. */
  lemma {:induction false} FieldsLayout(si: StoreInfo, fanTracking: bool)
    requires WellFormed(si, fanTracking)
    ensures |Fields(si)| == FieldCount(fanTracking)
    ensures Fields(si)[0] == IntToString(si.threadNo)
    ensures Fields(si)[1..4] == TripleFields(si.tvf)
    ensures Fields(si)[4..7] == TripleFields(si.lvf)
    ensures Fields(si)[7..10] == TripleFields(si.localInterval)
    ensures forall i :: 0 <= i < MaxThreads ==> Fields(si)[10 + i] == IntToString(si.instrNum[i])
    ensures fanTracking ==> Fields(si)[18..] == MatrixFields(si.fan.value)
  {
    var fs := Fields(si);
    var head := [IntToString(si.threadNo)] + TripleFields(si.tvf) + TripleFields(si.lvf) + TripleFields(si.localInterval);
    IntFieldsLength(si.instrNum);
    var tail := if si.fan.Some? then MatrixFields(si.fan.value) else [];
    if si.fan.Some? {
      MatrixFieldsIndex(si.fan.value, 0, 0, 0);
    }
    assert fs == head + IntFields(si.instrNum) + tail;
    forall i | 0 <= i < MaxThreads
      ensures fs[10 + i] == IntToString(si.instrNum[i])
    {
      IntFieldsIndex(si.instrNum, i);
    }
  }

  lemma {:induction false} RoundTripTriple(t: Triple, ts: seq<string>, at: nat)
    requires at + 3 <= |ts| && ts[at..at + 3] == TripleFields(t)
    ensures ReadTriple(ts, at) == RoundTriple(t)
  {
    assert ts[at] == FormatFixed(t.alu) && ts[at + 1] == FormatFixed(t.reg) && ts[at + 2] == FormatFixed(t.mem);
    AtofFormatFixed(t.alu);
    AtofFormatFixed(t.reg);
    AtofFormatFixed(t.mem);
  }

  lemma {:induction false} RoundTripInts(si: StoreInfo, fanTracking: bool)
    requires WellFormed(si, fanTracking)
    ensures |Fields(si)| == FieldCount(fanTracking)
    ensures Atoi(Fields(si)[0]) == si.threadNo
    ensures ReadInts(Fields(si), 10) == si.instrNum
  {
    FieldsLayout(si, fanTracking);
    var fs := Fields(si);
    AtoiIntToString(si.threadNo);
    ghost var read := ReadInts(fs, 10);
    forall i | 0 <= i < MaxThreads
      ensures read[i] == si.instrNum[i]
    {
      AtoiIntToString(si.instrNum[i]);
    }
    assert |read| == |si.instrNum|;
  }

  lemma {:induction false} RoundTripHead(si: StoreInfo, fanTracking: bool)
    requires WellFormed(si, fanTracking)
    ensures |Fields(si)| == FieldCount(fanTracking)
    ensures Atoi(Fields(si)[0]) == si.threadNo
    ensures ReadTriple(Fields(si), 1) == RoundTriple(si.tvf)
    ensures ReadTriple(Fields(si), 4) == RoundTriple(si.lvf)
    ensures ReadTriple(Fields(si), 7) == RoundTriple(si.localInterval)
    ensures ReadInts(Fields(si), 10) == si.instrNum
  {
    FieldsLayout(si, fanTracking);
    RoundTripInts(si, fanTracking);
    RoundTripTriple(si.tvf, Fields(si), 1);
    RoundTripTriple(si.lvf, Fields(si), 4);
    RoundTripTriple(si.localInterval, Fields(si), 7);
  }

  lemma {:induction false} RoundTripQuad(q: Quad, ts: seq<string>, at: nat)
    requires at + 4 <= |ts| && ts[at..at + 4] == QuadFields(q)
    ensures ReadQuad(ts, at) == RoundQuad(q)
  {
    assert ts[at] == FormatFixed(q.alu) && ts[at + 1] == FormatFixed(q.reg);
    assert ts[at + 2] == FormatFixed(q.mem) && ts[at + 3] == FormatFixed(q.count);
    AtofFormatFixed(q.alu);
    AtofFormatFixed(q.reg);
    AtofFormatFixed(q.mem);
    AtofFormatFixed(q.count);
  }

  lemma {:induction false} RoundTripCell(c: FanCell, ts: seq<string>, at: nat)
    requires at + 8 <= |ts| && ts[at..at + 8] == CellFields(c)
    ensures ReadCell(ts, at) == RoundCell(c)
  {
    assert ts[at..at + 4] == ts[at..at + 8][..4] == QuadFields(c.direct);
    assert ts[at + 4..at + 8] == ts[at..at + 8][4..] == QuadFields(c.indirect);
    RoundTripQuad(c.direct, ts, at);
    RoundTripQuad(c.indirect, ts, at + 4);
  }

  /** The eight fields of cell (i, j) of the fan snapshot, where the record lists them. */
  lemma {:induction false} CellSlice(m: seq<seq<FanCell>>, ts: seq<string>, i: nat, j: nat)
    requires IsMatrix(m) && |ts| >= 18 + 512 && ts[18..] == MatrixFields(m)
    requires i < MaxThreads && j < MaxThreads
    ensures 18 + 64 * i + 8 * j + 8 <= |ts|
    ensures ts[18 + 64 * i + 8 * j..18 + 64 * i + 8 * j + 8] == CellFields(m[i][j])
  {
    var at := 18 + 64 * i + 8 * j;
    forall f | 0 <= f < 8
      ensures ts[at + f] == CellFields(m[i][j])[f]
    {
      MatrixFieldsIndex(m, i, j, f);
      assert ts[at + f] == ts[18..][64 * i + 8 * j + f];
    }
  }

  lemma {:induction false} RoundTripMatrixCell(m: seq<seq<FanCell>>, ts: seq<string>, i: nat, j: nat)
    requires IsMatrix(m) && |ts| >= 18 + 512 && ts[18..] == MatrixFields(m)
    requires i < MaxThreads && j < MaxThreads
    ensures ReadMatrix(ts, 18)[i][j] == RoundMatrix(m)[i][j]
  {
    var at := 18 + 64 * i + 8 * j;
    CellSlice(m, ts, i, j);
    RoundTripCell(m[i][j], ts, at);
    assert ReadMatrix(ts, 18)[i] == ReadRow(ts, 18 + 64 * i);
    assert ReadMatrix(ts, 18)[i][j] == ReadCell(ts, at);
  }

  lemma {:induction false} RoundTripRow(m: seq<seq<FanCell>>, ts: seq<string>, i: nat)
    requires IsMatrix(m) && |ts| >= 18 + 512 && ts[18..] == MatrixFields(m) && i < MaxThreads
    ensures ReadMatrix(ts, 18)[i] == RoundMatrix(m)[i]
  {
    ghost var read, rounded := ReadMatrix(ts, 18)[i], RoundMatrix(m)[i];
    forall j | 0 <= j < MaxThreads
      ensures read[j] == rounded[j]
    {
      RoundTripMatrixCell(m, ts, i, j);
    }
  }

  lemma {:induction false} RoundTripMatrix(m: seq<seq<FanCell>>, ts: seq<string>)
    requires IsMatrix(m) && |ts| >= 18 + 512 && ts[18..] == MatrixFields(m)
    ensures ReadMatrix(ts, 18) == RoundMatrix(m)
  {
    ghost var read, rounded := ReadMatrix(ts, 18), RoundMatrix(m);
    forall i | 0 <= i < MaxThreads
      ensures read[i] == rounded[i]
    {
      RoundTripRow(m, ts, i);
    }
  }

  /**
   * Reading back what `storeToString` wrote gives the record with every real
   * field rounded to six decimals and every integer field exactly.
   */
  lemma {:induction false} DecodeEncode(si: StoreInfo, fanTracking: bool)
    requires WellFormed(si, fanTracking)
    ensures Decode(Encode(si), fanTracking) == Some(Rounded(si))
  {
    var fs := Fields(si);
    FieldsAreTokens(si);
    TokensJoin(fs);
    RoundTripHead(si, fanTracking);
    if fanTracking {
      FieldsLayout(si, fanTracking);
      RoundTripMatrix(si.fan.value, fs);
    }
  }

  /** The integer fields of a record survive the text form exactly. */
  lemma {:induction false} IntegerFieldsRoundTrip(si: StoreInfo, fanTracking: bool)
    requires WellFormed(si, fanTracking)
    ensures Decode(Encode(si), fanTracking).Some?
    ensures Decode(Encode(si), fanTracking).value.threadNo == si.threadNo
    ensures Decode(Encode(si), fanTracking).value.instrNum == si.instrNum
  {
    DecodeEncode(si, fanTracking);
  }
}
