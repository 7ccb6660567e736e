/**
 * Fan-in / fan-out bookkeeping between hardware threads: an 8 x 8 matrix
 * whose cell [out][in] records how much vulnerability thread `out` handed
 * to thread `in` through memory, directly (a load of a value `out` stored)
 * and indirectly (propagated along a chain j -> out -> in).
 */
module Fan {
  import opened Basics

  /** One value per resource class, plus the number of events. */
  datatype Quad = Quad(alu: real, reg: real, mem: real, count: real)

  datatype FanCell = FanCell(direct: Quad, indirect: Quad)

  const EmptyQuad: Quad := Quad(0.0, 0.0, 0.0, 0.0)
  const EmptyCell: FanCell := FanCell(EmptyQuad, EmptyQuad)

  datatype ResourceClass = AluClass | RegClass | MemClass | CountClass

  function Pick(q: Quad, cls: ResourceClass): real {
    match cls
    case AluClass => q.alu
    case RegClass => q.reg
    case MemClass => q.mem
    case CountClass => q.count
  }

  /** A MAX_THREADS x MAX_THREADS matrix of cells, as a value. */
  predicate IsMatrix(m: seq<seq<FanCell>>) {
    |m| == MaxThreads && forall i :: 0 <= i < |m| ==> |m[i]| == MaxThreads
  }

  /** The snapshot edge j -> out has carried more than REMOTE_THRESHOLD events. */
  predicate Gated(snap: seq<seq<FanCell>>, j: nat, out: nat)
    requires IsMatrix(snap) && j < MaxThreads && out < MaxThreads
  {
    snap[j][out].direct.count > RemoteThreshold || snap[j][out].indirect.count > RemoteThreshold
  }

  /** The decayed value an edge j -> out passes on: PWEIGHT x (direct + indirect). */
  function Propagated(snap: seq<seq<FanCell>>, j: nat, out: nat): Quad
    requires IsMatrix(snap) && j < MaxThreads && out < MaxThreads
  {
    var d, n := snap[j][out].direct, snap[j][out].indirect;
    Quad(PropagationWeight * (d.alu + n.alu), PropagationWeight * (d.reg + n.reg),
         PropagationWeight * (d.mem + n.mem), PropagationWeight * (d.count + n.count))
  }

  function MaxReal(a: real, b: real): (r: real)
    ensures r >= a && r >= b && (r == a || r == b)
  {
    if b > a then b else a
  }

  /** Each class of `q` raised to `candidate` where that is larger. */
  function RaiseQuad(q: Quad, candidate: Quad): Quad {
    Quad(MaxReal(q.alu, candidate.alu), MaxReal(q.reg, candidate.reg),
         MaxReal(q.mem, candidate.mem), MaxReal(q.count, candidate.count))
  }

  /** Adds a store's local values to the direct edge and counts one more event. */
  function AddDirect(cell: FanCell, lvf: Triple): FanCell {
    var d := cell.direct;
    cell.(direct := Quad(d.alu + lvf.alu, d.reg + lvf.reg, d.mem + lvf.mem, d.count + 1.0))
  }

  /**
   * The value of cell [i][c] after `handle_fan_info` for an edge out -> into,
   * given the cell before, the direct count of [out][in] before, the store's
   * local values and the fan snapshot taken when the value was stored.
   */
  function HandledCell(cell: FanCell, edgeCount: real, i: nat, c: nat, out: nat, into: nat,
                       lvf: Triple, snap: seq<seq<FanCell>>): (r: FanCell)
    requires IsMatrix(snap) && i < MaxThreads && out < MaxThreads
    // the direct part changes only on the edge itself, by the store's values and one event
    ensures r.direct == if i == out && c == into then AddDirect(cell, lvf).direct else cell.direct
    // indirect values only ever grow ...
    ensures Pick(r.indirect, AluClass) >= Pick(cell.indirect, AluClass)
    ensures Pick(r.indirect, RegClass) >= Pick(cell.indirect, RegClass)
    ensures Pick(r.indirect, MemClass) >= Pick(cell.indirect, MemClass)
    ensures Pick(r.indirect, CountClass) >= Pick(cell.indirect, CountClass)
    // ... only in column `into`, only once the edge passed the threshold and only through a gated row ...
    ensures r.indirect != cell.indirect ==> c == into && edgeCount + 1.0 > RemoteThreshold && Gated(snap, i, out)
    // ... and then to exactly the propagated value
    ensures forall cls :: Pick(r.indirect, cls) != Pick(cell.indirect, cls) ==>
              Pick(r.indirect, cls) == Pick(Propagated(snap, i, out), cls)
  {
    var afterDirect := if i == out && c == into then AddDirect(cell, lvf) else cell;
    if c == into && edgeCount + 1.0 > RemoteThreshold && Gated(snap, i, out) then
      afterDirect.(indirect := RaiseQuad(afterDirect.indirect, Propagated(snap, i, out)))
    else
      afterDirect
  }

  /** The fan matrix `m` after `handle_fan_info` for a load by `into` of a value `out` stored. */
  function Handled(m: seq<seq<FanCell>>, out: nat, lvf: Triple, snap: seq<seq<FanCell>>, into: nat)
    : (r: seq<seq<FanCell>>)
    requires IsMatrix(m) && IsMatrix(snap) && out < MaxThreads && into < MaxThreads
    ensures IsMatrix(r)
    ensures forall i, c :: 0 <= i < MaxThreads && 0 <= c < MaxThreads ==>
              r[i][c] == HandledCell(m[i][c], m[out][into].direct.count, i, c, out, into, lvf, snap)
  {
    seq(MaxThreads, i requires 0 <= i < MaxThreads =>
      seq(MaxThreads, c requires 0 <= c < MaxThreads =>
        HandledCell(m[i][c], m[out][into].direct.count, i, c, out, into, lvf, snap)))
  }

  /** Sum over a row of one class of the direct (or indirect) parts. */
  function RowSum(row: seq<FanCell>, cls: ResourceClass, direct: bool): real {
    if row == [] then 0.0
    else RowSum(row[..|row| - 1], cls, direct)
         + Pick(if direct then row[|row| - 1].direct else row[|row| - 1].indirect, cls)
  }

  /**
   * What `print_fan_info` reports as "the most critical": the first index of a
   * strictly positive maximum, or 0 when no entry is positive.
   */
  predicate IsFirstMax(sums: seq<real>, k: nat) {
    if forall i :: 0 <= i < |sums| ==> sums[i] <= 0.0 then k == 0
    else
      && k < |sums|
      && sums[k] > 0.0
      && (forall i :: 0 <= i < |sums| ==> sums[i] <= sums[k])
      && (forall i :: 0 <= i < k ==> sums[i] < sums[k])
  }

  /** The report names one thread: the first maximum is unique. */
  lemma {:induction false} FirstMaxUnique(sums: seq<real>, a: nat, b: nat)
    requires IsFirstMax(sums, a) && IsFirstMax(sums, b)
    ensures a == b
  {
  }

  /** The running argmax of `print_fan_info`: strict `>` against a maximum that starts at 0. */
  method MostCritical(sums: seq<real>) returns (critical: nat)
    ensures IsFirstMax(sums, critical)
  {
    var max := 0.0;
    critical := 0;
    for i := 0 to |sums|
      invariant critical <= i
      invariant max >= 0.0
      invariant max == 0.0 ==> critical == 0 && forall k :: 0 <= k < i ==> sums[k] <= 0.0
      invariant max > 0.0 ==> critical < i && sums[critical] == max
      invariant forall k :: 0 <= k < i ==> sums[k] <= max
      invariant forall k :: 0 <= k < critical ==> sums[k] < max
    {
      if sums[i] > max {
        max := sums[i];
        critical := i;
      }
    }
  }

  /** The live fan matrix of the tracer (`bt->fan`). */
  class FanInfo {
    const cells: array2<FanCell>

    predicate Valid() {
      cells.Length0 == MaxThreads && cells.Length1 == MaxThreads
    }

    constructor ()
      ensures Valid() && fresh(cells)
      ensures forall i, j :: 0 <= i < MaxThreads && 0 <= j < MaxThreads ==> cells[i, j] == EmptyCell
    {
      cells := new FanCell[MaxThreads, MaxThreads]((i, j) => EmptyCell);
    }

    /** The current cells as a value (what a store record snapshots). */
    function Matrix(): (m: seq<seq<FanCell>>)
      requires Valid()
      reads cells
      ensures IsMatrix(m)
      ensures forall i, j :: 0 <= i < MaxThreads && 0 <= j < MaxThreads ==> m[i][j] == cells[i, j]
    {
      seq(MaxThreads, i requires 0 <= i < MaxThreads reads cells =>
        seq(MaxThreads, j requires 0 <= j < MaxThreads reads cells => cells[i, j]))
    }

    /**
     * `handle_fan_info`: a load by thread `into` of a value thread `out` stored
     * with local values `lvf`, when the store's fan snapshot was `snap`.
     */
    method HandleFanInfo(out: nat, lvf: Triple, snap: seq<seq<FanCell>>, into: nat)
      requires Valid() && IsMatrix(snap) && out < MaxThreads && into < MaxThreads
      modifies cells
      ensures forall i, c :: 0 <= i < MaxThreads && 0 <= c < MaxThreads ==>
                cells[i, c] == HandledCell(old(cells[i, c]), old(cells[out, into].direct.count), i, c, out, into, lvf, snap)
      ensures Matrix() == Handled(old(Matrix()), out, lvf, snap, into)
    {
      var edgeCount := cells[out, into].direct.count;
      cells[out, into] := AddDirect(cells[out, into], lvf);
      if cells[out, into].direct.count > RemoteThreshold {
        for j := 0 to MaxThreads
          invariant forall i, c :: 0 <= i < MaxThreads && 0 <= c < MaxThreads ==>
                      cells[i, c] == if c == into && i < j
                                     then HandledCell(old(cells[i, c]), edgeCount, i, c, out, into, lvf, snap)
                                     else (if i == out && c == into then AddDirect(old(cells[i, c]), lvf) else old(cells[i, c]))
        {
          if Gated(snap, j, out) {
            var cell := cells[j, into];
            cells[j, into] := cell.(indirect := RaiseQuad(cell.indirect, Propagated(snap, j, out)));
          }
        }
      }
      ghost var now, handled := Matrix(), Handled(old(Matrix()), out, lvf, snap, into);
      assert forall i :: 0 <= i < MaxThreads ==> now[i] == handled[i];
    }

    /**
     * The three "most critical" threads `print_fan_info` reports for one
     * resource class: by total, by direct and by indirect row sum.
     */
    method CriticalThreads(cls: ResourceClass) returns (critical: nat, criticalDirect: nat, criticalIndirect: nat)
      requires Valid()
      ensures IsFirstMax(RowTotals(Matrix(), cls), critical)
      ensures IsFirstMax(RowSums(Matrix(), cls, true), criticalDirect)
      ensures IsFirstMax(RowSums(Matrix(), cls, false), criticalIndirect)
    {
      var m := Matrix();
      var totals: seq<real> := [];
      var directs: seq<real> := [];
      var indirects: seq<real> := [];
      for i := 0 to MaxThreads
        invariant |totals| == |directs| == |indirects| == i
        invariant forall k :: 0 <= k < i ==> directs[k] == RowSum(m[k], cls, true)
        invariant forall k :: 0 <= k < i ==> indirects[k] == RowSum(m[k], cls, false)
        invariant forall k :: 0 <= k < i ==> totals[k] == directs[k] + indirects[k]
      {
        var locald, localid := 0.0, 0.0;
        for j := 0 to MaxThreads
          invariant locald == RowSum(m[i][..j], cls, true)
          invariant localid == RowSum(m[i][..j], cls, false)
        {
          assert m[i][..j + 1][..j] == m[i][..j];
          locald := locald + Pick(m[i][j].direct, cls);
          localid := localid + Pick(m[i][j].indirect, cls);
        }
        assert m[i][..MaxThreads] == m[i];
        totals := totals + [locald + localid];
        directs := directs + [locald];
        indirects := indirects + [localid];
      }
      assert totals == RowTotals(m, cls);
      assert directs == RowSums(m, cls, true);
      assert indirects == RowSums(m, cls, false);
      critical := MostCritical(totals);
      criticalDirect := MostCritical(directs);
      criticalIndirect := MostCritical(indirects);
    }
  }

  function RowSums(m: seq<seq<FanCell>>, cls: ResourceClass, direct: bool): (s: seq<real>)
    ensures |s| == |m|
  {
    seq(|m|, i requires 0 <= i < |m| => RowSum(m[i], cls, direct))
  }

  function RowTotals(m: seq<seq<FanCell>>, cls: ResourceClass): (s: seq<real>)
    ensures |s| == |m|
  {
    seq(|m|, i requires 0 <= i < |m| => RowSum(m[i], cls, true) + RowSum(m[i], cls, false))
  }
}
