/**
 * The vulnerability factors a store records: the local factor of a thread
 * (its accumulated vulnerability per executed instruction and per tracked
 * resource), the remote factor (the remote vulnerability per remote read),
 * and the total factor that weighs the two.
 */
module Factors {
  import opened Basics

  /** `calculate_lvf`: vulnerability per instruction and per resource. */
  function CalculateLvf(lvf: real, instrNum: int, size: int): (r: real)
    requires instrNum != 0 && size != 0
    ensures r * (instrNum as real * size as real) == lvf
  {
    lvf / (instrNum as real * size as real)
  }

  /** `calculate_rvf`: remote vulnerability per remote read. */
  function CalculateRvf(rvf: real, remoteCount: int): (r: real)
    requires remoteCount != 0
    ensures r * remoteCount as real == rvf
  {
    rvf / remoteCount as real
  }

  function MinReal(a: real, b: real): real { if a <= b then a else b }
  function MaxReal(a: real, b: real): real { if a <= b then b else a }

  /** `calculate_tvf`: the weighted sum; with convex weights it lies between its two terms. */
  function CalculateTvf(lvf: real, rvf: real, localWeight: real, remoteWeight: real): (r: real)
    ensures localWeight >= 0.0 && remoteWeight >= 0.0 && localWeight + remoteWeight == 1.0 ==>
              MinReal(lvf, rvf) <= r <= MaxReal(lvf, rvf)
  {
    if localWeight >= 0.0 && remoteWeight >= 0.0 && localWeight + remoteWeight == 1.0 then
      TvfBetween(lvf, rvf, localWeight, remoteWeight);
      localWeight * lvf + remoteWeight * rvf
    else
      localWeight * lvf + remoteWeight * rvf
  }

  lemma {:induction false} TvfBetween(lvf: real, rvf: real, lw: real, rw: real)
    requires lw >= 0.0 && rw >= 0.0 && lw + rw == 1.0
    ensures MinReal(lvf, rvf) <= lw * lvf + rw * rvf <= MaxReal(lvf, rvf)
  {
    var d := rvf - lvf;
    assert lw * lvf + rw * rvf == lvf + rw * d by {
      assert lw == 1.0 - rw;
    }
    assert lw * lvf + rw * rvf == rvf - lw * d by {
      assert rw == 1.0 - lw;
    }
    var e := if d >= 0.0 then d else -d;
    ProductNonNegative(rw, e);
    ProductNonNegative(lw, e);
  }

  lemma {:induction false} ProductNonNegative(a: real, b: real)
    requires a >= 0.0 && b >= 0.0
    ensures a * b >= 0.0
  {
  }

  /** The weights the store uses: the `remote_count == 0` branch that would change them is unreachable. */
  const LocalWeight: real := 0.5
  const RemoteWeight: real := 0.5

  /** The divisor guards of the store branch: a zero count is replaced by 1. */
  function AtLeastOne(n: int): (r: int)
    ensures r != 0
    ensures n != 0 ==> r == n
  {
    if n == 0 then 1 else n
  }

  /** What a store reads of the thread whose local factor it computes. */
  datatype Source = Source(instrNum: int, vul: Triple, registerCount: nat, memoryCount: nat)

  /** The local factors of a source: ALU per instruction, registers and memory also per tracked entry. */
  function LocalFactors(s: Source): (r: Triple)
    requires s.instrNum != 0
    ensures r.alu * s.instrNum as real == s.vul.alu
    ensures r.reg * (s.instrNum as real * AtLeastOne(s.registerCount) as real) == s.vul.reg
    ensures r.mem * (s.instrNum as real * AtLeastOne(s.memoryCount) as real) == s.vul.mem
  {
    Triple(CalculateLvf(s.vul.alu, s.instrNum, 1),
           CalculateLvf(s.vul.reg, s.instrNum, AtLeastOne(s.registerCount)),
           CalculateLvf(s.vul.mem, s.instrNum, AtLeastOne(s.memoryCount)))
  }

  function Square(t: Triple): Triple {
    Triple(t.alu * t.alu, t.reg * t.reg, t.mem * t.mem)
  }

  function Tvf(local: Triple, remote: Triple): Triple {
    Triple(CalculateTvf(local.alu, remote.alu, LocalWeight, RemoteWeight),
           CalculateTvf(local.reg, remote.reg, LocalWeight, RemoteWeight),
           CalculateTvf(local.mem, remote.mem, LocalWeight, RemoteWeight))
  }

  /** The local and total factors a store computes. */
  datatype StoreFactors = StoreFactors(local: Triple, tvf: Triple)

  /**
   * The store branch as written: a thread that has executed nothing records
   * zeros; otherwise the local factors come from the shadow ledger when there
   * is one (squared), else from the thread itself (squared for the redundant
   * thread), and the remote factors from the thread's remote sums. The local
   * division uses the shadow's instruction count although the guard tested the
   * thread's: when the shadow has executed nothing the quotient is not a
   * number, which is `None` here.
   */
  function StoreFactorsAsWritten(own: Source, shadow: Option<Source>, rem: Triple, remoteCount: int,
                                 squareOwn: bool): Option<StoreFactors>
  {
    if own.instrNum == 0 then Some(StoreFactors(Zero, Zero))
    else
      var source := if shadow.Some? then shadow.value else own;
      if source.instrNum == 0 then None
      else
        var local0 := LocalFactors(source);
        var local1 := if squareOwn then Square(local0) else local0;
        var local := if shadow.Some? then Square(local1) else local1;
        var n := AtLeastOne(remoteCount);
        var remote := Triple(CalculateRvf(rem.alu, n), CalculateRvf(rem.reg, n), CalculateRvf(rem.mem, n));
        Some(StoreFactors(local, Tvf(local, remote)))
  }

  /** The store branch with the local division guarded by the count it divides by. */
  function StoreFactorsOf(own: Source, shadow: Option<Source>, rem: Triple, remoteCount: int,
                          squareOwn: bool): (r: StoreFactors)
    ensures own.instrNum == 0 ==> r == StoreFactors(Zero, Zero)
    ensures StoreFactorsAsWritten(own, shadow, rem, remoteCount, squareOwn).Some? ==>
              StoreFactorsAsWritten(own, shadow, rem, remoteCount, squareOwn) == Some(r)
  {
    if own.instrNum == 0 then StoreFactors(Zero, Zero)
    else
      var source := if shadow.Some? then shadow.value else own;
      var local0 := if source.instrNum == 0 then Zero else LocalFactors(source);
      var local1 := if squareOwn then Square(local0) else local0;
      var local := if shadow.Some? then Square(local1) else local1;
      var n := AtLeastOne(remoteCount);
      var remote := Triple(CalculateRvf(rem.alu, n), CalculateRvf(rem.reg, n), CalculateRvf(rem.mem, n));
      StoreFactors(local, Tvf(local, remote))
  }

  /** A shadow ledger created by the store itself has executed nothing: the as-written division has no value. */
  lemma {:induction false} ShadowDivisionByZero(own: Source, shadow: Source, rem: Triple, remoteCount: int, squareOwn: bool)
    requires own.instrNum != 0 && shadow.instrNum == 0
    ensures StoreFactorsAsWritten(own, Some(shadow), rem, remoteCount, squareOwn).None?
    ensures StoreFactorsOf(own, Some(shadow), rem, remoteCount, squareOwn).local == Zero
  {
  }

  /** The total factor is the midpoint of the local factor and the remote factor. */
  lemma {:induction false} TvfIsMidpoint(own: Source, shadow: Option<Source>, rem: Triple, remoteCount: int, squareOwn: bool)
    requires own.instrNum != 0
    ensures var f := StoreFactorsOf(own, shadow, rem, remoteCount, squareOwn);
            var n := AtLeastOne(remoteCount) as real;
            && f.tvf.alu * 2.0 == f.local.alu + rem.alu / n
            && f.tvf.reg * 2.0 == f.local.reg + rem.reg / n
            && f.tvf.mem * 2.0 == f.local.mem + rem.mem / n
  {
  }

  /** With non-negative sums and counts, every recorded factor is non-negative. */
  lemma {:induction false} FactorsNonNegative(own: Source, shadow: Option<Source>, rem: Triple, remoteCount: int, squareOwn: bool)
    requires own.instrNum >= 0 && own.vul.alu >= 0.0 && own.vul.reg >= 0.0 && own.vul.mem >= 0.0
    requires shadow.Some? ==> shadow.value.instrNum >= 0
    requires remoteCount >= 0 && rem.alu >= 0.0 && rem.reg >= 0.0 && rem.mem >= 0.0
    ensures var f := StoreFactorsOf(own, shadow, rem, remoteCount, squareOwn);
            f.tvf.alu >= 0.0 && f.tvf.reg >= 0.0 && f.tvf.mem >= 0.0
  {
    var f := StoreFactorsOf(own, shadow, rem, remoteCount, squareOwn);
    if own.instrNum != 0 {
      var source := if shadow.Some? then shadow.value else own;
      if source.instrNum != 0 && shadow.None? && !squareOwn {
        var l := LocalFactors(source);
        DivNonNegative(source.vul.alu, source.instrNum as real);
        DivNonNegative(source.vul.reg, source.instrNum as real * AtLeastOne(source.registerCount) as real);
        DivNonNegative(source.vul.mem, source.instrNum as real * AtLeastOne(source.memoryCount) as real);
      }
      var n := AtLeastOne(remoteCount) as real;
      DivNonNegative(rem.alu, n);
      DivNonNegative(rem.reg, n);
      DivNonNegative(rem.mem, n);
    }
  }

  lemma {:induction false} DivNonNegative(x: real, y: real)
    requires x >= 0.0 && y > 0.0
    ensures x / y >= 0.0
  {
  }

  /**
   * The self vulnerability `print_cpu` reports for one class: what accumulated
   * since the last remote read of this thread's data, or, when nothing did,
   * what accumulated since the one before.
   */
  function SettledSelf(vul: real, self: real, lastRemote: real): (r: real)
    ensures vul - self != 0.0 ==> r == vul - self
    ensures vul - self == 0.0 ==> r == vul - lastRemote
    ensures r == 0.0 ==> vul == self || vul == lastRemote
  {
    if vul - self == 0.0 then vul - lastRemote else vul - self
  }

  /** When a remote read of this thread's data happens, the previous non-zero self value is kept. */
  function LastRemoteAfter(self: real, lastRemote: real): (r: real)
    ensures r == 0.0 ==> self == 0.0 && lastRemote == 0.0
    ensures self != 0.0 ==> r == self
    ensures self == 0.0 ==> r == lastRemote
  {
    if self != 0.0 then self else lastRemote
  }
}
