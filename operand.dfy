/**
 * Operand extraction for the instruction tracer: which register-ledger keys
 * a disassembled instruction reads and writes.
 *
 * `get_operand` works on a NUL-terminated character buffer and normalises
 * it in place: it returns 1 when the operand is not tracked (an immediate,
 * a digit inside brackets, a name of implausible length, a `0x…` constant),
 * 2 for an accepted bracketed operand in write position and 0 for an
 * accepted operand otherwise, the buffer then holding the normalised name.
 */
module Operands {
  import opened Basics

  const Nul: char := 0 as char

  /** Index of the first NUL of `s` (|s| when there is none). */
  function NulIndex(s: seq<char>): (n: nat)
    ensures n <= |s|
    ensures forall k :: 0 <= k < n ==> s[k] != Nul
    ensures n < |s| ==> s[n] == Nul
  {
    if s == [] || s[0] == Nul then 0 else 1 + NulIndex(s[1..])
  }

  /** The C string a buffer holds: everything before its first NUL. */
  function CString(s: seq<char>): string {
    s[..NulIndex(s)]
  }

  predicate HasNul(s: seq<char>) {
    NulIndex(s) < |s|
  }

  function RemoveSpaces(s: string): (t: string)
    ensures |t| <= |s|
    ensures forall k :: 0 <= k < |t| ==> t[k] != ' '
  {
    if s == [] then []
    else RemoveSpaces(s[..|s| - 1]) + (if s[|s| - 1] != ' ' then [s[|s| - 1]] else [])
  }

  /**
   * The scan after the first '[': spaces dropped, stopping at '*' or ']';
   * None when a digit is met first. Before the '[' nothing is kept.
   */
  function BracketScan(s: string, found: bool): Option<string> {
    if s == [] then Some([])
    else if !found then BracketScan(s[1..], s[0] == '[')
    else if IsDigit(s[0]) then None
    else if s[0] == '*' || s[0] == ']' then Some([])
    else if s[0] == ' ' then BracketScan(s[1..], true)
    else
      match BracketScan(s[1..], true)
      case None => None
      case Some(rest) => Some([s[0]] + rest)
  }

  /** Codes of `get_operand`. */
  const Tracked: int := 0
  const Untracked: int := 1
  const TrackedAddressWrite: int := 2

  datatype Classified = Classified(code: int, name: string)

  function CheckName(name: string, bracketed: bool, write: int): Classified {
    if |name| > 4 || |name| < 2 then Classified(Untracked, name)
    else if bracketed && write == 1 then Classified(TrackedAddressWrite, name)
    else if name[0] == '0' then Classified(Untracked, name)
    else Classified(Tracked, name)
  }

  /** What `get_operand` decides for operand text `op`, and the normalised name. */
  function Classify(op: string, write: int): (r: Classified)
    ensures r.code == Tracked || r.code == Untracked || r.code == TrackedAddressWrite
    ensures |op| > 0 && IsDigit(op[0]) ==> r.code == Untracked
    ensures r.code == TrackedAddressWrite ==> write == 1 && '[' in op
    ensures r.code != Untracked ==>
              2 <= |r.name| <= 4 && r.name[0] != ' ' && forall k :: 0 <= k < |r.name| ==> r.name[k] != ' '
    ensures r.code == Tracked ==> r.name[0] != '0'
    ensures r.code != Untracked && '[' in op ==> BracketScan(op, false) == Some(r.name)
    ensures r.code != Untracked && '[' !in op ==> r.name == RemoveSpaces(op)
  {
    if |op| > 0 && IsDigit(op[0]) then Classified(Untracked, [])
    else if '[' in op then
      match BracketScan(op, false)
      case None => Classified(Untracked, [])
      case Some(name) =>
        BracketScanNoSpaces(op, false);
        CheckName(name, true, write)
    else CheckName(RemoveSpaces(op), false, write)
  }

  lemma {:induction false} BracketScanNoSpaces(s: string, found: bool)
    ensures BracketScan(s, found).Some? ==>
              forall k :: 0 <= k < |BracketScan(s, found).value| ==> BracketScan(s, found).value[k] != ' '
  {
    if s != [] {
      BracketScanNoSpaces(s[1..], if found then true else s[0] == '[');
    }
  }

  function Prepend(p: string, r: Option<string>): Option<string> {
    match r
    case None => None
    case Some(t) => Some(p + t)
  }

  lemma {:induction false} PrependTwice(a: string, b: string, r: Option<string>)
    ensures Prepend(a, Prepend(b, r)) == Prepend(a + b, r)
  {
    if r.Some? {
      assert a + (b + r.value) == (a + b) + r.value;
    }
  }

  lemma {:induction false} PrependNothing(r: Option<string>)
    ensures Prepend([], r) == r
  {
    if r.Some? {
      assert [] + r.value == r.value;
    }
  }

  lemma {:induction false} RemoveSpacesPrefix(s: string, j: nat)
    requires j < |s|
    ensures RemoveSpaces(s[..j + 1]) == RemoveSpaces(s[..j]) + (if s[j] != ' ' then [s[j]] else [])
  {
    assert s[..j + 1][..j] == s[..j];
  }

  /** `strlen`. */
  method StrLen(buf: array<char>) returns (n: nat)
    requires HasNul(buf[..])
    ensures n == NulIndex(buf[..]) && n < buf.Length
  {
    n := 0;
    while buf[n] != Nul
      invariant n <= NulIndex(buf[..])
      decreases NulIndex(buf[..]) - n
    {
      n := n + 1;
    }
  }

  /**
   * The first loop of `get_operand`: after the first '[' every character up
   * to '*' or ']' that is not a space is compacted to the front of the
   * buffer; a digit there stops the scan (`digit`).
   */
  method ScanBracket(buf: array<char>, i: nat, ghost op: string) returns (found: bool, k: nat, digit: bool)
    requires i < buf.Length && buf[..i] == op && buf[i] == Nul
    requires forall m :: 0 <= m < i ==> op[m] != Nul
    modifies buf
    ensures k <= i && buf[i] == Nul
    ensures forall m :: 0 <= m < k ==> buf[m] != Nul
    ensures digit ==> BracketScan(op, false).None? && '[' in op
    ensures !digit ==> (found <==> '[' in op)
    ensures !digit && found ==> BracketScan(op, false) == Some(buf[..k])
    ensures !found ==> k == 0 && buf[..] == old(buf[..])
  {
    found, k, digit := false, 0, false;
    var j := 0;
    while j < i
      invariant j <= i && k <= j
      invariant !found ==> k == 0
      invariant !found ==> buf[..] == old(buf[..])
      invariant found <==> '[' in op[..j]
      invariant buf[j..i] == op[j..] && buf[i] == Nul
      invariant forall m :: 0 <= m < k ==> buf[m] != Nul
      invariant found ==> BracketScan(op, false) == Prepend(buf[..k], BracketScan(op[j..], true))
      invariant !found ==> BracketScan(op, false) == BracketScan(op[j..], false)
    {
      assert op[j..][1..] == op[j + 1..];
      assert op[..j + 1] == op[..j] + [op[j]];
      assert buf[j] == buf[j..i][0] == op[j];
      assert ('[' in op[..j + 1]) <==> ('[' in op[..j] || op[j] == '[');
      if found {
        if IsDigit(buf[j]) {
          assert '[' in op[..j] && op[..j] <= op;
          digit := true;
          return;
        }
        if buf[j] == '*' || buf[j] == ']' {
          assert buf[..k] + [] == buf[..k];
          assert '[' in op[..j] && op[..j] <= op;
          return;
        }
        if buf[j] != ' ' {
          ghost var before := buf[..k];
          assert BracketScan(op[j..], true) == Prepend([op[j]], BracketScan(op[j + 1..], true));
          PrependTwice(before, [op[j]], BracketScan(op[j + 1..], true));
          buf[k] := buf[j];
          assert buf[..k + 1] == before + [op[j]];
          assert buf[j + 1..i] == op[j + 1..];
          k := k + 1;
        }
      } else if buf[j] == '[' {
        found := true;
        assert buf[..k] == [];
        PrependNothing(BracketScan(op[j + 1..], true));
      }
      j := j + 1;
    }
    assert op[..j] == op && op[j..] == [];
    assert buf[..k] + [] == buf[..k];
  }

  /** The second loop of `get_operand`: drops every space, in place. */
  method StripSpaces(buf: array<char>, i: nat, ghost op: string) returns (k: nat)
    requires i < buf.Length && buf[..i] == op && buf[i] == Nul
    requires forall m :: 0 <= m < i ==> op[m] != Nul
    modifies buf
    ensures k == |RemoveSpaces(op)| && CString(buf[..]) == RemoveSpaces(op)
  {
    k := 0;
    var j := 0;
    while j < i
      invariant j <= i && k <= j
      invariant buf[..k] == RemoveSpaces(op[..j])
      invariant buf[j..i] == op[j..] && buf[i] == Nul
      invariant forall m :: 0 <= m < k ==> buf[m] != Nul
    {
      RemoveSpacesPrefix(op, j);
      if buf[j] != ' ' {
        buf[k] := buf[j];
        k := k + 1;
      }
      j := j + 1;
    }
    assert op[..i] == op;
    buf[k] := Nul;
    NulAfter(buf[..], k);
  }

  /**
   * `get_operand`: classifies the C string in `buf` and, whenever the operand
   * is tracked, leaves the normalised name as the buffer's C string.
   */
  method GetOperand(buf: array?<char>, write: int) returns (code: int)
    requires buf != null ==> HasNul(buf[..])
    modifies buf
    ensures buf == null ==> code == Untracked
    ensures buf != null ==> code == Classify(old(CString(buf[..])), write).code
    ensures buf != null && code != Untracked ==> CString(buf[..]) == Classify(old(CString(buf[..])), write).name
  {
    if buf == null {
      return Untracked;
    }
    ghost var op := CString(buf[..]);
    assert IsDigit(buf[0]) ==> |op| > 0 && op[0] == buf[0];
    if IsDigit(buf[0]) {
      return Untracked;
    }
    var i := StrLen(buf);
    assert buf[..i] == op;
    var found, k, digit := ScanBracket(buf, i, op);
    if digit {
      return Untracked;
    }
    if k > 0 {
      buf[k] := Nul;
      NulAfter(buf[..], k);
    }
    if found && (k > 4 || k < 2) {
      return Untracked;
    }
    if !found {
      k := StripSpaces(buf, i, op);
      if k > 4 || k < 2 {
        return Untracked;
      }
    }
    if found && write == 1 {
      return TrackedAddressWrite;
    }
    if buf[0] == '0' {
      return Untracked;
    }
    return Tracked;
  }

  lemma {:induction false} NulAfter(s: seq<char>, k: nat)
    requires k < |s| && s[k] == Nul && forall m :: 0 <= m < k ==> s[m] != Nul
    ensures NulIndex(s) == k && CString(s) == s[..k]
  {
    if k > 0 {
      NulAfter(s[1..], k - 1);
    }
  }

  // ---- mnemonic dispatch and operand routing of `text_trace_instruction` ----

  /** `strncmp(s, p, |p|) == 0`. */
  predicate HasPrefix(s: string, p: string) {
    |p| <= |s| && s[..|p|] == p
  }

  datatype Family = Arithmetic | Move | Unary | Untraced

  /** The arithmetic and logic mnemonics, as the prefixes `text_trace_instruction` compares against. */
  predicate IsArithmetic(m: string) {
    HasPrefix(m, "add") || HasPrefix(m, "fadd") || HasPrefix(m, "sub") || HasPrefix(m, "fsub")
    || HasPrefix(m, "mul") || HasPrefix(m, "fmul") || HasPrefix(m, "imul") || HasPrefix(m, "lea")
    || HasPrefix(m, "cmp") || HasPrefix(m, "and") || HasPrefix(m, "or") || HasPrefix(m, "xor")
    || HasPrefix(m, "shl") || HasPrefix(m, "shr") || HasPrefix(m, "test")
  }

  /** The family a mnemonic falls in, tested in the order of `text_trace_instruction`'s `strncmp` chain. */
  function FamilyOf(mnemonic: string): Family {
    if IsArithmetic(mnemonic) then Arithmetic
    else if HasPrefix(mnemonic, "mov") || HasPrefix(mnemonic, "movzx") then Move
    else if HasPrefix(mnemonic, "inc") || HasPrefix(mnemonic, "neg") then Unary
    else Untraced
  }

  /** Families that count one instruction of ALU exposure. */
  predicate CountsAlu(f: Family) {
    f == Arithmetic || f == Unary
  }

  /** One call into the register ledger: `read` selects read or write accounting. */
  datatype Access = Access(key: string, read: bool)

  /** An operand token as `get_operand` sees it: missing or too long means untracked. */
  function OperandOf(token: Option<string>, write: int): Classified {
    if token.None? || |token.value| >= 100 then Classified(Untracked, [])
    else
      var c := Classify(token.value, write);
      if c.code == Untracked then Classified(Untracked, []) else c
  }

  predicate NoNul(s: string) {
    forall k :: 0 <= k < |s| ==> s[k] != Nul
  }

  /**
   * The family of an instruction text and its two classified operands: the
   * write (first) operand and the read operand, which for a unary
   * instruction is the first operand again when that is a plain register.
   */
  function Decoded(text: string): (Family, Classified, Classified) {
    var (mnemonic, rest) := StrTok(text, {' '});
    if mnemonic.None? then (Untraced, Classified(Untracked, []), Classified(Untracked, []))
    else
      var family := FamilyOf(mnemonic.value);
      if family == Untraced then (Untraced, Classified(Untracked, []), Classified(Untracked, []))
      else
        var (first, rest') := StrTok(rest, {','});
        var w := OperandOf(first, 1);
        var r :=
          if family == Unary then (if w.code == Tracked then w else Classified(Untracked, []))
          else OperandOf(StrTok(rest', {','}).0, 0);
        (family, w, r)
  }

  /**
   * The register-ledger calls for a write operand `w` and a read operand `r`:
   * a read of `r`, a write of `w` when it is a plain register, and a read of
   * the register `w` addresses through when it is a bracketed address.
   */
  function Accesses(w: Classified, r: Classified): (a: seq<Access>)
    ensures |a| <= 2
    ensures forall k :: 0 <= k < |a| && a[k].read ==>
              (r.code == Tracked && a[k].key == r.name) || (w.code == TrackedAddressWrite && a[k].key == w.name)
    ensures forall k :: 0 <= k < |a| && !a[k].read ==> w.code == Tracked && a[k].key == w.name
    ensures r.code == Tracked ==> |a| > 0 && a[0] == Access(r.name, true)
  {
    (if r.code == Tracked then [Access(r.name, true)] else [])
    + (if w.code == Tracked then [Access(w.name, false)]
       else if w.code == TrackedAddressWrite then [Access(w.name, true)]
       else [])
  }

  /** The instruction's family and the ledger calls it makes, in order. */
  function Route(text: string): (Family, seq<Access>) {
    var d := Decoded(text);
    (d.0, Accesses(d.1, d.2))
  }

  /** `strcpy` of an operand token into a fresh 100-character buffer. */
  method CopyIn(s: string) returns (buf: array<char>)
    requires |s| < 100 && NoNul(s)
    ensures fresh(buf) && buf.Length == 100 && HasNul(buf[..]) && CString(buf[..]) == s
  {
    buf := new char[100](_ => Nul);
    for k := 0 to |s|
      invariant buf[..k] == s[..k]
      invariant forall m :: k <= m < 100 ==> buf[m] == Nul
    {
      buf[k] := s[k];
    }
    assert s[..|s|] == s;
    NulAfter(buf[..], |s|);
  }

  /** Classifies one operand token through a fresh buffer, as `text_trace_instruction` does with `write1`/`read1`. */
  method ExtractOperand(token: Option<string>, write: int) returns (c: Classified)
    requires token.Some? ==> NoNul(token.value)
    ensures c == OperandOf(token, write)
  {
    c := Classified(Untracked, []);
    if token.Some? && |token.value| < 100 {
      var buf := CopyIn(token.value);
      var code := GetOperand(buf, write);
      c := Classified(code, if code != Untracked then CString(buf[..]) else []);
    }
  }

  lemma {:induction false} StrTokNoNul(s: string, delims: set<char>)
    requires NoNul(s)
    ensures StrTok(s, delims).0.Some? ==> NoNul(StrTok(s, delims).0.value)
    ensures NoNul(StrTok(s, delims).1)
  {
    var t := SkipDelims(s, delims);
    if t != [] {
      var i := FirstDelim(t, delims);
      assert t[..i] == s[|s| - |t|..][..i];
    }
  }

  /** Splits the disassembled text and classifies its operands through buffers. */
  method DecodeOperands(text: string) returns (family: Family, w: Classified, r: Classified)
    requires NoNul(text)
    ensures (family, w, r) == Decoded(text)
  {
    var (mnemonic, rest) := StrTok(text, {' '});
    StrTokNoNul(text, {' '});
    w, r := Classified(Untracked, []), Classified(Untracked, []);
    if mnemonic.None? {
      return Untraced, w, r;
    }
    family := FamilyOf(mnemonic.value);
    if family == Untraced {
      return;
    }
    var (first, rest') := StrTok(rest, {','});
    StrTokNoNul(rest, {','});
    w := ExtractOperand(first, 1);
    if family != Unary {
      StrTokNoNul(rest', {','});
      r := ExtractOperand(StrTok(rest', {','}).0, 0);
    } else if w.code == Tracked {
      r := w;
    }
  }

  // ---- properties of the routing ----

  /** Any mnemonic starting with "mov" is a move: the separate "movzx" test never decides anything. */
  lemma {:induction false} MoveFamily(m: string)
    ensures FamilyOf(m) == Move <==> HasPrefix(m, "mov")
  {
    if HasPrefix(m, "mov") {
      assert m[0] == 'm' && m[1] == 'o';
      assert !IsArithmetic(m);
    }
    if HasPrefix(m, "movzx") {
      assert m[..3] == "movzx"[..3];
    }
  }

  /** An instruction outside the traced families leaves the register ledger alone. */
  lemma {:induction false} UntracedNoAccesses(text: string)
    ensures Route(text).0 == Untraced ==> Route(text).1 == []
  {
  }

  /** A unary instruction on a plain register reads it and then writes it back. */
  lemma {:induction false} UnaryReadsThenWrites(text: string)
    requires Decoded(text).0 == Unary && Decoded(text).1.code == Tracked
    ensures Route(text).1 == [Access(Decoded(text).1.name, true), Access(Decoded(text).1.name, false)]
  {
  }

  /**
   * A second operand written after ", " starts with a space, so the digit
   * test on its first character does not see a following decimal immediate:
   * " 12" is accepted as the register name "12".
   */
  lemma {:induction false} SpacedImmediateAccepted()
    ensures Classify(" 12", 0) == Classified(Tracked, "12")
  {
    assert RemoveSpaces(" 12"[..2]) == "1" by {
      assert " 12"[..2][..1] == " ";
      assert RemoveSpaces(" 12"[..2][..1]) == [] by {
        assert " 12"[..2][..1][..0] == [];
      }
    }
    assert " 12"[..3] == " 12";
  }

  // ---- what `get_operand` decides, by the shape of the operand ----

  /** Characters the bracket scan keeps going over: no digit, no `*`, no `]`. */
  predicate Inside(mid: string) {
    forall k :: 0 <= k < |mid| ==> !IsDigit(mid[k]) && mid[k] != '*' && mid[k] != ']'
  }

  lemma {:induction false} RemoveSpacesCons(c: char, s: string)
    ensures RemoveSpaces([c] + s) == (if c != ' ' then [c] else []) + RemoveSpaces(s)
    decreases |s|
  {
    if s == [] {
      assert [c] + s == [c];
      assert [c][..0] == [];
    } else {
      var t := s[..|s| - 1];
      assert ([c] + s)[..|s|] == [c] + t;
      assert ([c] + s)[|s|] == s[|s| - 1];
      RemoveSpacesCons(c, t);
    }
  }

  /** Nothing before the first `[` is kept. */
  lemma {:induction false} BracketScanSkip(pre: string, rest: string)
    requires '[' !in pre
    ensures BracketScan(pre + rest, false) == BracketScan(rest, false)
    decreases |pre|
  {
    if pre != [] {
      assert (pre + rest)[1..] == pre[1..] + rest;
      assert (pre + rest)[0] == pre[0] && pre[0] in pre;
      assert '[' !in pre[1..] by {
        forall k | 0 <= k < |pre[1..]| ensures pre[1..][k] != '[' {
          assert pre[1..][k] == pre[k + 1];
        }
      }
      BracketScanSkip(pre[1..], rest);
    } else {
      assert pre + rest == rest;
    }
  }

  /** After the `[`, the characters up to a digit, `*` or `]` are kept with their spaces dropped. */
  lemma {:induction false} BracketScanInside(mid: string, tail: string)
    requires Inside(mid)
    ensures BracketScan(mid + tail, true) == Prepend(RemoveSpaces(mid), BracketScan(tail, true))
    decreases |mid|
  {
    if mid == [] {
      assert mid + tail == tail;
      PrependNothing(BracketScan(tail, true));
    } else {
      var c := mid[0];
      assert (mid + tail)[1..] == mid[1..] + tail;
      assert (mid + tail)[0] == c;
      assert Inside(mid[1..]) by {
        forall k | 0 <= k < |mid[1..]| ensures !IsDigit(mid[1..][k]) && mid[1..][k] != '*' && mid[1..][k] != ']' {
          assert mid[1..][k] == mid[k + 1];
        }
      }
      BracketScanInside(mid[1..], tail);
      assert [c] + mid[1..] == mid;
      RemoveSpacesCons(c, mid[1..]);
      if c != ' ' {
        PrependTwice([c], RemoveSpaces(mid[1..]), BracketScan(tail, true));
      } else {
        assert RemoveSpaces(mid) == [] + RemoveSpaces(mid[1..]);
        assert [] + RemoveSpaces(mid[1..]) == RemoveSpaces(mid[1..]);
      }
    }
  }

  /**
   * A bracketed operand `pre[mid` followed by `*`, `]` or its end: the name
   * is `mid` with its spaces removed; in write position a name of 2 to 4
   * characters gives 2, in read position it is tracked unless it starts
   * with `0`, and any other length gives 1.
   */
  lemma {:induction false} ClassifyBracketed(op: string, pre: string, mid: string, post: string, write: int)
    requires op == pre + "[" + mid + post && '[' !in pre && Inside(mid)
    requires post == [] || post[0] == '*' || post[0] == ']'
    ensures BracketScan(op, false) == Some(RemoveSpaces(mid))
    ensures !IsDigit(op[0]) ==>
              var r := Classify(op, write);
              var name := RemoveSpaces(mid);
              && (r.code == TrackedAddressWrite <==> write == 1 && 2 <= |name| <= 4)
              && (r.code == Tracked <==> write != 1 && 2 <= |name| <= 4 && name[0] != '0')
              && (r.code != Untracked ==> r.name == name)
  {
    assert op == pre + ("[" + mid + post);
    BracketScanSkip(pre, "[" + mid + post);
    assert ("[" + mid + post)[1..] == mid + post;
    BracketScanInside(mid, post);
    assert BracketScan(post, true) == Some([]);
    assert RemoveSpaces(mid) + [] == RemoveSpaces(mid);
    assert op[|pre|] == '[';
  }

  /** A digit met after the `[` before any `*` or `]` makes the operand untracked. */
  lemma {:induction false} ClassifyDigitInBracket(op: string, pre: string, mid: string, d: char, post: string,
                                                  write: int)
    requires op == pre + "[" + mid + [d] + post && '[' !in pre && Inside(mid) && IsDigit(d)
    ensures Classify(op, write).code == Untracked
  {
    assert op == pre + ("[" + mid + ([d] + post));
    BracketScanSkip(pre, "[" + mid + ([d] + post));
    assert ("[" + mid + ([d] + post))[1..] == mid + ([d] + post);
    BracketScanInside(mid, [d] + post);
    assert BracketScan([d] + post, true) == None;
    assert op[|pre|] == '[';
  }

  /**
   * An operand with no `[` that does not start with a digit: the name is the
   * operand with every space removed, tracked exactly when it has 2 to 4
   * characters and does not start with `0`; it is never given 2.
   */
  lemma {:induction false} ClassifyPlain(op: string, write: int)
    requires '[' !in op && !(|op| > 0 && IsDigit(op[0]))
    ensures var r := Classify(op, write);
            var name := RemoveSpaces(op);
            && r.code != TrackedAddressWrite
            && (r.code == Tracked <==> 2 <= |name| <= 4 && name[0] != '0')
            && r.name == name
  {
  }
}
