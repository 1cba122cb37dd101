/**
 * The trace checker of diff_nes_log.py: two line formats parsed into one
 * instruction record, a field-by-field comparison with a severity, and the
 * run loop that counts divergences, reports each new one with its context
 * and stops at the first program-counter mismatch.
 */
module TraceDiff {
  import opened Common

  // ---------------------------------------------------------------------
  // Python string primitives
  // ---------------------------------------------------------------------

  /** The characters Python's `str.split()` treats as whitespace (ASCII and Latin-1 part). */
  predicate IsSpace(c: char) {
    c == ' ' || ('\t' <= c <= '\r') || ('\U{1C}' <= c <= '\U{1F}') || c == '\U{85}' || c == '\U{A0}'
  }

  /** Length of the run of non-whitespace characters that starts `s`. */
  function TokenLength(s: string): (n: nat)
    ensures n <= |s|
    ensures forall k :: 0 <= k < n ==> !IsSpace(s[k])
    ensures n < |s| ==> IsSpace(s[n])
  {
    if s == [] || IsSpace(s[0]) then 0 else 1 + TokenLength(s[1..])
  }

  /** A token of `str.split()`: a non-empty run without whitespace. */
  predicate IsToken(t: string) {
    t != [] && forall k :: 0 <= k < |t| ==> !IsSpace(t[k])
  }

  /** `s.split()`: the maximal runs of non-whitespace characters, in order. */
  function Split(s: string): (r: seq<string>)
    ensures forall i :: 0 <= i < |r| ==> IsToken(r[i])
    decreases |s|
  {
    if s == [] then []
    else if IsSpace(s[0]) then Split(s[1..])
    else
      var n := TokenLength(s);
      [s[..n]] + Split(s[n..])
  }

  /** A token ends no later for what follows it when that starts with
    * whitespace. */
  lemma {:induction false} TokenLengthBefore(a: string, r: string)
    requires r != [] && IsSpace(r[0])
    ensures TokenLength(a + r) == TokenLength(a)
    decreases |a|
  {
    if a == [] {
      assert a + r == r;
    } else {
      assert (a + r)[0] == a[0] && (a + r)[1..] == a[1..] + r;
      TokenLengthBefore(a[1..], r);
    }
  }

  /** A whitespace character separates tokens: splitting around it splits
    * the two sides on their own. */
  lemma {:induction false} SplitAtSpace(a: string, c: char, b: string)
    requires IsSpace(c)
    ensures Split(a + [c] + b) == Split(a) + Split(b)
    decreases |a|
  {
    var r := [c] + b;
    assert a + [c] + b == a + r;
    if a == [] {
      assert r[1..] == b;
    } else if IsSpace(a[0]) {
      SplitAtSpace(a[1..], c, b);
      assert (a + r)[0] == a[0] && (a + r)[1..] == a[1..] + [c] + b;
    } else {
      SplitAtSpace(a[TokenLength(a)..], c, b);
      SplitAfterToken(a, c, b);
    }
  }

  /** The step of `SplitAtSpace` for a string that opens with a token. */
  lemma SplitAfterToken(a: string, c: char, b: string)
    requires IsSpace(c) && a != [] && !IsSpace(a[0])
    requires Split(a[TokenLength(a)..] + [c] + b) == Split(a[TokenLength(a)..]) + Split(b)
    ensures Split(a + [c] + b) == Split(a) + Split(b)
  {
    var m := TokenLength(a);
    FirstTokenBeforeSpace(a, c, b);
    assert Split(a) == [a[..m]] + Split(a[m..]);
    Regroup(a[..m], Split(a[m..]), Split(b));
  }

  /** A token that ends inside `a` or at the whitespace after it is the
    * first token of the whole string. */
  lemma FirstTokenBeforeSpace(a: string, c: char, b: string)
    requires IsSpace(c) && a != [] && !IsSpace(a[0])
    ensures Split(a + [c] + b) == [a[..TokenLength(a)]] + Split(a[TokenLength(a)..] + [c] + b)
  {
    var m, s := TokenLength(a), a + ([c] + b);
    assert s == a + [c] + b;
    TokenLengthBefore(a, [c] + b);
    assert s[0] == a[0] && s[..m] == a[..m] && s[m..] == a[m..] + [c] + b;
  }

  lemma Regroup<T>(x: T, p: seq<T>, q: seq<T>)
    ensures ([x] + p) + q == [x] + (p + q)
  {
  }

  /** A string without whitespace is one run to its end. */
  lemma {:induction false} TokenLengthWhole(t: string)
    requires forall k :: 0 <= k < |t| ==> !IsSpace(t[k])
    ensures TokenLength(t) == |t|
  {
    if t != [] {
      TokenLengthWhole(t[1..]);
    }
  }

  /** A non-empty run without whitespace is a single token. */
  lemma SplitToken(t: string)
    requires t != [] && forall k :: 0 <= k < |t| ==> !IsSpace(t[k])
    ensures Split(t) == [t]
  {
    TokenLengthWhole(t);
    assert t[..|t|] == t;
    assert t[|t|..] == [];
  }

  /** A blank string has no tokens. */
  lemma {:induction false} SplitBlank(s: string)
    requires forall k :: 0 <= k < |s| ==> IsSpace(s[k])
    ensures Split(s) == []
    decreases |s|
  {
    if s != [] {
      SplitBlank(s[1..]);
    }
  }

  /** The characters of `s` that are not whitespace, in order. */
  function NonSpace(s: string): string {
    if s == [] then [] else (if IsSpace(s[0]) then [] else [s[0]]) + NonSpace(s[1..])
  }

  function Flatten(ts: seq<string>): string {
    if ts == [] then [] else ts[0] + Flatten(ts[1..])
  }

  lemma {:induction false} NonSpaceAppend(a: string, b: string)
    ensures NonSpace(a + b) == NonSpace(a) + NonSpace(b)
  {
    if a == [] {
      assert a + b == b;
    } else {
      assert (a + b)[1..] == a[1..] + b;
      NonSpaceAppend(a[1..], b);
    }
  }

  lemma {:induction false} NonSpaceOfToken(t: string)
    requires forall k :: 0 <= k < |t| ==> !IsSpace(t[k])
    ensures NonSpace(t) == t
  {
    if t != [] {
      NonSpaceOfToken(t[1..]);
    }
  }

  /** Splitting loses exactly the whitespace: the tokens put back together are the non-blank text. */
  lemma {:induction false} SplitKeepsText(s: string)
    ensures Flatten(Split(s)) == NonSpace(s)
    decreases |s|
  {
    if s == [] {
    } else if IsSpace(s[0]) {
      SplitKeepsText(s[1..]);
    } else {
      var n := TokenLength(s);
      SplitKeepsText(s[n..]);
      assert s == s[..n] + s[n..];
      NonSpaceAppend(s[..n], s[n..]);
      NonSpaceOfToken(s[..n]);
      assert Split(s) == [s[..n]] + Split(s[n..]);
      assert ([s[..n]] + Split(s[n..]))[1..] == Split(s[n..]);
    }
  }

  /** `s.split(sep)` for a one-character separator. */
  function SplitOn(s: string, sep: char): (r: seq<string>)
    ensures |r| >= 1
    ensures |r| == 1 <==> sep !in s
    ensures forall t :: t in r ==> sep !in t
  {
    if s == [] then [""]
    else
      var rest := SplitOn(s[1..], sep);
      assert s == [s[0]] + s[1..];
      if s[0] == sep then [""] + rest
      else [[s[0]] + rest[0]] + rest[1..]
  }

  /** `sep.join(ts)`. */
  function Join(ts: seq<string>, sep: char): string
    requires |ts| >= 1
  {
    if |ts| == 1 then ts[0] else ts[0] + [sep] + Join(ts[1..], sep)
  }

  /** Splitting on a separator and joining back with it gives the string again. */
  lemma {:induction false} SplitOnJoin(s: string, sep: char)
    ensures Join(SplitOn(s, sep), sep) == s
  {
    if s != [] {
      var rest := SplitOn(s[1..], sep);
      SplitOnJoin(s[1..], sep);
      assert s == [s[0]] + s[1..];
      if s[0] == sep {
        assert ([""] + rest)[1..] == rest;
      } else {
        JoinFirst(s[0], rest, sep);
      }
    }
  }

  /** Putting a character in front of the first piece puts it in front of the join. */
  lemma JoinFirst(c: char, ts: seq<string>, sep: char)
    requires |ts| >= 1
    ensures Join([[c] + ts[0]] + ts[1..], sep) == [c] + Join(ts, sep)
  {
    var r := [[c] + ts[0]] + ts[1..];
    if |ts| > 1 {
      assert r[1..] == ts[1..];
    }
  }

  /** `str.upper()` on one character (ASCII letters only). */
  function UpperChar(c: char): char {
    if 'a' <= c <= 'z' then (c as int - 32) as char else c
  }

  /** `s.upper()`: every lower-case letter becomes its capital, every other
    * character is kept, and no lower-case letter is left. */
  function Upper(s: string): (r: string)
    ensures |r| == |s|
    ensures forall k :: 0 <= k < |s| ==>
      if 'a' <= s[k] <= 'z' then r[k] as int == s[k] as int - 32 else r[k] == s[k]
    ensures forall k :: 0 <= k < |r| ==> !('a' <= r[k] <= 'z')
  {
    seq(|s|, k requires 0 <= k < |s| => UpperChar(s[k]))
  }

  /** Upper-casing twice is upper-casing once. */
  lemma UpperIdempotent(s: string)
    ensures Upper(Upper(s)) == Upper(s)
  {
  }

  /** `tok.split(sep)[1]`, the text between the first separator and the next one. */
  function Field(tok: string, sep: char): string
    requires sep in tok
  {
    SplitOn(tok, sep)[1]
  }

  /** `s.split('\n')[0]`: the text before the first newline. */
  function FirstLine(s: string): string {
    SplitOn(s, '\n')[0]
  }

  // ---------------------------------------------------------------------
  // The instruction record and the two parsers
  // ---------------------------------------------------------------------

  /** One traced CPU step; every field holds the text the trace line gave for it. */
  datatype Instruction = Instruction(
    pc: string, x: string, y: string, a: string, p: string, sp: string,
    op1: string, op2: string, opcode: string, ppu: string, cycle: string, instr: string)

  /**
   * Outcome of running a parser on one line: the record, or the exception
   * Python raises (an index out of range), `echoed` telling whether the
   * line was printed just before it.
   */
  datatype Parse = Parsed(ins: Instruction) | Crashed(echoed: bool)

  /** `tokens[-k]`. */
  function FromEnd(ts: seq<string>, k: nat): string
    requires 1 <= k <= |ts|
  {
    ts[|ts| - k]
  }

  /** Tokens -lo .. -hi all exist and hold `sep`. */
  predicate SepsFromEnd(ts: seq<string>, lo: nat, hi: nat, sep: char) {
    1 <= lo && hi <= |ts| && forall k :: lo <= k <= hi ==> sep in FromEnd(ts, k)
  }

  /**
   * `Instruction.from_log` on the whitespace-split line.  Indexing `log[-8]`
   * needs eight tokens (all earlier indexing needs fewer), each of the
   * tokens -4 .. -8 must hold a colon, and the line is echoed only when
   * -4 .. -7 have one and -8 has none.
   */
  function ParseLog(log: seq<string>): (r: Parse)
    ensures r.Parsed? <==> SepsFromEnd(log, 4, 8, ':')
    ensures r == Crashed(true) <==> SepsFromEnd(log, 4, 7, ':') && |log| >= 8 && ':' !in FromEnd(log, 8)
    ensures r.Parsed? ==>
      && r.ins.op1 == (if |log[2]| == 2 then log[2] else "")
      && r.ins.op2 == (if |log[3]| == 2 then log[3] else "")
      && r.ins.instr == log[2 + (if |log[2]| == 2 then 1 else 0) + (if |log[3]| == 2 then 1 else 0)]
      && r.ins.pc == log[0] && r.ins.opcode == log[1]
      && r.ins.a == Upper(Field(FromEnd(log, 8), ':'))
      && r.ins.x == Upper(Field(FromEnd(log, 7), ':'))
      && r.ins.y == Upper(Field(FromEnd(log, 6), ':'))
      && r.ins.p == Upper(Field(FromEnd(log, 5), ':'))
      && r.ins.sp == Upper(Field(FromEnd(log, 4), ':'))
      && r.ins.ppu == FromEnd(log, 2) && r.ins.cycle == FromEnd(log, 1)
  {
    if |log| < 8 || !SepsFromEnd(log, 4, 7, ':') then
      Crashed(false)
    else if ':' !in FromEnd(log, 8) then
      Crashed(true)
    else
      var has1 := |log[2]| == 2;
      var has2 := |log[3]| == 2;
      var nbOpcode := (if has1 then 1 else 0) + (if has2 then 1 else 0);
      Parsed(Instruction(
        pc := log[0],
        x := Upper(Field(FromEnd(log, 7), ':')),
        y := Upper(Field(FromEnd(log, 6), ':')),
        a := Upper(Field(FromEnd(log, 8), ':')),
        p := Upper(Field(FromEnd(log, 5), ':')),
        sp := Upper(Field(FromEnd(log, 4), ':')),
        op1 := if has1 then log[2] else "",
        op2 := if has2 then log[3] else "",
        opcode := log[1],
        ppu := FromEnd(log, 2),
        cycle := FromEnd(log, 1),
        instr := log[nbOpcode + 2]))
  }

  /** `Instruction.from_log`. */
  function FromLog(line: string): Parse {
    ParseLog(Split(line))
  }

  /**
   * `Instruction.from_out` on the whitespace-split line.  Token 0 and,
   * depending on the token count, tokens 2 and 3 must hold an `x`; then
   * tokens -4 .. -8 must exist and hold one; the line is echoed when token
   * -4 exists without an `x`.
   */
  function ParseOut(out: seq<string>): (r: Parse)
    ensures r.Parsed? <==>
      && |out| >= 1 && 'x' in out[0]
      && (|out| >= 11 ==> 'x' in out[2]) && (|out| == 12 ==> 'x' in out[3])
      && SepsFromEnd(out, 4, 8, 'x')
    ensures r == Crashed(true) <==>
      && |out| >= 4 && 'x' in out[0]
      && (|out| >= 11 ==> 'x' in out[2]) && (|out| == 12 ==> 'x' in out[3])
      && 'x' !in FromEnd(out, 4)
    ensures r.Parsed? ==>
      && r.ins.pc == Upper(Field(out[0], 'x'))
      && r.ins.op1 == (if |out| >= 11 then Upper(Field(out[2], 'x')) else "")
      && r.ins.op2 == (if |out| == 12 then Upper(Field(out[3], 'x')) else "")
      && r.ins.a == Upper(Field(FromEnd(out, 8), 'x'))
      && r.ins.x == Upper(Field(FromEnd(out, 7), 'x'))
      && r.ins.y == Upper(Field(FromEnd(out, 6), 'x'))
      && r.ins.p == Upper(Field(FromEnd(out, 5), 'x'))
      && r.ins.sp == Upper(Field(FromEnd(out, 4), 'x'))
      && r.ins.ppu == FromEnd(out, 2) && r.ins.cycle == FromEnd(out, 1)
      && r.ins.opcode == "" && r.ins.instr == ""
  {
    if |out| < 1 || 'x' !in out[0] then Crashed(false)
    else if |out| >= 11 && 'x' !in out[2] then Crashed(false)
    else if |out| == 12 && 'x' !in out[3] then Crashed(false)
    else if |out| < 4 then Crashed(false)
    else if 'x' !in FromEnd(out, 4) then Crashed(true)
    else if !SepsFromEnd(out, 4, 8, 'x') then Crashed(false)
    else
      Parsed(Instruction(
        pc := Upper(Field(out[0], 'x')),
        x := Upper(Field(FromEnd(out, 7), 'x')),
        y := Upper(Field(FromEnd(out, 6), 'x')),
        a := Upper(Field(FromEnd(out, 8), 'x')),
        p := Upper(Field(FromEnd(out, 5), 'x')),
        sp := Upper(Field(FromEnd(out, 4), 'x')),
        op1 := if |out| >= 11 then Upper(Field(out[2], 'x')) else "",
        op2 := if |out| == 12 then Upper(Field(out[3], 'x')) else "",
        opcode := "",
        ppu := FromEnd(out, 2),
        cycle := FromEnd(out, 1),
        instr := ""))
  }

  /** `Instruction.from_out`. */
  function FromOut(line: string): Parse {
    ParseOut(Split(line))
  }

  /** In the candidate format a second operand never comes without a first. */
  lemma FromOutOperands(out: seq<string>)
    requires ParseOut(out).Parsed? && ParseOut(out).ins.op2 != ""
    ensures |out| == 12 && ParseOut(out).ins.op1 == Upper(Field(out[2], 'x'))
  {
  }

  // ---------------------------------------------------------------------
  // Comparison
  // ---------------------------------------------------------------------

  /** The `(severity, message)` pair `cmp` returns. */
  datatype Verdict = Verdict(severity: int, message: string)

  /** The report label of each compared field, in the order `cmp` visits them. */
  function Labels(): seq<string> {
    [" OP1: ", " OP2: ", " A: ", " X: ", " Y: ", " SP: ", " P: ", " cycle: ", " PPU: "]
  }

  /** The compared fields of a record, in the order of `Labels()`. */
  function Fields(i: Instruction): (r: seq<string>)
    ensures |r| == |Labels()|
  {
    [i.op1, i.op2, i.a, i.x, i.y, i.sp, i.p, i.cycle, i.ppu]
  }

  /** Some compared field other than the PC differs. */
  predicate FieldsDiffer(self: Instruction, other: Instruction) {
    exists k :: 0 <= k < |Labels()| && Fields(self)[k] != Fields(other)[k]
  }

  /** The report fragment of field `k`: empty when the field matches. */
  function Fragment(self: Instruction, other: Instruction, k: nat): string
    requires k < |Labels()|
  {
    if Fields(self)[k] == Fields(other)[k] then ""
    else Labels()[k] + Fields(self)[k] + " " + Fields(other)[k]
  }

  /** The fragments of the first `k` fields, concatenated in order. */
  function DiffText(self: Instruction, other: Instruction, k: nat): string
    requires k <= |Labels()|
  {
    if k == 0 then "" else DiffText(self, other, k - 1) + Fragment(self, other, k - 1)
  }

  /** The severity-2 prefix of the message. */
  function PcText(self: Instruction, other: Instruction): string {
    "PC: " + self.pc + " " + other.pc
  }

  /** One field test of `cmp`: a difference raises severity 1 and appends its fragment. */
  function Check(e: Verdict, name: string, mine: string, theirs: string): Verdict {
    if mine != theirs then Verdict(1, e.message + (name + mine + " " + theirs)) else e
  }

  /** A field test extends the message by the field's fragment. */
  lemma CheckStep(self: Instruction, other: Instruction, k: nat, e: Verdict)
    requires k < |Labels()| && e.message == DiffText(self, other, k)
    ensures Check(e, Labels()[k], Fields(self)[k], Fields(other)[k]).message == DiffText(self, other, k + 1)
    ensures Check(e, Labels()[k], Fields(self)[k], Fields(other)[k]).severity
      == if Fields(self)[k] != Fields(other)[k] then 1 else e.severity
  {
  }

  /**
   * `Instruction.cmp`: `self` is the candidate record, `other` the
   * reference one.  The PC decides severity 2 whatever the other fields
   * say; otherwise severity 1 means some field differs and 0 that all
   * match; the message lists every differing field in the fixed order.
   */
  function Cmp(self: Instruction, other: Instruction): (r: Verdict)
    ensures r.severity == 2 <==> self.pc != other.pc
    ensures r.severity == 1 <==> self.pc == other.pc && FieldsDiffer(self, other)
    ensures r.severity == 0 <==> self.pc == other.pc && !FieldsDiffer(self, other)
    ensures r.message == (if self.pc != other.pc then PcText(self, other) else "") + DiffText(self, other, |Labels()|)
  {
    var e0 := Verdict(0, "");
    var e1 := Check(e0, " OP1: ", self.op1, other.op1);
    CheckStep(self, other, 0, e0);
    var e2 := Check(e1, " OP2: ", self.op2, other.op2);
    CheckStep(self, other, 1, e1);
    var e3 := Check(e2, " A: ", self.a, other.a);
    CheckStep(self, other, 2, e2);
    var e4 := Check(e3, " X: ", self.x, other.x);
    CheckStep(self, other, 3, e3);
    var e5 := Check(e4, " Y: ", self.y, other.y);
    CheckStep(self, other, 4, e4);
    var e6 := Check(e5, " SP: ", self.sp, other.sp);
    CheckStep(self, other, 5, e5);
    var e7 := Check(e6, " P: ", self.p, other.p);
    CheckStep(self, other, 6, e6);
    var e8 := Check(e7, " cycle: ", self.cycle, other.cycle);
    CheckStep(self, other, 7, e7);
    var e9 := Check(e8, " PPU: ", self.ppu, other.ppu);
    CheckStep(self, other, 8, e8);
    FieldsDifferUnfolded(self, other);
    if self.pc != other.pc then Verdict(2, ("PC: " + self.pc + " " + other.pc) + e9.message) else e9
  }

  lemma FieldsDifferUnfolded(self: Instruction, other: Instruction)
    ensures FieldsDiffer(self, other) <==>
      self.op1 != other.op1 || self.op2 != other.op2 || self.a != other.a || self.x != other.x
      || self.y != other.y || self.sp != other.sp || self.p != other.p || self.cycle != other.cycle
      || self.ppu != other.ppu
  {
    var fs, fo := Fields(self), Fields(other);
    if self.op1 != other.op1 { assert fs[0] != fo[0]; }
    if self.op2 != other.op2 { assert fs[1] != fo[1]; }
    if self.a != other.a { assert fs[2] != fo[2]; }
    if self.x != other.x { assert fs[3] != fo[3]; }
    if self.y != other.y { assert fs[4] != fo[4]; }
    if self.sp != other.sp { assert fs[5] != fo[5]; }
    if self.p != other.p { assert fs[6] != fo[6]; }
    if self.cycle != other.cycle { assert fs[7] != fo[7]; }
    if self.ppu != other.ppu { assert fs[8] != fo[8]; }
  }

  /** The fragments of matching fields are empty, so matching records give an empty text. */
  lemma {:induction false} DiffTextEmpty(self: Instruction, other: Instruction, k: nat)
    requires k <= |Labels()|
    ensures DiffText(self, other, k) == "" <==> forall j :: 0 <= j < k ==> Fields(self)[j] == Fields(other)[j]
  {
    if k > 0 {
      DiffTextEmpty(self, other, k - 1);
      if Fields(self)[k - 1] != Fields(other)[k - 1] {
        assert |Labels()[k - 1]| > 0;
      }
    }
  }

  /** A record compared with itself matches, with an empty message. */
  lemma CmpReflexive(i: Instruction)
    ensures Cmp(i, i) == Verdict(0, "")
  {
    DiffTextEmpty(i, i, |Labels()|);
  }

  /** The message is empty exactly when the records match. */
  lemma CmpMessageEmpty(self: Instruction, other: Instruction)
    ensures Cmp(self, other).message == "" <==> Cmp(self, other).severity == 0
  {
    DiffTextEmpty(self, other, |Labels()|);
  }

  // ---------------------------------------------------------------------
  // The run loop
  // ---------------------------------------------------------------------

  /** What the loop body computes at index `i`, before reporting. */
  datatype Step = Compared(v: Verdict) | Failed(echo: Option<string>)

  /**
   * Index `i` of the loop: `log_lines[i]` must exist, then the reference
   * line is parsed, then the candidate line, then they are compared.
   */
  function StepAt(logLines: seq<string>, outLines: seq<string>, i: nat): Step
    requires i < |outLines|
  {
    if i >= |logLines| then Failed(None)
    else match FromLog(logLines[i])
      case Crashed(e) => Failed(if e then Some(logLines[i]) else None)
      case Parsed(l) =>
        match FromOut(outLines[i])
        case Crashed(e) => Failed(if e then Some(outLines[i]) else None)
        case Parsed(o) => Compared(Cmp(o, l))
  }

  /** Index `i` of the loop computes `step`. */
  predicate StepIs(logLines: seq<string>, outLines: seq<string>, i: nat, step: Step) {
    i < |outLines| && forall k {:trigger StepAt(logLines, outLines, k)} :: 0 <= k < |outLines| && k == i ==> StepAt(logLines, outLines, k) == step
  }

  /**
   * The loop body at index `i` up to `cmp`: the bounds check on
   * `log_lines`, the two parsers (with the line a parser echoes before an
   * uncaught `IndexError` ends the script) and the comparison.
   */
  method CompareAt(logLines: seq<string>, outLines: seq<string>, i: nat) returns (step: Step)
    requires i < |outLines|
    ensures StepIs(logLines, outLines, i, step)
    ensures step.Compared? ==> i < |logLines|
  {
    if i >= |logLines| {
      return Failed(None);
    }
    var log := FromLog(logLines[i]);
    if log.Crashed? {
      return Failed(if log.echoed then Some(logLines[i]) else None);
    }
    var out := FromOut(outLines[i]);
    if out.Crashed? {
      return Failed(if out.echoed then Some(outLines[i]) else None);
    }
    return Compared(Cmp(out.ins, log.ins));
  }

  /** `verdicts` are the verdicts of the first `|verdicts|` indices, each of which was compared. */
  predicate ComparedAs(logLines: seq<string>, outLines: seq<string>, verdicts: seq<Verdict>) {
    |verdicts| <= |outLines|
    && forall j {:trigger StepAt(logLines, outLines, j)} :: 0 <= j < |verdicts| ==> StepAt(logLines, outLines, j) == Compared(verdicts[j])
  }

  /** The verdict the loop remembers when it reaches `i`: `(0, "")` at the start. */
  function PrevVerdict(verdicts: seq<Verdict>, i: nat): Verdict
    requires i <= |verdicts|
  {
    if i == 0 then Verdict(0, "") else verdicts[i - 1]
  }

  /** `lines[i]` with Python's wrap-around for negative indices. */
  function PyAt(lines: seq<string>, i: int): string
    requires -|lines| <= i < |lines|
  {
    if i < 0 then lines[|lines| + i] else lines[i]
  }

  /** The five context lines printed for a new divergence at `i`. */
  function Context(logLines: seq<string>, outLines: seq<string>, i: nat, message: string): seq<string>
    requires i < |logLines| && i < |outLines|
  {
    [ Decimal(i) + " " + FirstLine(PyAt(logLines, i - 1)),
      Decimal(i) + " " + FirstLine(PyAt(outLines, i - 1)),
      message,
      Decimal(i + 1) + " " + FirstLine(logLines[i]),
      Decimal(i + 1) + " " + FirstLine(outLines[i]) ]
  }

  /**
   * What index `i` prints: nothing for a match; for a divergence an empty
   * line, preceded by the context only when the verdict differs from the
   * previous index's verdict.
   */
  function Report(logLines: seq<string>, outLines: seq<string>, verdicts: seq<Verdict>, i: nat): seq<string>
    requires i < |verdicts| && i < |logLines| && i < |outLines|
  {
    var v := verdicts[i];
    if v.severity == 0 then []
    else if v != PrevVerdict(verdicts, i) then Context(logLines, outLines, i, v.message) + [""]
    else [""]
  }

  /** Everything printed by the first `n` compared indices. */
  function ReportsBefore(logLines: seq<string>, outLines: seq<string>, verdicts: seq<Verdict>, n: nat): seq<string>
    requires n <= |verdicts| && n <= |logLines| && n <= |outLines|
  {
    if n == 0 then [] else ReportsBefore(logLines, outLines, verdicts, n - 1) + Report(logLines, outLines, verdicts, n - 1)
  }

  /** The number of divergent verdicts among the first `n`. */
  function ErrorsBefore(verdicts: seq<Verdict>, n: nat): (r: nat)
    requires n <= |verdicts|
    ensures r <= n
  {
    if n == 0 then 0
    else ErrorsBefore(verdicts, n - 1) + (if verdicts[n - 1].severity != 0 then 1 else 0)
  }

  /** Index `j` went on to the next one: no PC mismatch and not the last reference line. */
  predicate ContinuedAt(logLines: seq<string>, verdicts: seq<Verdict>, j: nat)
    requires j < |verdicts|
  {
    verdicts[j].severity != 2 && j != |logLines| - 1
  }

  /** How the loop ended, with the index of its last iteration. */
  datatype Stop =
    | Exhausted          // every index of `range(0, len(out_lines) - 1)` was visited
    | Congrats(at: nat)  // `i == len(log_lines) - 1`: success message printed
    | Desync(at: nat)    // severity 2: the program counters differ
    | Crash(at: nat, echo: Option<string>)  // an index error or a parser exception, after echoing `echo`

  /** The number of loop indices that reached `cmp`. */
  function Compares(stop: Stop, outLines: seq<string>): nat {
    match stop
    case Exhausted => if |outLines| >= 1 then |outLines| - 1 else 0
    case Congrats(k) => k + 1
    case Desync(k) => k + 1
    case Crash(k, _) => k
  }

  /** The number of loop indices that went on to the next one. */
  function Continued(stop: Stop, outLines: seq<string>): nat {
    match stop
    case Exhausted => if |outLines| >= 1 then |outLines| - 1 else 0
    case Congrats(k) => k
    case Desync(k) => k
    case Crash(k, _) => k
  }

  /** What is printed after the reports: the success message, the echoed line, or nothing. */
  function Epilogue(stop: Stop): seq<string> {
    match stop
    case Congrats(_) => ["Congrats!!!"]
    case Crash(_, Some(line)) => [line]
    case _ => []
  }

  /**
   * What the loop has established on reaching index `i`: indices `0 .. i-1`
   * had the verdicts `verdicts` and all went on, the remembered verdict is
   * the previous one, and the error count and the printed lines are those
   * of the indices before `i`.
   */
  predicate Progress(logLines: seq<string>, outLines: seq<string>, verdicts: seq<Verdict>, i: nat,
                     lastError: Verdict, nbError: nat, output: seq<string>)
  {
    && |verdicts| == i && i <= |logLines| && (i == 0 || i < |outLines|)
    && (forall j :: 0 <= j < i ==> ContinuedAt(logLines, verdicts, j))
    && lastError == PrevVerdict(verdicts, i)
    && nbError == ErrorsBefore(verdicts, i)
    && output == ReportsBefore(logLines, outLines, verdicts, i)
  }

  /**
   * The outcome of a whole run with the verdicts `verdicts`: all but the
   * stopping index went on, the stop has its cause, the error count covers
   * every compared index and the output is the reports of those indices
   * followed by the success message or the echoed line.
   */
  predicate Finished(logLines: seq<string>, outLines: seq<string>, verdicts: seq<Verdict>,
                     nbError: nat, output: seq<string>, stop: Stop)
  {
    && |verdicts| == Compares(stop, outLines) && |verdicts| <= |logLines| && |verdicts| <= |outLines|
    && Continued(stop, outLines) <= |verdicts|
    && (!stop.Exhausted? ==> stop.at + 1 < |outLines|)
    && (forall j :: 0 <= j < Continued(stop, outLines) ==> ContinuedAt(logLines, verdicts, j))
    && (stop.Desync? ==> verdicts[stop.at].severity == 2)
    && (stop.Congrats? ==> stop.at == |logLines| - 1 && verdicts[stop.at].severity != 2)
    && nbError == ErrorsBefore(verdicts, |verdicts|)
    && output == ReportsBefore(logLines, outLines, verdicts, |verdicts|) + Epilogue(stop)
  }

  /**
   * The verdicts and the stop are those of the traces: `verdicts` are the
   * comparisons of the first indices and a crash is the failure at its index.
   */
  predicate Traced(logLines: seq<string>, outLines: seq<string>, verdicts: seq<Verdict>, stop: Stop) {
    && ComparedAs(logLines, outLines, verdicts)
    && (stop.Crash? ==> StepIs(logLines, outLines, stop.at, Failed(stop.echo)))
  }

  /** Leaving the loop because `range` is used up ends the run. */
  lemma ExhaustedEnds(logLines: seq<string>, outLines: seq<string>, verdicts: seq<Verdict>, i: nat,
                      lastError: Verdict, nbError: nat, output: seq<string>)
    requires Progress(logLines, outLines, verdicts, i, lastError, nbError, output) && i >= |outLines| - 1
    ensures Finished(logLines, outLines, verdicts, nbError, output, Exhausted)
  {
  }

  /** A failed index ends the run and prints only the echoed line. */
  lemma CrashEnds(logLines: seq<string>, outLines: seq<string>, verdicts: seq<Verdict>, i: nat,
                  lastError: Verdict, nbError: nat, output: seq<string>, echo: Option<string>)
    requires Progress(logLines, outLines, verdicts, i, lastError, nbError, output) && i < |outLines| - 1
    ensures Finished(logLines, outLines, verdicts, nbError, output + Epilogue(Crash(i, echo)), Crash(i, echo))
  {
  }

  /**
   * A compared index adds its report and its error to the totals, and then
   * stops the run on a PC mismatch or on the last reference line, or goes
   * on to the next index.
   */
  lemma ComparedStep(logLines: seq<string>, outLines: seq<string>, verdicts: seq<Verdict>, i: nat,
                     lastError: Verdict, nbError: nat, output: seq<string>, error: Verdict)
    requires Progress(logLines, outLines, verdicts, i, lastError, nbError, output)
    requires i < |outLines| - 1 && i < |logLines|
    ensures var next := verdicts + [error];
            var count := nbError + (if error.severity != 0 then 1 else 0);
            var printed := output + Report(logLines, outLines, next, i);
            && (error.severity == 2 ==>
                  Finished(logLines, outLines, next, count, printed + Epilogue(Desync(i)), Desync(i)))
            && (error.severity != 2 && i == |logLines| - 1 ==>
                  Finished(logLines, outLines, next, count, printed + Epilogue(Congrats(i)), Congrats(i)))
            && (error.severity != 2 && i != |logLines| - 1 ==>
                  Progress(logLines, outLines, next, i + 1, error, count, printed))
  {
    var next := verdicts + [error];
    ExtendTotals(logLines, outLines, verdicts, error);
    forall j | 0 <= j < i
      ensures ContinuedAt(logLines, next, j)
    {
      assert next[j] == verdicts[j];
      assert ContinuedAt(logLines, verdicts, j);
    }
  }

  /** A newly compared index extends the verdicts. */
  lemma ExtendCompared(logLines: seq<string>, outLines: seq<string>, verdicts: seq<Verdict>, error: Verdict)
    requires ComparedAs(logLines, outLines, verdicts)
    requires StepIs(logLines, outLines, |verdicts|, Compared(error))
    ensures ComparedAs(logLines, outLines, verdicts + [error])
  {
    var next := verdicts + [error];
    forall j | 0 <= j < |next|
      ensures StepAt(logLines, outLines, j) == Compared(next[j])
    {
      if j < |verdicts| {
        assert next[j] == verdicts[j];
        assert StepAt(logLines, outLines, j) == Compared(verdicts[j]);
      } else {
        assert j == |verdicts| && next[j] == error;
      }
    }
  }

  /** Appending a verdict adds its report and its error to those of the earlier ones. */
  lemma ExtendTotals(logLines: seq<string>, outLines: seq<string>, verdicts: seq<Verdict>, error: Verdict)
    requires |verdicts| < |logLines| && |verdicts| < |outLines|
    ensures var next, n := verdicts + [error], |verdicts|;
            && ErrorsBefore(next, n + 1) == ErrorsBefore(verdicts, n) + (if error.severity != 0 then 1 else 0)
            && ReportsBefore(logLines, outLines, next, n + 1)
               == ReportsBefore(logLines, outLines, verdicts, n) + Report(logLines, outLines, next, n)
  {
    var next, n := verdicts + [error], |verdicts|;
    assert forall j :: 0 <= j < n ==> next[j] == verdicts[j];
    ReportsPrefix(logLines, outLines, verdicts, next, n);
    ErrorsPrefix(verdicts, next, n);
  }

  /** The reports of the first `n` indices depend only on the first `n` verdicts. */
  lemma {:induction false} ReportsPrefix(logLines: seq<string>, outLines: seq<string>, a: seq<Verdict>, b: seq<Verdict>, n: nat)
    requires n <= |a| && n <= |b| && n <= |logLines| && n <= |outLines|
    requires forall j :: 0 <= j < n ==> a[j] == b[j]
    ensures ReportsBefore(logLines, outLines, a, n) == ReportsBefore(logLines, outLines, b, n)
  {
    if n > 0 {
      ReportsPrefix(logLines, outLines, a, b, n - 1);
    }
  }

  /** The error count of the first `n` indices depends only on the first `n` verdicts. */
  lemma {:induction false} ErrorsPrefix(a: seq<Verdict>, b: seq<Verdict>, n: nat)
    requires n <= |a| && n <= |b|
    requires forall j :: 0 <= j < n ==> a[j] == b[j]
    ensures ErrorsBefore(a, n) == ErrorsBefore(b, n)
  {
    if n > 0 {
      ErrorsPrefix(a, b, n - 1);
    }
  }

  lemma AppendAssoc(a: seq<string>, b: seq<string>, c: seq<string>)
    ensures (a + b) + c == a + (b + c)
  {
  }

  /** The report of a new verdict, against the one remembered before it. */
  lemma ReportOf(logLines: seq<string>, outLines: seq<string>, verdicts: seq<Verdict>, lastError: Verdict, error: Verdict)
    requires |verdicts| < |logLines| && |verdicts| < |outLines| && lastError == PrevVerdict(verdicts, |verdicts|)
    ensures var i := |verdicts|;
            Report(logLines, outLines, verdicts + [error], i)
            == if error.severity == 0 then []
               else if lastError != error then Context(logLines, outLines, i, error.message) + [""]
               else [""]
  {
    var next := verdicts + [error];
    assert next[|verdicts|] == error;
    assert PrevVerdict(next, |verdicts|) == lastError by {
      if |verdicts| > 0 {
        assert next[|verdicts| - 1] == verdicts[|verdicts| - 1];
      }
    }
  }

  /** The printing part of the loop body: nothing for a match; for a divergence the
    * context (when the verdict changed) and then an empty line. */
  method PrintReport(logLines: seq<string>, outLines: seq<string>, i: nat, lastError: Verdict, error: Verdict,
                     output: seq<string>) returns (printed: seq<string>)
    requires i < |logLines| && i < |outLines|
    ensures printed == output + if error.severity == 0 then []
                                else if lastError != error then Context(logLines, outLines, i, error.message) + [""]
                                else [""]
  {
    printed := output;
    if error.severity != 0 {
      if lastError != error {
        printed := printed + Context(logLines, outLines, i, error.message);
        AppendAssoc(output, Context(logLines, outLines, i, error.message), [""]);
      }
      printed := printed + [""];
    }
  }

  /** The counting and printing of a compared index: its error is counted
    * and its report printed. */
  method RecordVerdict(logLines: seq<string>, outLines: seq<string>, ghost verdicts: seq<Verdict>, i: nat,
                       lastError: Verdict, nbError: nat, output: seq<string>, error: Verdict)
    returns (count: nat, printed: seq<string>)
    requires i == |verdicts| && |verdicts| < |logLines| && |verdicts| < |outLines| && lastError == PrevVerdict(verdicts, |verdicts|)
    ensures count == nbError + (if error.severity != 0 then 1 else 0)
    ensures printed == output + Report(logLines, outLines, verdicts + [error], i)
  {
    ReportOf(logLines, outLines, verdicts, lastError, error);
    printed := PrintReport(logLines, outLines, i, lastError, error, output);
    count := nbError;
    if error.severity != 0 {
      count := count + 1;
    }
  }

  /**
   * The top-level loop of diff_nes_log.py over the already-read lines of
   * the reference log and the candidate output; `verdicts` records the
   * verdict of every compared index.
   */
  method DiffTraces(logLines: seq<string>, outLines: seq<string>)
    returns (nbError: nat, output: seq<string>, stop: Stop, ghost verdicts: seq<Verdict>)
    ensures Finished(logLines, outLines, verdicts, nbError, output, stop)
    ensures Traced(logLines, outLines, verdicts, stop)
  {
    nbError := 0;
    output := [];
    verdicts := [];
    var lastError := Verdict(0, "");
    var i := 0;
    while i < |outLines| - 1
      invariant Progress(logLines, outLines, verdicts, i, lastError, nbError, output)
      invariant ComparedAs(logLines, outLines, verdicts)
    {
      var step := CompareAt(logLines, outLines, i);
      if step.Failed? {
        CrashEnds(logLines, outLines, verdicts, i, lastError, nbError, output, step.echo);
        if step.echo.Some? { output := output + [step.echo.value]; }
        stop := Crash(i, step.echo);
        return;
      }
      var error := step.v;
      ExtendCompared(logLines, outLines, verdicts, error);
      ComparedStep(logLines, outLines, verdicts, i, lastError, nbError, output, error);
      nbError, output := RecordVerdict(logLines, outLines, verdicts, i, lastError, nbError, output, error);
      verdicts := verdicts + [error];
      if error.severity == 2 {
        stop := Desync(i);
        return;
      }
      lastError := error;
      if i == |logLines| - 1 {
        output := output + ["Congrats!!!"];
        stop := Congrats(i);
        return;
      }
      i := i + 1;
    }
    ExhaustedEnds(logLines, outLines, verdicts, i, lastError, nbError, output);
    stop := Exhausted;
  }

  /** Verdicts that all match give no error and print nothing. */
  lemma {:induction false} MatchingTracesReportNothing(logLines: seq<string>, outLines: seq<string>, verdicts: seq<Verdict>, n: nat)
    requires n <= |verdicts| && n <= |logLines| && n <= |outLines|
    requires forall j :: 0 <= j < n ==> verdicts[j].severity == 0
    ensures ErrorsBefore(verdicts, n) == 0
    ensures ReportsBefore(logLines, outLines, verdicts, n) == []
  {
    if n > 0 {
      MatchingTracesReportNothing(logLines, outLines, verdicts, n - 1);
    }
  }

  /** A divergence repeated at the next index is counted again but its context is not printed again. */
  lemma RepeatedDivergence(logLines: seq<string>, outLines: seq<string>, verdicts: seq<Verdict>, i: nat)
    requires i + 2 <= |verdicts| && i + 2 <= |logLines| && i + 2 <= |outLines|
    requires verdicts[i].severity != 0 && verdicts[i + 1] == verdicts[i]
    ensures ErrorsBefore(verdicts, i + 2) == ErrorsBefore(verdicts, i) + 2
    ensures ReportsBefore(logLines, outLines, verdicts, i + 2) == ReportsBefore(logLines, outLines, verdicts, i + 1) + [""]
  {
  }

  /** A run in which every compared index matched counts no error and prints only its epilogue. */
  lemma CleanRun(logLines: seq<string>, outLines: seq<string>, verdicts: seq<Verdict>,
                 nbError: nat, output: seq<string>, stop: Stop)
    requires Finished(logLines, outLines, verdicts, nbError, output, stop)
    requires forall j :: 0 <= j < |verdicts| ==> verdicts[j].severity == 0
    ensures nbError == 0 && output == Epilogue(stop)
  {
    MatchingTracesReportNothing(logLines, outLines, verdicts, |verdicts|);
  }

  /** A run stops on a desynchronisation exactly at an index whose two lines parse with different PCs. */
  lemma DesyncIsPcMismatch(logLines: seq<string>, outLines: seq<string>, verdicts: seq<Verdict>,
                           nbError: nat, output: seq<string>, at: nat)
    requires Finished(logLines, outLines, verdicts, nbError, output, Desync(at))
    requires Traced(logLines, outLines, verdicts, Desync(at))
    ensures at < |logLines| && at < |outLines|
    ensures FromLog(logLines[at]).Parsed? && FromOut(outLines[at]).Parsed?
    ensures FromOut(outLines[at]).ins.pc != FromLog(logLines[at]).ins.pc
  {
    assert StepAt(logLines, outLines, at) == Compared(verdicts[at]);
  }
}
