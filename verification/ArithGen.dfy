/** Code generation for arithmetic: the scratch-register table (`alloc_reg`, `free_reg`) and the
    `gen_*` functions that take registers from it. */
module ArithGen {
  import opened Collections
  import opened Machine
  import opened ArithCode

  /** How many registers an expression needs at once. */
  function Need(e: Arith): (n: nat)
    ensures n > 0
  {
    match e
    case Load(_, _, i) => Max(Need(i), 2)
    case Minus(e1) => Need(e1)
    case Bin(_, l, r) => Max(Need(l), 1 + Need(r))
    case _ => 1
  }

  function Max(a: nat, b: nat): nat { if a > b then a else b }

  predicate Fits(e: Arith, inUse: nat) {
    GoodSizes(e) && Need(e) + inUse <= MEMWORDS
  }

  function UsedIn(regs: seq<bool>): set<Slot> {
    set m: Slot | m < |regs| && regs[m]
  }

  lemma {:induction false} CountBelow(s: set<nat>, n: nat)
    requires forall x :: x in s ==> x < n
    ensures |s| <= n && (|s| == n <==> forall m: nat :: m < n ==> m in s)
  {
    if n == 0 {
      assert s == {};
    } else {
      var s' := s - {n - 1};
      CountBelow(s', n - 1);
      if n - 1 in s {
        assert s == s' + {n - 1};
      } else {
        assert s == s';
      }
    }
  }

  /** The table is full exactly when it counts sixteen. */
  lemma FullTable(s: set<Slot>)
    ensures |s| <= 16 && (|s| == 16 <==> forall m: Slot :: m in s)
  {
    CountBelow(s, 16);
  }

  lemma SomeFree(s: set<Slot>, m: Slot)
    requires m !in s
    ensures |s| != 16
  {
    FullTable(s);
  }

  /** How far register `m` is from `c`, going round. */
  function Ahead(c: Slot, m: Slot): nat {
    if m >= c then m - c else m + 16 - c
  }

  lemma UsedUpdate(regs: seq<bool>, m: Slot, b: bool)
    requires |regs| == 16
    ensures UsedIn(regs[m := b]) == if b then UsedIn(regs) + {m} else UsedIn(regs) - {m}
  {
  }

  /** A compiled operand: its statements and the register that will hold its value. */
  datatype Arth = Arth(s: seq<Stmt>, regno: Slot)

  predicate Holds(a: Arth, t: Placed, nl: Word) {
    a.s == Code(t, nl) && a.regno == Reg(t)
  }

  class Registers {
    const regused: array<bool>
    var curreg: nat
    /** Offset of the network-layer header. */
    const nl: Word

    ghost predicate Valid()
      reads this
    {
      regused.Length == 16 && curreg < 16
    }

    ghost function Used(): set<Slot>
      reads this, regused
    {
      UsedIn(regused[..])
    }

    constructor (nl: Word)
      ensures Valid() && Used() == {} && fresh(regused) && this.nl == nl
    {
      regused := new bool[16](_ => false);
      curreg := 0;
      this.nl := nl;
    }

    /** `alloc_reg`: the next free register, going round from the last one; fails when all are used. */
    method AllocReg() returns (r: Option<Slot>)
      requires Valid()
      modifies this`curreg, regused
      ensures Valid() && (r.None? <==> |old(Used())| == 16)
      ensures r.None? ==> Used() == old(Used())
      ensures r.Some? ==> r.value !in old(Used()) && Used() == old(Used()) + {r.value} && curreg == r.value
      ensures r.Some? ==> forall m: Slot :: Ahead(old(curreg), m) < Ahead(old(curreg), r.value) ==> m in old(Used())
    {
      var n := 16;
      ghost var used, c := Used(), curreg;
      FullTable(used);
      while n > 0
        invariant Valid() && 0 <= n <= 16 && regused[..] == old(regused[..])
        invariant n > 0 ==> Ahead(c, curreg) == 16 - n
        invariant forall m: Slot :: Ahead(c, m) < 16 - n ==> m in used
      {
        n := n - 1;
        if regused[curreg] {
          assert curreg in used;
          curreg := (curreg + 1) % 16;
        } else {
          assert curreg !in used;
          UsedUpdate(regused[..], curreg, true);
          regused[curreg] := true;
          return Some(curreg);
        }
      }
      return None;
    }

    /** `free_reg` */
    method FreeReg(n: Slot)
      requires Valid()
      modifies regused
      ensures Valid() && Used() == old(Used()) - {n}
    {
      UsedUpdate(regused[..], n, false);
      regused[n] := false;
    }

    /** `gen_loadi` */
    method GenLoadi(k: Word) returns (a: Option<Arth>)
      requires Valid()
      modifies this`curreg, regused
      ensures Valid() && (a.None? <==> |old(Used())| == 16)
      ensures a.Some? ==> var r := a.value.regno;
                          r !in old(Used()) && Used() == old(Used()) + {r} && Holds(a.value, PNum(k, r), nl)
    {
      var r := AllocReg();
      return if r.None? then None else Some(Arth([LdImm(k), St(r.value)], r.value));
    }

    /** `gen_loadlen` */
    method GenLoadlen() returns (a: Option<Arth>)
      requires Valid()
      modifies this`curreg, regused
      ensures Valid() && (a.None? <==> |old(Used())| == 16)
      ensures a.Some? ==> var r := a.value.regno;
                          r !in old(Used()) && Used() == old(Used()) + {r} && Holds(a.value, PLen(r), nl)
    {
      var r := AllocReg();
      return if r.None? then None else Some(Arth([LdLen, St(r.value)], r.value));
    }

    /** `gen_neg` */
    method GenNeg(a: Arth, ghost t: Placed) returns (a': Arth)
      requires Holds(a, t, nl)
      ensures Holds(a', PMinus(t), nl)
    {
      a' := Arth(a.s + [LdMem(a.regno), Neg, St(a.regno)], a.regno);
    }

    /** `gen_load`: takes its own register before giving back the index's. */
    method GenLoad(base: Base, bytes: int, inst: Arth, ghost t: Placed) returns (a: Option<Arth>)
      requires Valid() && Holds(inst, t, nl) && inst.regno in Used()
      modifies this`curreg, regused
      ensures Valid() && (a.None? <==> |old(Used())| == 16 || SizeOf(bytes).None?)
      ensures a.Some? ==> var r := a.value.regno;
                          && r !in old(Used()) && Used() == old(Used()) - {inst.regno} + {r}
                          && Holds(a.value, PLoad(base, SizeOf(bytes).value, t, r), nl)
    {
      var r := AllocReg();
      if r.None? {
        return None;
      }
      FreeReg(inst.regno);
      if SizeOf(bytes).None? {
        return None;
      }
      a := Some(Arth(inst.s + (Fetch(base, SizeOf(bytes).value, inst.regno, nl) + [St(r.value)]), r.value));
    }

    /** `gen_arth`: gives back both operands' registers before taking one for the result. */
    method GenArth(op: AluOp, a0: Arth, a1: Arth, ghost t0: Placed, ghost t1: Placed) returns (a: Arth)
      requires Valid() && Holds(a0, t0, nl) && Holds(a1, t1, nl) && a0.regno in Used() && a1.regno in Used()
      modifies this`curreg, regused
      ensures Valid() && a.regno !in old(Used()) - {a0.regno, a1.regno}
      ensures Used() == old(Used()) - {a0.regno, a1.regno} + {a.regno}
      ensures Holds(a, PBin(op, t0, t1, a.regno), nl)
    {
      var r := Exchange(a0.regno, a1.regno);
      a := Arth(a0.s + (a1.s + [LdxMem(a1.regno), LdMem(a0.regno), AluX(op), St(r)]), r);
    }

    method Exchange(r0: Slot, r1: Slot) returns (r: Slot)
      requires Valid() && r0 in Used() && r1 in Used()
      modifies this`curreg, regused
      ensures Valid() && r !in old(Used()) - {r0, r1} && Used() == old(Used()) - {r0, r1} + {r}
    {
      FreeBoth(r0, r1);
      ghost var free := Used();
      SomeFree(free, r0);
      var r' := AllocReg();
      r := r'.value;
    }

    method FreeBoth(r0: Slot, r1: Slot)
      requires Valid()
      modifies regused
      ensures Valid() && Used() == old(Used()) - {r0, r1}
    {
      ghost var used := Used();
      FreeReg(r0);
      FreeReg(r1);
      assert used - {r0} - {r1} == used - {r0, r1};
    }

    /** An operand, as the grammar's actions build it bottom-up and left to right.  It compiles exactly
        when its sizes are right and enough registers are free, takes one register, and its code
        computes its value there without writing a register in use. */
    method GenExpr(e: Arith, ghost used: set<Slot>) returns (a: Option<Arth>, ghost t: Placed)
      requires Valid() && Used() == used
      modifies this`curreg, regused
      ensures Valid() && (a.Some? <==> Fits(e, |used|))
      ensures a.Some? ==>
                Places(t, e) && Allocated(t, used) && Holds(a.value, t, nl) && Used() == used + {a.value.regno}
      ensures a.Some? ==> a.value.regno !in used
      decreases e
    {
      FullTable(used);
      t := PLen(0);
      match e
      case Num(k) =>
        a := GenLoadi(k);
        if a.Some? { t := PNum(k, a.value.regno); }
      case Len =>
        a := GenLoadlen();
        if a.Some? { t := PLen(a.value.regno); }
      case Load(_, _, _) => a, t := GenLoadExpr(e, used);
      case Minus(_) => a, t := GenMinusExpr(e, used);
      case Bin(_, _, _) => a, t := GenBinExpr(e, used);
    }

    method GenLoadExpr(e: Arith, ghost used: set<Slot>) returns (a: Option<Arth>, ghost t: Placed)
      requires Valid() && Used() == used && e.Load?
      modifies this`curreg, regused
      ensures Valid() && (a.Some? <==> Fits(e, |used|))
      ensures a.Some? ==>
                Places(t, e) && Allocated(t, used) && Holds(a.value, t, nl) && Used() == used + {a.value.regno}
      ensures a.Some? ==> a.value.regno !in used
      decreases e, 0
    {
      ghost var ti;
      a, ti := GenExpr(e.index, used);
      t := PLen(0);
      if a.Some? {
        var inst := a.value;
        assert |used + {inst.regno}| == |used| + 1;
        FullTable(used + {inst.regno});
        a := GenLoad(e.base, e.bytes, inst, ti);
        if a.Some? { t := PLoad(e.base, SizeOf(e.bytes).value, ti, a.value.regno); }
      }
    }

    method GenMinusExpr(e: Arith, ghost used: set<Slot>) returns (a: Option<Arth>, ghost t: Placed)
      requires Valid() && Used() == used && e.Minus?
      modifies this`curreg, regused
      ensures Valid() && (a.Some? <==> Fits(e, |used|))
      ensures a.Some? ==>
                Places(t, e) && Allocated(t, used) && Holds(a.value, t, nl) && Used() == used + {a.value.regno}
      ensures a.Some? ==> a.value.regno !in used
      decreases e, 0
    {
      a, t := GenExpr(e.e, used);
      if a.Some? {
        var a' := GenNeg(a.value, t);
        a, t := Some(a'), PMinus(t);
      }
    }

    method GenBinExpr(e: Arith, ghost used: set<Slot>) returns (a: Option<Arth>, ghost t: Placed)
      requires Valid() && Used() == used && e.Bin?
      modifies this`curreg, regused
      ensures Valid() && (a.Some? <==> Fits(e, |used|))
      ensures a.Some? ==>
                Places(t, e) && Allocated(t, used) && Holds(a.value, t, nl) && Used() == used + {a.value.regno}
      ensures a.Some? ==> a.value.regno !in used
      decreases e, 0
    {
      ghost var tl, tr;
      a, tl := GenExpr(e.l, used);
      t := PLen(0);
      if a.Some? {
        var a0 := a.value;
        assert |used + {a0.regno}| == |used| + 1;
        a, tr := GenExpr(e.r, used + {a0.regno});
        if a.Some? {
          var a1 := a.value;
          var a2 := GenArth(e.op, a0, a1, tl, tr);
          assert used + {a0.regno} + {a1.regno} - {a0.regno, a1.regno} == used;
          a, t := Some(a2), PBin(e.op, tl, tr, a2.regno);
        }
      }
    }
  }
}
