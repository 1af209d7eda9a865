/** From filter expression to instruction array, as `pcap_compile` does it without the optimizer. */
module Pipeline {
  import opened Machine
  import opened FilterExpr
  import opened Backpatch
  import opened Layout
  import opened Convert

  lemma ArrayFollowsExpr(code: seq<Insn>, bs: seq<Cell>, e: Expr, snaplen: Word)
    requires Finished(bs, e, 0, snaplen) && Proper(e) && Leveled(ToGraph(bs), ByIndex(|bs|, 0))
    requires forall st: State, p: Packet ::
               RunArray(code, 0, st, p) == Run(ToGraph(bs), ByIndex(|bs|, 0), 0, st, p)
    ensures forall st: State, p: Packet ::
              RunArray(code, 0, st, p) == Choose(Eval(e, p), Return(snaplen), Return(0))
  {
    forall st: State, p: Packet
      ensures RunArray(code, 0, st, p) == Choose(Eval(e, p), Return(snaplen), Return(0))
    {
      FilterCorrect(bs, e, 0, snaplen, st, p);
    }
  }

  /** The emitted array accepts a packet with `snaplen`, rejects it with 0, or aborts, exactly as the
      expression is true or false of it or one of its tests aborts. */
  method CompileFilter(e: Expr, snaplen: Word) returns (code: seq<Insn>)
    requires Proper(e)
    ensures forall st: State, p: Packet ::
              RunArray(code, 0, st, p) == Choose(Eval(e, p), Return(snaplen), Return(0))
  {
    var gen := new Generator();
    var b := gen.Compile(e);
    var root := gen.FinishParse(b, snaplen, e, 0);
    var g := ToGraph(gen.blocks);
    ghost var lv := ByIndex(|g|, 0);
    ghost var bs := gen.blocks;
    FinishedShape(bs, e, 0, snaplen);
    var conv := new Converter(g, lv);
    code := conv.IcodeToFcode(root);
    ArrayFollowsExpr(code, bs, e, snaplen);
  }
}
