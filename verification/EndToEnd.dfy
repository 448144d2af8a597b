/**
 From the copying machine to the chain: what one run leaves in the backend once
 its layered journal is merged, taken apart and written.
 */
module EndToEnd {
  import opened Wrappers
  import opened EvmTypes
  import opened Journal
  import opened JournalRefinement
  import opened Flush

  function CopyRun(ws: Worlds, ops: seq<Op>): Option<Worlds>
    decreases |ops|
  {
    if ops == [] then Some(ws)
    else match CopyStep(ws, ops[0])
      case None => None
      case Some(ws') => CopyRun(ws', ops[1..])
  }

  lemma {:induction false} EndsAgree(s: Stack, ws: Worlds, b: ChainState, ops: seq<Op>)
    requires Indistinguishable(s, ws, b, ops)
    ensures Run(s, b, ops).Some? == CopyRun(ws, ops).Some?
    ensures Run(s, b, ops).Some? ==> ReadsAgree(Run(s, b, ops).value, CopyRun(ws, ops).value.top, b)
    decreases |ops|
  {
    if ops != [] && Step(s, b, ops[0]).Some? {
      EndsAgree(Step(s, b, ops[0]).value, CopyStep(ws, ops[0]).value, b, ops[1..]);
    }
  }

  /**
   For a run whose commits are harmless the written backend is the final world
   of the copying machine: the same account at every address it did not delete,
   no account where it did, and the same word in every slot, but for one kind: a
   stored nonzero word that the run set to zero, and did not wipe, is still there.
   */
  lemma WrittenBackendIsFinalWorld(b: ChainState, ops: seq<Op>, f: Frame, a: Address, slot: Slot)
    requires CommitsHarmlessly(NEW_STACK, b, ops)
    requires Run(NEW_STACK, b, ops) == Some(Root(f))
    ensures CopyRun(Only(WorldOf(b)), ops).Some?
    ensures var w := CopyRun(Only(WorldOf(b)), ops).value.top;
            var after := Flushed(f, b);
            && w.logs == f.logs
            && (a in w.deleted ==> a !in after.accounts)
            && (a !in w.deleted ==> after.Account(a) == w.Account(a))
            && (slot.address !in w.deleted ==>
                  (after.Storage(slot) == w.Storage(slot) <==>
                   !(w.Storage(slot) == 0 && b.Storage(slot) != 0 && slot.address !in w.wiped)))
  {
    JournalRefinesCopying(b, ops);
    EndsAgree(NEW_STACK, Only(WorldOf(b)), b, ops);
    var w := CopyRun(Only(WorldOf(b)), ops).value.top;
    assert AccountReadAgrees(Root(f), w, b, a) && AccountReadAgrees(Root(f), w, b, slot.address);
    assert StorageReadAgrees(Root(f), w, b, slot);
    FlushKeepsAccounts(f, b, a);
    FlushKeepsStorage(f, b, slot);
  }

  /** A contract cannot clear a stored word: writing zero to it leaves it as it was. */
  lemma ClearedWordSurvives(b: ChainState, slot: Slot)
    requires b.Storage(slot) != 0
    ensures var f := Step(NEW_STACK, b, SetStorage(slot, 0)).value.top;
            && Run(NEW_STACK, b, [SetStorage(slot, 0)]) == Some(Root(f))
            && StorageOf(Root(f), b, slot) == 0
            && Flushed(f, b).Storage(slot) == b.Storage(slot)
  {
  }
}
