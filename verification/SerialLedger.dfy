/** The plain ledger as a fold over delivered transactions: checks and restarts leave no trace. */
module SerialLedger {
  import opened Wrappers
  import opened EvmTypes
  import opened ChainTypes
  import opened PlainLedger
  import opened TxProperties

  lemma {:induction false} PlainRunConcat(chain: Chain, p: Plain, xs: seq<Event>, ys: seq<Event>)
    requires LegalRun(chain, p, xs)
    requires PlainRun(chain, p, xs).Some? ==> LegalRun(chain, PlainRun(chain, p, xs).value, ys)
    ensures LegalRun(chain, p, xs + ys)
    ensures PlainRun(chain, p, xs + ys) ==
            match PlainRun(chain, p, xs) { case Some(q) => PlainRun(chain, q, ys) case None => None }
    decreases |xs|
  {
    if xs == [] {
      assert xs + ys == ys;
    } else {
      assert (xs + ys)[0] == xs[0] && (xs + ys)[1..] == xs[1..] + ys;
      if PlainStep(chain, p, xs[0]).Some? {
        PlainRunConcat(chain, PlainStep(chain, p, xs[0]).value, xs[1..], ys);
      }
    }
  }

  lemma OneStep(chain: Chain, p: Plain, ev: Event)
    requires Legal(p, ev)
    ensures LegalRun(chain, p, [ev]) && PlainRun(chain, p, [ev]) == PlainStep(chain, p, ev)
  {
  }

  /** What may happen between BeginBlock and Commit. */
  predicate WithinBlock(events: seq<Event>) {
    forall i :: 0 <= i < |events| ==> events[i].DeliverTx? || events[i].CheckTx?
  }

  /** The transactions delivered, in order; checked ones and undecodable ones are not among them. */
  function Delivered(events: seq<Event>): seq<Tx> {
    if events == [] then []
    else (if events[0].DeliverTx? && events[0].tx.Some? then [events[0].tx.value] else []) + Delivered(events[1..])
  }

  /** Applying transactions one after the other. */
  function Folded(chain: Chain, hashes: map<nat, H256>, pending: Pending, txs: seq<Tx>): Option<Pending>
    decreases |txs|
  {
    if txs == [] then Some(pending)
    else
      var effect := Effect(chain, pending.state, hashes, txs[0]);
      if effect.Panicked? then None
      else
        Folded(chain, hashes,
               Pending(StateAfter(pending.state, effect), DraftAfter(chain, pending.draft, txs[0], effect)), txs[1..])
  }

  /** The committed ledger after one block of these transactions. */
  ghost function AfterBlock(chain: Chain, p: Plain, proposer: Bytes, timestamp: nat, txs: seq<Tx>): Option<Plain> {
    match Folded(chain, p.blockHashes, Begun(p, proposer, timestamp), txs)
    case None => None
    case Some(pending) =>
      var block := Closed(chain, pending.draft);
      Some(Plain(pending.state, p.blocks[block.header.height := block],
                 p.blockHashes[block.header.height := chain.toEvm(block.headerHash)], None))
  }

  lemma {:induction false} BlockIsFold(chain: Chain, p: Plain, events: seq<Event>)
    requires p.pending.Some? && WithinBlock(events)
    ensures LegalRun(chain, p, events)
    ensures PlainRun(chain, p, events) ==
            match Folded(chain, p.blockHashes, p.pending.value, Delivered(events))
            { case Some(pending) => Some(p.(pending := Some(pending))) case None => None }
    decreases |events|
  {
    if events != [] {
      var ev := events[0];
      assert Legal(p, ev) by { assert ev.DeliverTx? || ev.CheckTx?; }
      if PlainStep(chain, p, ev).Some? {
        var q := PlainStep(chain, p, ev).value;
        BlockIsFold(chain, q, events[1..]);
      }
      if ev.DeliverTx? && ev.tx.Some? {
        assert Delivered(events) == [ev.tx.value] + Delivered(events[1..]);
        assert Delivered(events)[1..] == Delivered(events[1..]);
      } else {
        assert Delivered(events) == Delivered(events[1..]);
      }
    }
  }

  /**
   Whatever checks are interleaved with the deliveries of a block, committing it
   yields the fold of the delivered transactions over the last committed state.
   */
  lemma BlocksAreSerial(chain: Chain, p: Plain, proposer: Bytes, timestamp: nat, events: seq<Event>)
    requires p.pending.None? && WithinBlock(events)
    ensures var run := [BeginBlock(proposer, timestamp)] + events + [Commit];
            && LegalRun(chain, p, run)
            && PlainRun(chain, p, run) == AfterBlock(chain, p, proposer, timestamp, Delivered(events))
  {
    var start := [BeginBlock(proposer, timestamp)];
    var begun := p.(pending := Some(Begun(p, proposer, timestamp)));
    OneStep(chain, p, BeginBlock(proposer, timestamp));
    BlockIsFold(chain, begun, events);
    PlainRunConcat(chain, p, start, events);
    var mid := PlainRun(chain, begun, events);
    if mid.Some? {
      OneStep(chain, mid.value, Commit);
    }
    PlainRunConcat(chain, p, start + events, [Commit]);
  }

  /** Those of the transactions that succeed, each tried on the state the earlier ones left. */
  function Successes(chain: Chain, hashes: map<nat, H256>, st: ChainState, txs: seq<Tx>): seq<Tx>
    decreases |txs|
  {
    if txs == [] then []
    else
      var effect := Effect(chain, st, hashes, txs[0]);
      (if effect.Succeeded? then [txs[0]] else []) + Successes(chain, hashes, StateAfter(st, effect), txs[1..])
  }

  lemma Regroup<T>(x: seq<T>, y: seq<T>, z: seq<T>)
    ensures x + y + z == x + (y + z)
  {
  }

  lemma RecordsItself(chain: Chain, st: ChainState, hashes: map<nat, H256>, draft: Draft, tx: Tx)
    ensures var effect := Effect(chain, st, hashes, tx);
            var block := DraftAfter(chain, draft, tx, effect).block;
            && block.txs == draft.block.txs + (if effect.Succeeded? then [tx] else [])
            && block.header == draft.block.header.(receipts := block.header.receipts)
  {
    TransactionsAreAtomic(chain, st, hashes, tx, draft);
  }

  lemma {:induction false} FoldRecordsSuccesses(chain: Chain, hashes: map<nat, H256>, pending: Pending, txs: seq<Tx>)
    requires Folded(chain, hashes, pending, txs).Some?
    ensures var block := Folded(chain, hashes, pending, txs).value.draft.block;
            && block.txs == pending.draft.block.txs + Successes(chain, hashes, pending.state, txs)
            && block.header == pending.draft.block.header.(receipts := block.header.receipts)
    decreases |txs|
  {
    if txs != [] {
      var effect := Effect(chain, pending.state, hashes, txs[0]);
      var next := Pending(StateAfter(pending.state, effect), DraftAfter(chain, pending.draft, txs[0], effect));
      var here := if effect.Succeeded? then [txs[0]] else [];
      var rest := Successes(chain, hashes, next.state, txs[1..]);
      RecordsItself(chain, pending.state, hashes, pending.draft, txs[0]);
      assert Folded(chain, hashes, pending, txs) == Folded(chain, hashes, next, txs[1..]);
      assert Successes(chain, hashes, pending.state, txs) == here + rest;
      FoldRecordsSuccesses(chain, hashes, next, txs[1..]);
      Regroup(pending.draft.block.txs, here, rest);
    }
  }

  /**
   A block adds one entry to the chain: the next height, the proposer and time
   BeginBlock gave, the hash of the block before it, and the delivered
   transactions that succeeded, in order.
   */
  lemma {:induction false} BlockSaysWhatItHolds(chain: Chain, p: Plain, proposer: Bytes, timestamp: nat, txs: seq<Tx>)
    requires AfterBlock(chain, p, proposer, timestamp, txs).Some?
    ensures var q := AfterBlock(chain, p, proposer, timestamp, txs).value;
            var height := 1 + TipHeight(p.blocks);
            && height in q.blocks && q.blocks == p.blocks[height := q.blocks[height]]
            && var header := q.blocks[height].header;
            && header.height == height && header.proposer == proposer && header.timestamp == timestamp
            && header.prevHash == LastHash(p.blocks)
            && q.blocks[height].headerHash == chain.headerHash(header)
            && q.blocks[height].txs == Successes(chain, p.blockHashes, p.state, txs)
            && q.blockHashes == p.blockHashes[height := chain.toEvm(chain.headerHash(header))]
  {
    FoldRecordsSuccesses(chain, p.blockHashes, Begun(p, proposer, timestamp), txs);
    var draft := Folded(chain, p.blockHashes, Begun(p, proposer, timestamp), txs).value.draft;
    assert draft.block.header.height == 1 + TipHeight(p.blocks);
    assert [] + Successes(chain, p.blockHashes, p.state, txs) == Successes(chain, p.blockHashes, p.state, txs);
  }

  /** A ledger stopped anywhere inside a block and restarted stands where it last committed. */
  lemma RestartReturnsToCommit(chain: Chain, p: Plain, proposer: Bytes, timestamp: nat, events: seq<Event>)
    requires p.pending.None? && p.blocks != map[] && WithinBlock(events)
    requires PlainRunsThrough(chain, p, proposer, timestamp, events)
    ensures var run := [BeginBlock(proposer, timestamp)] + events + [Restart];
            LegalRun(chain, p, run) && PlainRun(chain, p, run) == Some(p)
  {
    var start := [BeginBlock(proposer, timestamp)];
    var begun := p.(pending := Some(Begun(p, proposer, timestamp)));
    OneStep(chain, p, BeginBlock(proposer, timestamp));
    BlockIsFold(chain, begun, events);
    PlainRunConcat(chain, p, start, events);
    var mid := PlainRun(chain, begun, events).value;
    OneStep(chain, mid, Restart);
    PlainRunConcat(chain, p, start + events, [Restart]);
  }

  ghost predicate PlainRunsThrough(chain: Chain, p: Plain, proposer: Bytes, timestamp: nat, events: seq<Event>) {
    Folded(chain, p.blockHashes, Begun(p, proposer, timestamp), Delivered(events)).Some?
  }

  /** Replaying the interrupted block then commits what an uninterrupted run would have. */
  lemma ReplayAfterRestart(chain: Chain, p: Plain, proposer: Bytes, timestamp: nat, cut: seq<Event>, events: seq<Event>)
    requires p.pending.None? && p.blocks != map[] && WithinBlock(cut) && WithinBlock(events)
    requires PlainRunsThrough(chain, p, proposer, timestamp, cut)
    ensures var whole := [BeginBlock(proposer, timestamp)] + events + [Commit];
            var interrupted := [BeginBlock(proposer, timestamp)] + cut + [Restart] + whole;
            && LegalRun(chain, p, whole) && LegalRun(chain, p, interrupted)
            && PlainRun(chain, p, interrupted) == PlainRun(chain, p, whole)
  {
    var whole := [BeginBlock(proposer, timestamp)] + events + [Commit];
    BlocksAreSerial(chain, p, proposer, timestamp, events);
    RestartReturnsToCommit(chain, p, proposer, timestamp, cut);
    PlainRunConcat(chain, p, [BeginBlock(proposer, timestamp)] + cut + [Restart], whole);
  }

  // ---------- checks beside deliveries ----------

  /** Whatever is checked, and on whatever state, the plain ledger goes where it goes without checks. */
  lemma {:induction false} ChecksNeverInterfere(chain: Chain, n: Node, events: seq<Event>)
    requires LegalRun(chain, n.plain, events) && NodeRun(chain, n, events).Some?
    ensures PlainRun(chain, n.plain, events) == Some(NodeRun(chain, n, events).value.plain)
    decreases |events|
  {
    if events != [] {
      ChecksNeverInterfere(chain, NodeStep(chain, n, events[0]).value, events[1..]);
    }
  }

  lemma {:induction false} NodeRunConcat(chain: Chain, n: Node, xs: seq<Event>, ys: seq<Event>)
    requires LegalRun(chain, n.plain, xs + ys) && LegalRun(chain, n.plain, xs) && NodeRun(chain, n, xs).Some?
    ensures LegalRun(chain, NodeRun(chain, n, xs).value.plain, ys)
    ensures NodeRun(chain, n, xs + ys) == NodeRun(chain, NodeRun(chain, n, xs).value, ys)
    decreases |xs|
  {
    if xs == [] {
      assert xs + ys == ys;
    } else {
      assert (xs + ys)[0] == xs[0] && (xs + ys)[1..] == xs[1..] + ys;
      NodeRunConcat(chain, NodeStep(chain, n, xs[0]).value, xs[1..], ys);
    }
  }

  /** The transactions checked for the first time, in order. */
  function Checked(events: seq<Event>): seq<Tx> {
    if events == [] then []
    else
      (if events[0].CheckTx? && !events[0].recheck && events[0].checked.Some? then [events[0].checked.value] else []) +
      Checked(events[1..])
  }

  /** Checks alone move the state checks are tried on; what blocks are filled with meanwhile is no part of it. */
  lemma {:induction false} ChecksAreFold(chain: Chain, n: Node, draft: Draft, events: seq<Event>)
    requires WithinBlock(events) && LegalRun(chain, n.plain, events) && NodeRun(chain, n, events).Some?
    ensures var checked := Folded(chain, n.plain.blockHashes, Pending(n.tried, draft), Checked(events));
            checked.Some? && NodeRun(chain, n, events).value.tried == checked.value.state
    decreases |events|
  {
    if events != [] {
      var ev, m := events[0], NodeStep(chain, n, events[0]).value;
      assert ev.DeliverTx? || ev.CheckTx?;
      if ev.CheckTx? && !ev.recheck && ev.checked.Some? {
        var effect := Effect(chain, n.tried, n.plain.blockHashes, ev.checked.value);
        assert Checked(events) == [ev.checked.value] + Checked(events[1..]);
        assert Checked(events)[1..] == Checked(events[1..]);
        ChecksAreFold(chain, m, DraftAfter(chain, draft, ev.checked.value, effect), events[1..]);
      } else {
        assert Checked(events) == Checked(events[1..]);
        ChecksAreFold(chain, m, draft, events[1..]);
      }
    }
  }

  /** A run that gets through got through its beginning. */
  lemma {:induction false} NodeRunStops(chain: Chain, n: Node, xs: seq<Event>, ys: seq<Event>)
    requires LegalRun(chain, n.plain, xs + ys) && LegalRun(chain, n.plain, xs) && NodeRun(chain, n, xs + ys).Some?
    ensures NodeRun(chain, n, xs).Some?
    decreases |xs|
  {
    if xs != [] {
      assert (xs + ys)[0] == xs[0] && (xs + ys)[1..] == xs[1..] + ys;
      NodeRunStops(chain, NodeStep(chain, n, xs[0]).value, xs[1..], ys);
    }
  }

  lemma CommitKeepsChecks(chain: Chain, n: Node, draft: Draft, events: seq<Event>)
    requires n.plain.pending.Some? && WithinBlock(events)
    requires LegalRun(chain, n.plain, events + [Commit]) && NodeRun(chain, n, events + [Commit]).Some?
    ensures var checked := Folded(chain, n.plain.blockHashes, Pending(n.tried, draft), Checked(events));
            checked.Some? && NodeRun(chain, n, events + [Commit]).value.tried == checked.value.state
  {
    BlockIsFold(chain, n.plain, events);
    NodeRunStops(chain, n, events, [Commit]);
    NodeRunConcat(chain, n, events, [Commit]);
    ChecksAreFold(chain, n, draft, events);
  }

  /**
   Checks are tried one over the other on what was committed when the block
   began, whatever is delivered in between; a commit does not move that state.
   */
  lemma ChecksAreSerial(chain: Chain, n: Node, draft: Draft, proposer: Bytes, timestamp: nat, events: seq<Event>)
    requires n.plain.pending.None? && WithinBlock(events)
    ensures LegalRun(chain, n.plain, [BeginBlock(proposer, timestamp)] + events + [Commit])
    ensures var end := NodeRun(chain, n, [BeginBlock(proposer, timestamp)] + events + [Commit]);
            var checked := Folded(chain, n.plain.blockHashes, Pending(n.plain.state, draft), Checked(events));
            end.Some? ==> checked.Some? && end.value.tried == checked.value.state
  {
    var start, block := BeginBlock(proposer, timestamp), [BeginBlock(proposer, timestamp)] + events + [Commit];
    BlocksAreSerial(chain, n.plain, proposer, timestamp, events);
    assert block[0] == start && block[1..] == events + [Commit];
    if NodeRun(chain, n, block).Some? {
      CommitKeepsChecks(chain, NodeStep(chain, n, start).value, draft, events);
    }
  }

  /** After a restart they start over from the last commit. */
  lemma RestartForgetsChecks(chain: Chain, n: Node, draft: Draft, events: seq<Event>)
    requires WithinBlock(events) && LegalRun(chain, n.plain, [Restart] + events)
    requires NodeRun(chain, n, [Restart] + events).Some?
    ensures var checked := Folded(chain, n.plain.blockHashes, Pending(n.plain.state, draft), Checked(events));
            && checked.Some?
            && NodeRun(chain, n, [Restart] + events).value.tried == checked.value.state
  {
    var run := [Restart] + events;
    assert run[0] == Restart && run[1..] == events;
    ChecksAreFold(chain, NodeStep(chain, n, Restart).value, draft, events);
  }

  /** A transaction tried, delivered or checked, and what it met. */
  datatype Trial = Trial(st: ChainState, hashes: map<nat, H256>, tx: Tx)

  function TrialOf(n: Node, ev: Event): set<Trial>
    requires Legal(n.plain, ev)
  {
    if ev.DeliverTx? && ev.tx.Some? then {Trial(n.plain.pending.value.state, n.plain.blockHashes, ev.tx.value)}
    else if ev.CheckTx? && !ev.recheck && ev.checked.Some? then {Trial(n.tried, n.plain.blockHashes, ev.checked.value)}
    else {}
  }

  ghost function Trials(chain: Chain, n: Node, events: seq<Event>): set<Trial>
    requires LegalRun(chain, n.plain, events)
    decreases |events|
  {
    if events == [] then {}
    else
      TrialOf(n, events[0]) +
      match NodeStep(chain, n, events[0])
      case None => {}
      case Some(m) => Trials(chain, m, events[1..])
  }

  predicate TrialPanics(chain: Chain, t: Trial) {
    Effect(chain, t.st, t.hashes, t.tx).Panicked?
  }

  lemma StepsUnlessTrialPanics(chain: Chain, n: Node, ev: Event)
    requires Legal(n.plain, ev)
    ensures NodeStep(chain, n, ev).Some? <==> forall t :: t in TrialOf(n, ev) ==> !TrialPanics(chain, t)
  {
    if ev.DeliverTx? && ev.tx.Some? {
      assert Trial(n.plain.pending.value.state, n.plain.blockHashes, ev.tx.value) in TrialOf(n, ev);
    } else if ev.CheckTx? && !ev.recheck && ev.checked.Some? {
      assert Trial(n.tried, n.plain.blockHashes, ev.checked.value) in TrialOf(n, ev);
    }
  }

  /** A run gets through exactly when none of the transactions it tries panics where it is tried. */
  lemma {:induction false} RunsUnlessTrialPanics(chain: Chain, n: Node, events: seq<Event>)
    requires LegalRun(chain, n.plain, events)
    ensures NodeRun(chain, n, events).Some? <==>
            forall t :: t in Trials(chain, n, events) ==> !TrialPanics(chain, t)
    decreases |events|
  {
    if events != [] {
      StepsUnlessTrialPanics(chain, n, events[0]);
      if NodeStep(chain, n, events[0]).Some? {
        RunsUnlessTrialPanics(chain, NodeStep(chain, n, events[0]).value, events[1..]);
      }
    }
  }

  /** So it gets through if each run it makes is honest where it is made. */
  lemma {:induction false} HonestTrialsRunThrough(chain: Chain, n: Node, events: seq<Event>)
    requires LegalRun(chain, n.plain, events)
    requires forall t :: t in Trials(chain, n, events) ==> Honest(chain, t.st, t.hashes, t.tx)
    ensures NodeRun(chain, n, events).Some?
  {
    forall t | t in Trials(chain, n, events) ensures !TrialPanics(chain, t) {
      HonestNeverPanics(chain, t.st, t.hashes, t.tx);
    }
    RunsUnlessTrialPanics(chain, n, events);
  }
}
