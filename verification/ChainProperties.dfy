/** What holds of the chain in every state a legal run reaches. */
module ChainProperties {
  import opened Wrappers
  import opened FiniteSums
  import opened EvmTypes
  import opened Journal
  import opened Flush
  import opened ChainTypes
  import opened PlainLedger
  import opened SerialLedger
  import opened TxProperties

  function Genesis(st: ChainState): Plain {
    Plain(st, map[], map[], None)
  }

  // ---------- the shape of the chain ----------

  predicate Linked(chain: Chain, blocks: map<nat, Block>, h: nat)
    requires h in blocks
  {
    && blocks[h].header.height == h
    && blocks[h].headerHash == chain.headerHash(blocks[h].header)
    && blocks[h].header.prevHash == if h - 1 in blocks then blocks[h - 1].headerHash else NoHash
  }

  /** Keyed 1..n, each block linked to the one before, and `block_hashes` in step. */
  ghost predicate ChainShape(chain: Chain, p: Plain) {
    && Contiguous(chain, p.blocks, LastHeight(p.blocks))
    && p.blockHashes.Keys == p.blocks.Keys
    && (forall h :: h in p.blocks ==> p.blockHashes[h] == chain.toEvm(p.blocks[h].headerHash))
    && (p.pending.Some? ==>
          && p.pending.value.draft.block.header.height == LastHeight(p.blocks) + 1
          && p.pending.value.draft.block.header.prevHash == LastHash(p.blocks))
  }

  lemma LastOf(blocks: map<nat, Block>, n: nat)
    requires forall h :: h in blocks <==> 1 <= h <= n
    ensures LastHeight(blocks) == n
    ensures LastHash(blocks) == if n in blocks then blocks[n].headerHash else NoHash
  {
    if n > 0 {
      assert n in blocks;
    } else {
      assert blocks == map[] by {
        if h :| h in blocks { assert false; }
      }
    }
  }

  ghost predicate Contiguous(chain: Chain, blocks: map<nat, Block>, n: nat) {
    && (forall h :: h in blocks <==> 1 <= h <= n)
    && (forall h {:trigger Linked(chain, blocks, h)} :: h in blocks ==> Linked(chain, blocks, h))
  }

  /** Linking one more block leaves the links of the earlier ones alone. */
  lemma LinksGrow(chain: Chain, blocks: map<nat, Block>, n: nat, block: Block, grown: map<nat, Block>)
    requires Contiguous(chain, blocks, n) && grown == blocks[n + 1 := block]
    requires block.header.height == n + 1 && block.headerHash == chain.headerHash(block.header)
    requires block.header.prevHash == if n in blocks then blocks[n].headerHash else NoHash
    ensures Contiguous(chain, grown, n + 1)
  {
    forall h {:trigger Linked(chain, grown, h)} | h in grown ensures Linked(chain, grown, h) {
      if h <= n {
        LinkKept(chain, blocks, n, block, h);
      }
    }
  }

  lemma LinkKept(chain: Chain, blocks: map<nat, Block>, n: nat, block: Block, h: nat)
    requires Contiguous(chain, blocks, n) && h in blocks
    ensures Linked(chain, blocks[n + 1 := block], h)
  {
    assert Linked(chain, blocks, h);
  }

  lemma CommitKeepsShape(chain: Chain, p: Plain)
    requires ChainShape(chain, p) && p.pending.Some?
    ensures ChainShape(chain, PlainStep(chain, p, Commit).value)
  {
    var q := PlainStep(chain, p, Commit).value;
    var n := LastHeight(p.blocks);
    var block := Closed(chain, p.pending.value.draft);
    LastOf(p.blocks, n);
    LinksGrow(chain, p.blocks, n, block, q.blocks);
    LastOf(q.blocks, n + 1);
  }

  lemma StepKeepsShape(chain: Chain, p: Plain, ev: Event)
    requires ChainShape(chain, p) && Legal(p, ev) && PlainStep(chain, p, ev).Some?
    ensures ChainShape(chain, PlainStep(chain, p, ev).value)
  {
    if ev.Commit? {
      CommitKeepsShape(chain, p);
    } else if p.blocks != map[] {
      assert Linked(chain, p.blocks, LastHeight(p.blocks));
    }
  }

  // ---------- blocks and their receipts ----------

  function Hashes(chain: Chain, txs: seq<Tx>): seq<Hash> {
    seq(|txs|, i requires 0 <= i < |txs| => chain.txHash(txs[i]))
  }

  /** The receipt of a transaction at position `i`, before or after its block closed. */
  predicate ReceiptFor(chain: Chain, tx: Tx, i: nat, r: Receipt) {
    && r.txHash == chain.txHash(tx) && r.txIndex == i && r.statusCode
    && tx.Evm? && r.from == chain.signer(tx.tx) && r.to == tx.tx.to && (r.contractAddr.Some? <==> r.to.None?)
    && forall j :: 0 <= j < |r.logs| ==> r.logs[j].logIndexInTx == j && r.logs[j].txHash == r.txHash
  }

  /** The last transaction with a given hash owns the receipt filed under it. */
  predicate OwnsReceipt(chain: Chain, txs: seq<Tx>, i: nat)
    requires i < |txs|
  {
    forall j :: i < j < |txs| ==> chain.txHash(txs[j]) != chain.txHash(txs[i])
  }

  predicate SoundReceipts(chain: Chain, txs: seq<Tx>, receipts: map<Hash, Receipt>) {
    && (forall h :: h in receipts ==> h in Hashes(chain, txs))
    && (forall i :: 0 <= i < |txs| ==> chain.txHash(txs[i]) in receipts)
    && (forall i :: 0 <= i < |txs| && OwnsReceipt(chain, txs, i) ==>
          ReceiptFor(chain, txs[i], i, receipts[chain.txHash(txs[i])]))
  }

  predicate SoundDraft(chain: Chain, draft: Draft) {
    && draft.hashes == Hashes(chain, draft.block.txs)
    && SoundReceipts(chain, draft.block.txs, draft.block.header.receipts)
    && draft.block.bloom == {}
  }

  /** The bits a log sets: those of its address and of each of its topics. */
  predicate SetsBit(chain: Chain, l: LedgerLog, bit: nat) {
    || bit in chain.bloomBits(AddressInput(l.address))
    || exists t :: t in l.topics && bit in chain.bloomBits(TopicInput(t))
  }

  predicate SomeLogSetsBit(chain: Chain, receipts: map<Hash, Receipt>, bit: nat) {
    exists h, l :: h in receipts && l in receipts[h].logs && SetsBit(chain, l, bit)
  }

  /** A committed block: one receipt per hash, block-wide gas, and a bloom of exactly the bits its logs set. */
  ghost predicate SoundBlock(chain: Chain, b: Block) {
    && SoundReceipts(chain, b.txs, b.header.receipts)
    && b.header.merkleRoot == chain.merkleRoot(Hashes(chain, b.txs) + [chain.emptyHash])
    && (forall h :: h in b.header.receipts ==> b.header.receipts[h].blockGasUsed == Sum(GasOf(b.header.receipts)))
    && (forall bit: nat :: bit in b.bloom <==> SomeLogSetsBit(chain, b.header.receipts, bit))
  }

  ghost predicate Sound(chain: Chain, p: Plain) {
    && (forall h :: h in p.blocks ==> SoundBlock(chain, p.blocks[h]))
    && (p.pending.Some? ==> SoundDraft(chain, p.pending.value.draft))
  }

  lemma ExtendedIsSound(chain: Chain, draft: Draft, tx: Tx, ret: ExecRet)
    requires SoundDraft(chain, draft) && tx.Evm? && ret.success
    ensures SoundDraft(chain, Extended(chain, draft, tx, ret))
  {
    var draft' := Extended(chain, draft, tx, ret);
    var txs, txs' := draft.block.txs, draft'.block.txs;
    var receipts' := draft'.block.header.receipts;
    assert Hashes(chain, txs') == Hashes(chain, txs) + [chain.txHash(tx)];
    forall i | 0 <= i < |txs'|
      ensures chain.txHash(txs'[i]) in receipts'
      ensures OwnsReceipt(chain, txs', i) ==> ReceiptFor(chain, txs'[i], i, receipts'[chain.txHash(txs'[i])])
    {
      if i < |txs| && OwnsReceipt(chain, txs', i) {
        assert txs'[|txs|] == tx;
        assert OwnsReceipt(chain, txs, i) by {
          forall j | i < j < |txs| ensures chain.txHash(txs[j]) != chain.txHash(txs[i]) {
            assert txs'[j] == txs[j];
          }
        }
      }
    }
  }

  lemma {:induction false} TopicBitsExact(chain: Chain, topics: seq<H256>, bit: nat)
    ensures bit in TopicBits(chain, topics) <==> exists t :: t in topics && bit in chain.bloomBits(TopicInput(t))
  {
    if topics != [] {
      var n := |topics| - 1;
      TopicBitsExact(chain, topics[..n], bit);
      assert topics == topics[..n] + [topics[n]];
    }
  }

  lemma {:induction false} LogsBitsExact(chain: Chain, logs: seq<LedgerLog>, bit: nat)
    ensures bit in LogsBits(chain, logs) <==> exists l :: l in logs && SetsBit(chain, l, bit)
  {
    if logs != [] {
      var n := |logs| - 1;
      LogsBitsExact(chain, logs[..n], bit);
      TopicBitsExact(chain, logs[n].topics, bit);
      assert bit in LogBits(chain, logs[n]) <==> SetsBit(chain, logs[n], bit);
      assert forall l :: l in logs <==> l in logs[..n] || l == logs[n] by {
        assert logs == logs[..n] + [logs[n]];
      }
    }
  }

  lemma {:induction false} ReceiptsBitsExact(chain: Chain, receipts: map<Hash, Receipt>, hashes: seq<Hash>, bit: nat)
    ensures bit in ReceiptsBits(chain, receipts, hashes) <==>
            exists h, l :: h in hashes && h in receipts && l in receipts[h].logs && SetsBit(chain, l, bit)
  {
    if hashes != [] {
      var n := |hashes| - 1;
      ReceiptsBitsExact(chain, receipts, hashes[..n], bit);
      assert hashes == hashes[..n] + [hashes[n]];
      if hashes[n] in receipts {
        LogsBitsExact(chain, receipts[hashes[n]].logs, bit);
      }
    }
  }

  lemma PricedIsSound(chain: Chain, txs: seq<Tx>, receipts: map<Hash, Receipt>, hashes: seq<Hash>, gas: nat)
    requires SoundReceipts(chain, txs, receipts)
    ensures SoundReceipts(chain, txs, Priced(receipts, hashes, gas))
    ensures GasOf(Priced(receipts, hashes, gas)) == GasOf(receipts)
  {
  }

  /** Pricing the receipts leaves their logs, and so the bits these set, alone. */
  lemma PricedSetsSameBits(chain: Chain, receipts: map<Hash, Receipt>, hashes: seq<Hash>, gas: nat, bit: nat)
    ensures SomeLogSetsBit(chain, Priced(receipts, hashes, gas), bit) <==> SomeLogSetsBit(chain, receipts, bit)
  {
    var priced := Priced(receipts, hashes, gas);
    assert forall h :: h in receipts ==> h in priced && priced[h].logs == receipts[h].logs;
  }

  /**
   Closing a block keeps its height, proposer, time, predecessor, transactions
   and receipts, but for the gas of the block that every receipt gets.
   */
  lemma ClosedKeepsItsDraft(chain: Chain, draft: Draft)
    requires SoundDraft(chain, draft)
    ensures var b := Closed(chain, draft);
            var receipts := draft.block.header.receipts;
            && b.txs == draft.block.txs
            && b.header.height == draft.block.header.height && b.header.prevHash == draft.block.header.prevHash
            && b.header.proposer == draft.block.header.proposer && b.header.timestamp == draft.block.header.timestamp
            && b.headerHash == chain.headerHash(b.header)
            && b.header.receipts.Keys == receipts.Keys
            && forall h :: h in receipts ==>
                 b.header.receipts[h] ==
                 receipts[h].(blockGasUsed := Sum(map k | k in receipts :: receipts[k].txGasUsed as nat))
  {
    var receipts := draft.block.header.receipts;
    assert GasOf(receipts) == map k | k in receipts :: receipts[k].txGasUsed as nat;
    forall h | h in receipts ensures h in draft.hashes + [chain.emptyHash] {
      assert h in draft.hashes;
    }
  }

  lemma ClosedIsSound(chain: Chain, draft: Draft)
    requires SoundDraft(chain, draft)
    ensures SoundBlock(chain, Closed(chain, draft))
  {
    var receipts := draft.block.header.receipts;
    var hashes := draft.hashes + [chain.emptyHash];
    var gas := Sum(GasOf(receipts));
    var b := Closed(chain, draft);
    PricedIsSound(chain, draft.block.txs, receipts, hashes, gas);
    assert b.header.receipts == Priced(receipts, hashes, gas);
    ClosedKeepsItsDraft(chain, draft);
    forall bit: nat ensures bit in b.bloom <==> SomeLogSetsBit(chain, b.header.receipts, bit) {
      ClosedBloomExact(chain, draft, bit);
    }
  }

  lemma ClosedBloomExact(chain: Chain, draft: Draft, bit: nat)
    requires SoundDraft(chain, draft)
    ensures bit in Closed(chain, draft).bloom <==> SomeLogSetsBit(chain, Closed(chain, draft).header.receipts, bit)
  {
    var receipts := draft.block.header.receipts;
    var hashes := draft.hashes + [chain.emptyHash];
    ReceiptsBitsExact(chain, receipts, hashes, bit);
    PricedSetsSameBits(chain, receipts, hashes, Sum(GasOf(receipts)), bit);
    assert forall h :: h in receipts ==> h in draft.hashes;
  }

  lemma StepKeepsSound(chain: Chain, p: Plain, ev: Event)
    requires Sound(chain, p) && Legal(p, ev) && PlainStep(chain, p, ev).Some?
    ensures Sound(chain, PlainStep(chain, p, ev).value)
  {
    match ev {
      case DeliverTx(Some(tx)) =>
        var pending := p.pending.value;
        var effect := Effect(chain, pending.state, p.blockHashes, tx);
        if effect.Succeeded? {
          ExtendedIsSound(chain, pending.draft, tx, effect.ret);
        }
      case Commit => ClosedIsSound(chain, p.pending.value.draft);
      case _ =>
    }
  }

  /** Every legal run from genesis: the chain is linked and every block is sound. */
  lemma {:induction false} RunKeepsChain(chain: Chain, p: Plain, events: seq<Event>)
    requires ChainShape(chain, p) && Sound(chain, p)
    requires LegalRun(chain, p, events) && PlainRun(chain, p, events).Some?
    ensures ChainShape(chain, PlainRun(chain, p, events).value) && Sound(chain, PlainRun(chain, p, events).value)
    decreases |events|
  {
    if events != [] {
      StepKeepsShape(chain, p, events[0]);
      StepKeepsSound(chain, p, events[0]);
      RunKeepsChain(chain, PlainStep(chain, p, events[0]).value, events[1..]);
    }
  }

  lemma ReachableChain(chain: Chain, st: ChainState, events: seq<Event>)
    requires LegalRun(chain, Genesis(st), events) && PlainRun(chain, Genesis(st), events).Some?
    ensures ChainShape(chain, PlainRun(chain, Genesis(st), events).value)
    ensures Sound(chain, PlainRun(chain, Genesis(st), events).value)
  {
    RunKeepsChain(chain, Genesis(st), events);
  }

  // ---------- what a run delivers ----------

  /** A delivered transaction and the ledger it met. */
  datatype Delivery = Delivery(on: Plain, tx: Tx)

  function DeliveryOf(p: Plain, ev: Event): set<Delivery> {
    if ev.DeliverTx? && ev.tx.Some? then {Delivery(p, ev.tx.value)} else {}
  }

  ghost function Deliveries(chain: Chain, p: Plain, events: seq<Event>): set<Delivery>
    requires LegalRun(chain, p, events)
    decreases |events|
  {
    if events == [] then {}
    else
      DeliveryOf(p, events[0]) +
      match PlainStep(chain, p, events[0])
      case None => {}
      case Some(q) => Deliveries(chain, q, events[1..])
  }

  // ---------- no transaction succeeds twice ----------

  predicate AtMostOnce(txs: seq<Tx>, t: Tx) {
    forall i, j :: 0 <= i < j < |txs| && txs[i] == t ==> txs[j] != t
  }

  predicate Distinct(txs: seq<Tx>) {
    forall i, j :: 0 <= i < j < |txs| ==> txs[i] != txs[j]
  }

  /** The transactions of blocks 1..n, in chain order. */
  function Committed(blocks: map<nat, Block>, n: nat): seq<Tx> {
    if n == 0 then [] else Committed(blocks, n - 1) + (if n in blocks then blocks[n].txs else [])
  }

  function Past(p: Plain): seq<Tx> {
    Committed(p.blocks, LastHeight(p.blocks))
  }

  /** Everything on record, the open block included. */
  function OnRecord(p: Plain): seq<Tx> {
    if p.pending.Some? then Past(p) + p.pending.value.draft.block.txs else Past(p)
  }

  /** The signer's nonce has moved past this transaction's. */
  predicate Spent(chain: Chain, st: ChainState, t: Tx) {
    t.Evm? && chain.signer(t.tx).Some? && t.tx.nonce < st.Account(chain.signer(t.tx).value).nonce
  }

  /** If `t` is on record, its nonce is spent. */
  predicate SpentOnceRecorded(chain: Chain, p: Plain, t: Tx) {
    && (t in Past(p) ==> Spent(chain, p.state, t))
    && (p.pending.Some? && t in OnRecord(p) ==> Spent(chain, p.pending.value.state, t))
  }

  predicate Raised(chain: Chain, d: Delivery) {
    d.on.pending.Some? ==> Raises(chain, d.on.pending.value.state, d.on.blockHashes, d.tx)
  }

  /** The delivery deletes the signer of `t`, which is on record by then. */
  predicate Reopens(chain: Chain, d: Delivery, t: Tx) {
    && d.on.pending.Some?
    && var st := d.on.pending.value.state;
    && (t in OnRecord(d.on) || (t == d.tx && Effect(chain, st, d.on.blockHashes, d.tx).Succeeded?))
    && t.Evm? && chain.signer(t.tx).Some?
    && chain.signer(t.tx).value in DeletedBy(chain, st, d.on.blockHashes, d.tx)
  }

  predicate HeightsInStep(p: Plain) {
    && TipHeight(p.blocks) == LastHeight(p.blocks)
    && (p.pending.Some? ==> p.pending.value.draft.block.header.height == LastHeight(p.blocks) + 1)
  }

  lemma DeliverRecords(chain: Chain, p: Plain, tx: Tx)
    requires p.pending.Some? && PlainStep(chain, p, DeliverTx(Some(tx))).Some?
    ensures var q := PlainStep(chain, p, DeliverTx(Some(tx))).value;
            var effect := Effect(chain, p.pending.value.state, p.blockHashes, tx);
            && Past(q) == Past(p) && q.state == p.state && q.pending.Some?
            && q.pending.value.state == StateAfter(p.pending.value.state, effect)
            && OnRecord(q) == if effect.Succeeded? then OnRecord(p) + [tx] else OnRecord(p)
  {
    var effect := Effect(chain, p.pending.value.state, p.blockHashes, tx);
    if effect.Succeeded? {
      assert Past(p) + (p.pending.value.draft.block.txs + [tx]) == OnRecord(p) + [tx];
    }
  }

  lemma RecordGrows(record: seq<Tx>, t: Tx, tx: Tx)
    ensures t in record + [tx] <==> t in record || t == tx
    ensures AtMostOnce(record, t) && (t == tx ==> t !in record) ==> AtMostOnce(record + [tx], t)
  {
  }

  /** Whether the nonce of `t` is spent after a transaction, if it was before or `t` is that transaction. */
  lemma SpentMoves(chain: Chain, st: ChainState, hashes: map<nat, H256>, t: Tx, tx: Tx)
    requires Effect(chain, st, hashes, tx).Succeeded?
    requires Spent(chain, st, t) || (t == tx && Raises(chain, st, hashes, tx))
    ensures t.Evm? && chain.signer(t.tx).Some?
    ensures Spent(chain, StateAfter(st, Effect(chain, st, hashes, tx)), t) <==>
            chain.signer(t.tx).value !in DeletedBy(chain, st, hashes, tx)
    ensures t == tx ==> !Spent(chain, st, t)
  {
    NoncesRise(chain, st, hashes, tx, 0);
    NoncesRise(chain, st, hashes, tx, chain.signer(t.tx).value);
  }

  lemma UnsuccessfulChangesNoNonce(chain: Chain, st: ChainState, hashes: map<nat, H256>, t: Tx, tx: Tx)
    requires !Effect(chain, st, hashes, tx).Succeeded?
    ensures DeletedBy(chain, st, hashes, tx) == {}
    ensures Spent(chain, st, t) ==> Spent(chain, StateAfter(st, Effect(chain, st, hashes, tx)), t)
  {
    if Spent(chain, st, t) {
      NoncesRise(chain, st, hashes, tx, chain.signer(t.tx).value);
    }
  }

  /** A delivery keeps the nonce of `t` spent exactly when it does not delete its signer. */
  lemma DeliverKeepsSpent(chain: Chain, p: Plain, t: Tx, tx: Tx)
    requires p.pending.Some? && PlainStep(chain, p, DeliverTx(Some(tx))).Some?
    requires SpentOnceRecorded(chain, p, t) && (tx == t ==> Raised(chain, Delivery(p, tx)))
    ensures var q := PlainStep(chain, p, DeliverTx(Some(tx))).value;
            && (SpentOnceRecorded(chain, q, t) <==> !Reopens(chain, Delivery(p, tx), t))
            && (AtMostOnce(OnRecord(p), t) ==> AtMostOnce(OnRecord(q), t))
  {
    var st := p.pending.value.state;
    DeliverRecords(chain, p, tx);
    if Effect(chain, st, p.blockHashes, tx).Succeeded? {
      RecordGrows(OnRecord(p), t, tx);
      if t in OnRecord(p) || t == tx {
        SpentMoves(chain, st, p.blockHashes, t, tx);
      }
    } else {
      UnsuccessfulChangesNoNonce(chain, st, p.blockHashes, t, tx);
    }
  }

  lemma {:induction false} CommittedPrefix(blocks: map<nat, Block>, n: nat, k: nat, block: Block)
    requires k > n
    ensures Committed(blocks[k := block], n) == Committed(blocks, n)
  {
    if n > 0 {
      CommittedPrefix(blocks, n - 1, k, block);
    }
  }

  /** Committing puts what was on record on the chain. */
  lemma CommitRecords(chain: Chain, p: Plain)
    requires HeightsInStep(p) && p.pending.Some?
    ensures var q := PlainStep(chain, p, Commit).value;
            HeightsInStep(q) && Past(q) == OnRecord(q) == OnRecord(p)
  {
    var n := LastHeight(p.blocks);
    var block := Closed(chain, p.pending.value.draft);
    var blocks := p.blocks[n + 1 := block];
    CommittedPrefix(p.blocks, n, n + 1, block);
    assert n + 1 in blocks;
    assert LastHeight(blocks) == n + 1;
    assert Committed(blocks, n + 1) == Committed(p.blocks, n) + block.txs;
  }

  /** Calls that deliver nothing put nothing on record, but for moving the open block onto the chain. */
  lemma UndeliveredKeepsSpent(chain: Chain, p: Plain, ev: Event, t: Tx)
    requires HeightsInStep(p) && Legal(p, ev) && !ev.DeliverTx?
    requires SpentOnceRecorded(chain, p, t)
    ensures var q := PlainStep(chain, p, ev).value;
            && HeightsInStep(q) && SpentOnceRecorded(chain, q, t)
            && (AtMostOnce(OnRecord(p), t) ==> AtMostOnce(OnRecord(q), t))
  {
    PastIsRecorded(p, t);
    if ev.Commit? {
      CommitRecords(chain, p);
    }
  }

  lemma StepKeepsSpent(chain: Chain, p: Plain, ev: Event, t: Tx)
    requires HeightsInStep(p) && Legal(p, ev) && PlainStep(chain, p, ev).Some?
    requires SpentOnceRecorded(chain, p, t)
    requires forall d :: d in DeliveryOf(p, ev) && d.tx == t ==> Raised(chain, d)
    ensures var q := PlainStep(chain, p, ev).value;
            && HeightsInStep(q)
            && (SpentOnceRecorded(chain, q, t) <==> forall d :: d in DeliveryOf(p, ev) ==> !Reopens(chain, d, t))
            && (AtMostOnce(OnRecord(p), t) ==> AtMostOnce(OnRecord(q), t))
  {
    if ev.DeliverTx? && ev.tx.Some? {
      DeliveredStep(chain, p, t, ev.tx.value);
    } else if !ev.DeliverTx? {
      UndeliveredKeepsSpent(chain, p, ev, t);
    }
  }

  lemma DeliveredStep(chain: Chain, p: Plain, t: Tx, tx: Tx)
    requires HeightsInStep(p) && p.pending.Some? && PlainStep(chain, p, DeliverTx(Some(tx))).Some?
    requires SpentOnceRecorded(chain, p, t)
    requires forall d :: d in DeliveryOf(p, DeliverTx(Some(tx))) && d.tx == t ==> Raised(chain, d)
    ensures var q := PlainStep(chain, p, DeliverTx(Some(tx))).value;
            && HeightsInStep(q)
            && (SpentOnceRecorded(chain, q, t) <==>
                forall d :: d in DeliveryOf(p, DeliverTx(Some(tx))) ==> !Reopens(chain, d, t))
            && (AtMostOnce(OnRecord(p), t) ==> AtMostOnce(OnRecord(q), t))
  {
    var d := Delivery(p, tx);
    assert d in DeliveryOf(p, DeliverTx(Some(tx)));
    assert (forall x :: x in DeliveryOf(p, DeliverTx(Some(tx))) ==> !Reopens(chain, x, t)) <==> !Reopens(chain, d, t);
    DeliverKeepsSpent(chain, p, t, tx);
  }

  lemma PastIsRecorded(p: Plain, t: Tx)
    ensures t in Past(p) ==> t in OnRecord(p)
    ensures AtMostOnce(OnRecord(p), t) ==> AtMostOnce(Past(p), t)
    ensures Past(p) + [] == Past(p)
  {
    var past, all := Past(p), OnRecord(p);
    assert forall i :: 0 <= i < |past| ==> all[i] == past[i];
  }

  /** In every state of the run the nonce of `t`, once on record, is spent. */
  ghost predicate AlwaysSpent(chain: Chain, p: Plain, events: seq<Event>, t: Tx)
    requires LegalRun(chain, p, events)
    decreases |events|
  {
    && SpentOnceRecorded(chain, p, t)
    && (events != [] && PlainStep(chain, p, events[0]).Some? ==>
          AlwaysSpent(chain, PlainStep(chain, p, events[0]).value, events[1..], t))
  }

  /**
   A recorded transaction's nonce stays spent throughout a run if and only if no
   delivery of the run deletes its signer.
   */
  lemma {:induction false} SpentIffSignerSpared(chain: Chain, p: Plain, events: seq<Event>, t: Tx)
    requires HeightsInStep(p) && SpentOnceRecorded(chain, p, t) && LegalRun(chain, p, events)
    requires forall d :: d in Deliveries(chain, p, events) && d.tx == t ==> Raised(chain, d)
    ensures AlwaysSpent(chain, p, events, t) <==>
            forall d :: d in Deliveries(chain, p, events) ==> !Reopens(chain, d, t)
    decreases |events|
  {
    if events != [] {
      if PlainStep(chain, p, events[0]).Some? {
        var q := PlainStep(chain, p, events[0]).value;
        StepKeepsSpent(chain, p, events[0], t);
        if SpentOnceRecorded(chain, q, t) {
          SpentIffSignerSpared(chain, q, events[1..], t);
        }
      } else {
        PanicsReopenNothing(chain, p, events[0], t);
      }
    }
  }

  lemma PanicsReopenNothing(chain: Chain, p: Plain, ev: Event, t: Tx)
    requires Legal(p, ev) && PlainStep(chain, p, ev).None? && SpentOnceRecorded(chain, p, t)
    ensures forall d :: d in DeliveryOf(p, ev) ==> !Reopens(chain, d, t)
  {
  }

  lemma {:induction false} RunKeepsOnce(chain: Chain, p: Plain, events: seq<Event>, t: Tx)
    requires HeightsInStep(p) && SpentOnceRecorded(chain, p, t) && AtMostOnce(OnRecord(p), t)
    requires LegalRun(chain, p, events) && PlainRun(chain, p, events).Some?
    requires forall d :: d in Deliveries(chain, p, events) && d.tx == t ==> Raised(chain, d)
    requires forall d :: d in Deliveries(chain, p, events) ==> !Reopens(chain, d, t)
    ensures AtMostOnce(OnRecord(PlainRun(chain, p, events).value), t)
    decreases |events|
  {
    if events != [] {
      StepKeepsSpent(chain, p, events[0], t);
      RunKeepsOnce(chain, PlainStep(chain, p, events[0]).value, events[1..], t);
    }
  }

  /**
   A transaction whose own successful runs raise its signer's nonce is on the
   chain twice only if some delivery, made when it was on record, deleted its signer.
   */
  lemma ReplayNeedsDeletion(chain: Chain, st: ChainState, events: seq<Event>, t: Tx)
    requires LegalRun(chain, Genesis(st), events) && PlainRun(chain, Genesis(st), events).Some?
    requires forall d :: d in Deliveries(chain, Genesis(st), events) && d.tx == t ==> Raised(chain, d)
    ensures !AtMostOnce(Past(PlainRun(chain, Genesis(st), events).value), t) ==>
              exists d :: d in Deliveries(chain, Genesis(st), events) && Reopens(chain, d, t)
  {
    if forall d :: d in Deliveries(chain, Genesis(st), events) ==> !Reopens(chain, d, t) {
      RunKeepsOnce(chain, Genesis(st), events, t);
      PastIsRecorded(PlainRun(chain, Genesis(st), events).value, t);
    }
  }

  /** The delivery raises its caller's nonce if it succeeds, and deletes no signer of what is on record by then. */
  ghost predicate KeepsRecordsSpent(chain: Chain, d: Delivery) {
    Raised(chain, d) && forall t :: !Reopens(chain, d, t)
  }

  /** Over a whole chain no transaction is recorded twice. */
  lemma NoReplay(chain: Chain, st: ChainState, events: seq<Event>)
    requires LegalRun(chain, Genesis(st), events) && PlainRun(chain, Genesis(st), events).Some?
    requires forall d :: d in Deliveries(chain, Genesis(st), events) ==> KeepsRecordsSpent(chain, d)
    ensures Distinct(Past(PlainRun(chain, Genesis(st), events).value))
  {
    var txs := Past(PlainRun(chain, Genesis(st), events).value);
    forall i, j | 0 <= i < j < |txs| ensures txs[i] != txs[j] {
      ReplayNeedsDeletion(chain, st, events, txs[i]);
    }
  }

  // ---------- a replay ----------

  /** Two senders; each run of the deleter's deletes the spender. */
  datatype Pair = Pair(spender: Byte, deleter: Byte)

  /** A free transaction of the account its payload names. */
  function FreeTx(sender: Byte): Tx {
    Evm(Legacy(0, 0, 1, Some(0), 0, [sender]))
  }

  /** Every run raises its caller's nonce; the deleter's deletes the spender as well. */
  function RunOf(addr: Address, who: Pair): Execution {
    Execution([IncNonce(addr)] + if addr == who.deleter then [SetDeleted(who.spender)] else [], 0, true, 0)
  }

  /** The chain with this executor, with no price for gas, and with senders read off the payload. */
  function Deleting(chain: Chain, who: Pair): Chain {
    chain.(gasPriceMin := 0,
           signer := (tx: TransactionAny) => if tx.rest == [] then None else Some(tx.rest[0]),
           execute := (tx: TransactionAny, addr: Address, st: ChainState, hashes: map<nat, H256>) => RunOf(addr, who))
  }

  lemma RunEnds(st: ChainState, addr: Address, who: Pair)
    requires st.Account(addr).nonce == 0
    ensures var f := FinalFrame(st, RunOf(addr, who));
            && f.Some?
            && f.value.deletes == (if addr == who.deleter then {who.spender} else {})
            && f.value.accounts.Keys == {addr} && f.value.accounts[addr].basic.nonce == 1
            && f.value.storages == map[]
  {
    var s1 := Step(NEW_STACK, st, IncNonce(addr)).value;
    var ops := RunOf(addr, who).ops;
    assert ops[0] == IncNonce(addr);
    assert Run(NEW_STACK, st, ops) == Run(s1, st, ops[1..]);
    if addr == who.deleter {
      assert ops[1..] == [SetDeleted(who.spender)];
      var s2 := Step(s1, st, SetDeleted(who.spender)).value;
      assert Run(s1, st, [SetDeleted(who.spender)]) == Run(s2, st, []);
    }
  }

  lemma FreeTxAccepted(chain: Chain, st: ChainState, sender: Byte, who: Pair)
    requires st.Account(sender).nonce == 0
    ensures PreExec(Deleting(chain, who), st, FreeTx(sender).tx) == Some((sender, 0))
  {
    RunsExactlyWhenCovered(Deleting(chain, who), st, FreeTx(sender).tx);
  }

  lemma FreeTxSucceeds(chain: Chain, st: ChainState, hashes: map<nat, H256>, sender: Byte, who: Pair, f: Frame)
    requires st.Account(sender).nonce == 0 && FinalFrame(st, RunOf(sender, who)) == Some(f)
    ensures var effect := Effect(Deleting(chain, who), st, hashes, FreeTx(sender));
            effect.Succeeded? && effect.state == Flushed(f, st)
  {
    FreeTxAccepted(chain, st, sender, who);
    var e := RunOf(sender, who);
    assert Deleting(chain, who).execute(FreeTx(sender).tx, sender, st, hashes) == e;
    assert e.gasUsed * 0 == 0;
    assert Exec(Deleting(chain, who), st, hashes, FreeTx(sender).tx, sender, 0) ==
           Some((ExecRet(true, 0, 0, sender, 0, f.logs), Flushed(f, st)));
  }

  /** What a free transaction of a sender with nonce zero does. */
  lemma FreeTxRuns(chain: Chain, st: ChainState, hashes: map<nat, H256>, sender: Byte, who: Pair)
    requires st.Account(sender).nonce == 0 && who.spender != who.deleter
    ensures var effect := Effect(Deleting(chain, who), st, hashes, FreeTx(sender));
            && effect.Succeeded?
            && (sender == who.deleter ==> effect.state.Account(who.spender).nonce == 0)
            && (sender == who.spender ==> effect.state.Account(who.deleter) == st.Account(who.deleter))
  {
    RunEnds(st, sender, who);
    var f := FinalFrame(st, RunOf(sender, who)).value;
    FreeTxSucceeds(chain, st, hashes, sender, who, f);
    FlushKeepsAccounts(f, st, who.spender);
    FlushKeepsAccounts(f, st, who.deleter);
  }

  /** Such a transaction joins the block being filled. */
  lemma FreeTxIsFolded(chain: Chain, hashes: map<nat, H256>, pending: Pending,
                       sender: Byte, who: Pair, txs: seq<Tx>)
    returns (next: Pending)
    requires pending.state.Account(sender).nonce == 0 && who.spender != who.deleter
    requires txs != [] && txs[0] == FreeTx(sender)
    ensures Folded(Deleting(chain, who), hashes, pending, txs) == Folded(Deleting(chain, who), hashes, next, txs[1..])
    ensures next.draft.block.txs == pending.draft.block.txs + [FreeTx(sender)]
    ensures next.draft.block.header.height == pending.draft.block.header.height
    ensures sender == who.deleter ==> next.state.Account(who.spender).nonce == 0
    ensures sender == who.spender ==> next.state.Account(who.deleter) == pending.state.Account(who.deleter)
  {
    var tx := FreeTx(sender);
    FreeTxRuns(chain, pending.state, hashes, sender, who);
    var effect := Effect(Deleting(chain, who), pending.state, hashes, tx);
    next := Pending(StateAfter(pending.state, effect), DraftAfter(Deleting(chain, who), pending.draft, tx, effect));
  }

  /** Sent by the spender, the deleter and the spender again; the first and the third are the same transaction. */
  function ReplayingTxs(who: Pair): seq<Tx> {
    [FreeTx(who.spender), FreeTx(who.deleter), FreeTx(who.spender)]
  }

  lemma AppendThree(txs: seq<Tx>, x: Tx, y: Tx, z: Tx)
    ensures txs + [x] + [y] + [z] == txs + [x, y, z]
  {
  }

  lemma {:induction false} ReplayIsFolded(chain: Chain, hashes: map<nat, H256>, pending: Pending, who: Pair)
    returns (folded: Pending)
    requires who.spender != who.deleter
    requires pending.state.Account(who.spender).nonce == 0 && pending.state.Account(who.deleter).nonce == 0
    ensures Folded(Deleting(chain, who), hashes, pending, ReplayingTxs(who)) == Some(folded)
    ensures folded.draft.block.txs == pending.draft.block.txs + ReplayingTxs(who)
    ensures folded.draft.block.header.height == pending.draft.block.header.height
  {
    var txs := ReplayingTxs(who);
    var p1 := FreeTxIsFolded(chain, hashes, pending, who.spender, who, txs);
    var p2 := FreeTxIsFolded(chain, hashes, p1, who.deleter, who, txs[1..]);
    var p3 := FreeTxIsFolded(chain, hashes, p2, who.spender, who, txs[1..][1..]);
    assert txs[1..][1..][1..] == [];
    folded := p3;
    AppendThree(pending.draft.block.txs, txs[0], txs[1], txs[2]);
  }

  lemma {:induction false} BlockHoldsFold(chain: Chain, p: Plain, proposer: Bytes, timestamp: nat, txs: seq<Tx>,
                                          folded: Pending)
    requires Folded(chain, p.blockHashes, Begun(p, proposer, timestamp), txs) == Some(folded)
    requires folded.draft.block.header.height == 1 + TipHeight(p.blocks) && folded.draft.block.txs == [] + txs
    ensures var after := AfterBlock(chain, p, proposer, timestamp, txs);
            && after.Some? && 1 + TipHeight(p.blocks) in after.value.blocks
            && after.value.blocks[1 + TipHeight(p.blocks)].txs == txs
  {
  }

  /**
   Deleting a signer does let its transaction in again: delivered, and delivered
   again after another run deleted its signer, it is in the next block twice.
   */
  lemma {:induction false} ReplayAfterDeletion(chain: Chain, p: Plain, proposer: Bytes, timestamp: nat, who: Pair)
    requires who.spender != who.deleter
    requires p.state.Account(who.spender).nonce == 0 && p.state.Account(who.deleter).nonce == 0
    ensures var after := AfterBlock(Deleting(chain, who), p, proposer, timestamp, ReplayingTxs(who));
            && after.Some? && 1 + TipHeight(p.blocks) in after.value.blocks
            && after.value.blocks[1 + TipHeight(p.blocks)].txs == ReplayingTxs(who)
  {
    var folded := ReplayIsFolded(chain, p.blockHashes, Begun(p, proposer, timestamp), who);
    BlockHoldsFold(Deleting(chain, who), p, proposer, timestamp, ReplayingTxs(who), folded);
  }

  /** No two of these transactions share a hash. */
  predicate CollisionFree(chain: Chain, txs: seq<Tx>) {
    forall i, j :: 0 <= i < j < |txs| && txs[i] != txs[j] ==> chain.txHash(txs[i]) != chain.txHash(txs[j])
  }

  lemma {:induction false} DistinctInBlock(blocks: map<nat, Block>, n: nat, h: nat)
    requires 1 <= h <= n && h in blocks && Distinct(Committed(blocks, n))
    ensures Distinct(blocks[h].txs)
  {
    var before := Committed(blocks, n - 1);
    var last := if n in blocks then blocks[n].txs else [];
    var all := before + last;
    assert Committed(blocks, n) == all;
    if h == n {
      forall i, j | 0 <= i < j < |last| ensures last[i] != last[j] {
        assert all[|before| + i] == last[i] && all[|before| + j] == last[j];
      }
    } else {
      forall i, j | 0 <= i < j < |before| ensures before[i] != before[j] {
        assert all[i] == before[i] && all[j] == before[j];
      }
      DistinctInBlock(blocks, n - 1, h);
    }
  }

  /** The gas of the receipts filed under these hashes, one by one. */
  function GasAlong(hashes: seq<Hash>, receipts: map<Hash, Receipt>): nat
    requires forall i :: 0 <= i < |hashes| ==> hashes[i] in receipts
  {
    if hashes == [] then 0
    else GasAlong(hashes[..|hashes| - 1], receipts) + receipts[hashes[|hashes| - 1]].txGasUsed
  }

  predicate DistinctHashes(hashes: seq<Hash>) {
    forall i, j :: 0 <= i < j < |hashes| ==> hashes[i] != hashes[j]
  }

  lemma OneHashFewer(hashes: seq<Hash>, receipts: map<Hash, Receipt>)
    requires hashes != [] && DistinctHashes(hashes) && receipts.Keys == set h | h in hashes
    ensures var shorter, h := hashes[..|hashes| - 1], hashes[|hashes| - 1];
            && DistinctHashes(shorter) && h in receipts
            && (receipts - {h}).Keys == (set k | k in shorter)
            && |receipts| == |receipts - {h}| + 1
            && forall i :: 0 <= i < |shorter| ==> shorter[i] in receipts - {h}
  {
  }

  lemma {:induction false} GasAddsUp(hashes: seq<Hash>, receipts: map<Hash, Receipt>)
    requires DistinctHashes(hashes) && receipts.Keys == set h | h in hashes
    ensures |receipts| == |hashes| && Sum(GasOf(receipts)) == GasAlong(hashes, receipts)
  {
    if hashes == [] {
      assert receipts == map[];
    } else {
      var shorter, h := hashes[..|hashes| - 1], hashes[|hashes| - 1];
      OneHashFewer(hashes, receipts);
      GasAddsUp(shorter, receipts - {h});
      SameGas(shorter, receipts - {h}, receipts);
      SumOfGas(receipts, h);
    }
  }

  lemma SumOfGas(receipts: map<Hash, Receipt>, h: Hash)
    requires h in receipts
    ensures Sum(GasOf(receipts)) == receipts[h].txGasUsed + Sum(GasOf(receipts - {h}))
  {
    SumRemove(GasOf(receipts), h);
    assert GasOf(receipts) - {h} == GasOf(receipts - {h});
  }

  lemma {:induction false} SameGas(hashes: seq<Hash>, x: map<Hash, Receipt>, y: map<Hash, Receipt>)
    requires forall i :: 0 <= i < |hashes| ==> hashes[i] in x && hashes[i] in y && x[hashes[i]] == y[hashes[i]]
    ensures GasAlong(hashes, x) == GasAlong(hashes, y)
  {
    if hashes != [] {
      SameGas(hashes[..|hashes| - 1], x, y);
    }
  }

  lemma DistinctTxsDistinctHashes(chain: Chain, txs: seq<Tx>)
    requires CollisionFree(chain, txs) && Distinct(txs)
    ensures DistinctHashes(Hashes(chain, txs))
  {
  }

  ghost predicate OneToOne(chain: Chain, b: Block) {
    var hashes := Hashes(chain, b.txs);
    && DistinctHashes(hashes)
    && b.header.receipts.Keys == (set h | h in hashes)
    && |b.header.receipts| == |b.txs|
    && (forall i :: 0 <= i < |b.txs| ==> ReceiptFor(chain, b.txs[i], i, b.header.receipts[hashes[i]]))
    && (forall k :: k in b.header.receipts ==>
          b.header.receipts[k].blockGasUsed == GasAlong(hashes, b.header.receipts))
  }

  lemma HashesIndex(chain: Chain, txs: seq<Tx>, i: nat)
    requires i < |txs|
    ensures Hashes(chain, txs)[i] == chain.txHash(txs[i]) && chain.txHash(txs[i]) in Hashes(chain, txs)
  {
    assert Hashes(chain, txs)[i] in Hashes(chain, txs);
  }

  lemma DistinctOwnReceipts(chain: Chain, txs: seq<Tx>, i: nat)
    requires DistinctHashes(Hashes(chain, txs)) && i < |txs|
    ensures OwnsReceipt(chain, txs, i)
  {
    forall j | i < j < |txs| ensures chain.txHash(txs[j]) != chain.txHash(txs[i]) {
      HashesIndex(chain, txs, i);
      HashesIndex(chain, txs, j);
    }
  }

  lemma ReceiptKeys(chain: Chain, txs: seq<Tx>, receipts: map<Hash, Receipt>)
    requires SoundReceipts(chain, txs, receipts)
    ensures receipts.Keys == set h | h in Hashes(chain, txs)
  {
  }

  lemma SoundIsOneToOne(chain: Chain, b: Block)
    requires SoundBlock(chain, b) && DistinctHashes(Hashes(chain, b.txs))
    ensures OneToOne(chain, b)
  {
    var hashes := Hashes(chain, b.txs);
    var receipts := b.header.receipts;
    ReceiptKeys(chain, b.txs, receipts);
    GasAddsUp(hashes, receipts);
    forall i | 0 <= i < |b.txs| ensures ReceiptFor(chain, b.txs[i], i, receipts[hashes[i]]) {
      HashesIndex(chain, b.txs, i);
      DistinctOwnReceipts(chain, b.txs, i);
    }
  }

  /**
   If no signer of a recorded transaction is deleted and the block's hashes do
   not collide, the receipts of a block are one-to-one with its transactions,
   each is numbered by its position, and the block gas in each is the sum over
   all of them.
   */
  lemma ReceiptsMatchTransactions(chain: Chain, st: ChainState, events: seq<Event>, h: nat)
    requires LegalRun(chain, Genesis(st), events) && PlainRun(chain, Genesis(st), events).Some?
    requires forall d :: d in Deliveries(chain, Genesis(st), events) ==> KeepsRecordsSpent(chain, d)
    requires h in PlainRun(chain, Genesis(st), events).value.blocks
    requires CollisionFree(chain, PlainRun(chain, Genesis(st), events).value.blocks[h].txs)
    ensures OneToOne(chain, PlainRun(chain, Genesis(st), events).value.blocks[h])
  {
    var p := PlainRun(chain, Genesis(st), events).value;
    ReachableChain(chain, st, events);
    NoReplay(chain, st, events);
    DistinctInBlock(p.blocks, LastHeight(p.blocks), h);
    DistinctTxsDistinctHashes(chain, p.blocks[h].txs);
    SoundIsOneToOne(chain, p.blocks[h]);
  }

  // ---------- supply over whole runs ----------

  /** Currency gone from circulation: settled in committed blocks, and so far in the open one. */
  datatype Drained = Drained(settled: nat, open: nat)

  /** What one event drains, given what its transaction costs; a restart takes back the open block's. */
  function DrainBy(ev: Event, cost: nat, d: Drained): Drained {
    match ev
    case BeginBlock(_, _) => d.(open := 0)
    case DeliverTx(_) => d.(open := d.open + cost)
    case CheckTx(_, _) => d
    case Commit => Drained(d.settled + d.open, 0)
    case Restart => d.(open := 0)
  }

  ghost function EventCost(chain: Chain, p: Plain, ev: Event, drain: Drain): nat
    requires Legal(p, ev)
  {
    if ev.DeliverTx? && ev.tx.Some? then
      CostOf(chain, p.pending.value.state, p.blockHashes, ev.tx.value, drain)
    else 0
  }

  ghost function DrainedBy(chain: Chain, p: Plain, events: seq<Event>, drain: Drain, d: Drained): Drained
    requires LegalRun(chain, p, events)
    decreases |events|
  {
    if events == [] then d
    else match PlainStep(chain, p, events[0])
      case None => d
      case Some(q) =>
        DrainedBy(chain, q, events[1..], drain, DrainBy(events[0], EventCost(chain, p, events[0], drain), d))
  }

  /** What the committed state and the open block hold, and what was drained on the way there, is the total. */
  ghost predicate Accounted(p: Plain, fees: Drained, gone: Drained, clips: Drained, total: nat) {
    && Supply(p.state.accounts) + fees.settled + gone.settled + clips.settled == total
    && (p.pending.Some? ==>
          Supply(p.pending.value.state.accounts) +
          fees.settled + fees.open + gone.settled + gone.open + clips.settled + clips.open == total)
  }

  lemma StepAccounts(chain: Chain, p: Plain, ev: Event, fees: Drained, gone: Drained, clips: Drained, total: nat)
    requires Accounted(p, fees, gone, clips, total) && Legal(p, ev) && PlainStep(chain, p, ev).Some?
    ensures Accounted(PlainStep(chain, p, ev).value,
                      DrainBy(ev, EventCost(chain, p, ev, Fee), fees),
                      DrainBy(ev, EventCost(chain, p, ev, Destruction), gone),
                      DrainBy(ev, EventCost(chain, p, ev, Clipping), clips), total)
    ensures total <= U256_MAX ==> EventCost(chain, p, ev, Clipping) == 0
  {
    if ev.DeliverTx? && ev.tx.Some? {
      var q := PlainStep(chain, p, ev).value;
      assert q.pending.Some? && q.state == p.state;
      assert Supply(q.pending.value.state.accounts) + EventCost(chain, p, ev, Fee) +
             EventCost(chain, p, ev, Destruction) + EventCost(chain, p, ev, Clipping) ==
             Supply(p.pending.value.state.accounts) by {
        SupplyAfterTx(chain, p.pending.value.state, p.blockHashes, ev.tx.value);
      }
      if total <= U256_MAX {
        SupplyAfterTx(chain, p.pending.value.state, p.blockHashes, ev.tx.value);
      }
    }
  }

  /** Nothing more was drained on the way from `d` to `e`. */
  predicate NoMore(d: Drained, e: Drained) {
    e.settled + e.open <= d.settled + d.open
  }

  lemma {:induction false} RunAccounts(chain: Chain, p: Plain, events: seq<Event>,
                                       fees: Drained, gone: Drained, clips: Drained, total: nat)
    requires Accounted(p, fees, gone, clips, total)
    requires LegalRun(chain, p, events) && PlainRun(chain, p, events).Some?
    ensures Accounted(PlainRun(chain, p, events).value,
                      DrainedBy(chain, p, events, Fee, fees),
                      DrainedBy(chain, p, events, Destruction, gone),
                      DrainedBy(chain, p, events, Clipping, clips), total)
    ensures total <= U256_MAX ==> NoMore(clips, DrainedBy(chain, p, events, Clipping, clips))
    decreases |events|
  {
    if events != [] {
      var ev := events[0];
      StepAccounts(chain, p, ev, fees, gone, clips, total);
      RunAccounts(chain, PlainStep(chain, p, ev).value, events[1..],
                  DrainBy(ev, EventCost(chain, p, ev, Fee), fees),
                  DrainBy(ev, EventCost(chain, p, ev, Destruction), gone),
                  DrainBy(ev, EventCost(chain, p, ev, Clipping), clips), total);
    }
  }

  predicate Spares(chain: Chain, d: Delivery) {
    d.on.pending.Some? ==> Sparing(chain, d.on.pending.value.state, d.on.blockHashes, d.tx)
  }

  /** No delivery of the run resets a balance or deletes an account. */
  ghost predicate SparingThroughout(chain: Chain, p: Plain, events: seq<Event>)
    requires LegalRun(chain, p, events)
  {
    forall d :: d in Deliveries(chain, p, events) ==> Spares(chain, d)
  }

  lemma SparingEventsDestroyNothing(chain: Chain, p: Plain, ev: Event, d: Drained)
    requires Legal(p, ev)
    requires forall x :: x in DeliveryOf(p, ev) ==> Spares(chain, x)
    ensures NoMore(d, DrainBy(ev, EventCost(chain, p, ev, Destruction), d))
  {
    if ev.DeliverTx? && ev.tx.Some? {
      assert Spares(chain, Delivery(p, ev.tx.value));
      SparingTxsDestroyNothing(chain, p.pending.value.state, p.blockHashes, ev.tx.value);
    }
  }

  lemma SparingGoesOn(chain: Chain, p: Plain, events: seq<Event>)
    requires LegalRun(chain, p, events) && SparingThroughout(chain, p, events) && events != []
    ensures forall d :: d in DeliveryOf(p, events[0]) ==> Spares(chain, d)
    ensures PlainStep(chain, p, events[0]).Some? ==>
              SparingThroughout(chain, PlainStep(chain, p, events[0]).value, events[1..])
  {
  }

  lemma {:induction false} SparingRunsDestroyNothing(chain: Chain, p: Plain, events: seq<Event>, d: Drained)
    requires LegalRun(chain, p, events) && SparingThroughout(chain, p, events)
    ensures NoMore(d, DrainedBy(chain, p, events, Destruction, d))
    decreases |events|
  {
    if events != [] && PlainStep(chain, p, events[0]).Some? {
      var ev := events[0];
      SparingGoesOn(chain, p, events);
      SparingEventsDestroyNothing(chain, p, ev, d);
      SparingRunsDestroyNothing(chain, PlainStep(chain, p, ev).value, events[1..],
                                DrainBy(ev, EventCost(chain, p, ev, Destruction), d));
    }
  }

  lemma SparingTxsDestroyNothing(chain: Chain, st: ChainState, hashes: map<nat, H256>, tx: Tx)
    requires Sparing(chain, st, hashes, tx)
    ensures CostOf(chain, st, hashes, tx, Destruction) == 0
  {
    if tx.Evm? && PreExec(chain, st, tx.tx).Some? {
      var (addr, _) := PreExec(chain, st, tx.tx).value;
      SparingDestroysNothing(st, chain.execute(tx.tx, addr, st, hashes));
    }
  }

  /**
   Over any legal run from any genesis the committed supply is the genesis
   supply less the fees paid, the currency destroyed and the currency clipped,
   so it never rises. It falls by the fees alone if no delivered run resets a
   balance or deletes an account and the genesis supply is below 2^256.
   */
  lemma {:induction false} SupplyOverRuns(chain: Chain, st: ChainState, events: seq<Event>)
    requires LegalRun(chain, Genesis(st), events) && PlainRun(chain, Genesis(st), events).Some?
    ensures var none := Drained(0, 0);
            var p := PlainRun(chain, Genesis(st), events).value;
            var fees := DrainedBy(chain, Genesis(st), events, Fee, none).settled;
            var destroyed := DrainedBy(chain, Genesis(st), events, Destruction, none).settled;
            var clipped := DrainedBy(chain, Genesis(st), events, Clipping, none).settled;
            && Supply(p.state.accounts) + fees + destroyed + clipped == Supply(st.accounts)
            && (Supply(st.accounts) <= U256_MAX ==> clipped == 0)
            && (SparingThroughout(chain, Genesis(st), events) ==> destroyed == 0)
  {
    var none := Drained(0, 0);
    RunAccounts(chain, Genesis(st), events, none, none, none, Supply(st.accounts));
    if SparingThroughout(chain, Genesis(st), events) {
      SparingRunsDestroyNothing(chain, Genesis(st), events, none);
    }
  }
}
