/**
 The `logs` query (src/rpc/eth.rs, src/rpc/utils.rs, src/common/mod.rs): a range
 scan that skips blocks by their bloom, against the scan of every block.
 */
module LogSearch {
  import opened Wrappers
  import opened EvmTypes
  import opened ChainTypes
  import opened PlainLedger
  import opened ChainProperties

  datatype BlockNumber = ByHash(hash: Hash) | Num(number: nat) | Latest | Earliest | Pending

  datatype Filter = Filter(
    fromBlock: Option<BlockNumber>, toBlock: Option<BlockNumber>, blockHash: Option<Hash>,
    address: Option<seq<Address>>, topics: Option<seq<seq<Option<H256>>>>)

  datatype Web3Log = Web3Log(
    address: Address, topics: seq<H256>, data: Bytes, blockHash: Hash, blockNumber: nat,
    transactionHash: Hash, transactionIndex: nat, logIndex: nat, transactionLogIndex: nat, removed: bool)

  /** The matchers of the RPC library, for whole logs and for blooms. */
  datatype Matchers = Matchers(
    filterAddress: (Filter, Web3Log) -> bool,
    filterTopics: (Filter, Web3Log) -> bool,
    addressInBloom: (Filter, Bloom) -> bool,
    topicsInBloom: (Filter, Bloom) -> bool)

  ghost predicate HoldsTopics(chain: Chain, topics: seq<H256>, b: Bloom) {
    forall t :: t in topics ==> chain.bloomBits(TopicInput(t)) <= b
  }

  /** A bloom over a log's address and topics passes every filter the log itself passes. */
  ghost predicate BloomsAreSound(chain: Chain, m: Matchers) {
    && (forall f: Filter, log: Web3Log, b: Bloom ::
          (f.address.None? || (m.filterAddress(f, log) && chain.bloomBits(AddressInput(log.address)) <= b)) ==>
            m.addressInBloom(f, b))
    && (forall f: Filter, log: Web3Log, b: Bloom ::
          (f.topics.None? || (m.filterTopics(f, log) && HoldsTopics(chain, log.topics, b))) ==> m.topicsInBloom(f, b))
  }

  // ---------- one block ----------

  function ToWeb3(l: LedgerLog, block: Block, height: nat, txHash: Hash): Web3Log {
    Web3Log(l.address, l.topics, l.data, block.headerHash, height, txHash,
            l.txIndex, l.logIndexInBlock, l.logIndexInTx, false)
  }

  predicate Passes(m: Matchers, f: Filter, log: Web3Log) {
    && (f.address.Some? ==> m.filterAddress(f, log))
    && (f.topics.Some? ==> m.filterTopics(f, log))
  }

  function Rank(h: Hash): nat {
    match h
    case NoHash => 0
    case Digest(id) => id + 1
  }

  predicate IsLeast(keys: set<Hash>, k: Hash) {
    k in keys && forall j | j in keys :: Rank(k) <= Rank(j)
  }

  lemma {:induction false} LeastExists(keys: set<Hash>)
    requires keys != {}
    ensures exists k :: IsLeast(keys, k)
    decreases |keys|
  {
    var k :| k in keys;
    var rest := keys - {k};
    var least := k;
    if rest != {} {
      LeastExists(rest);
      var l :| IsLeast(rest, l);
      least := if Rank(k) <= Rank(l) then k else l;
    }
    forall j | j in keys ensures Rank(least) <= Rank(j) {
      assert j == k || j in rest;
    }
    assert IsLeast(keys, least);
  }

  function Least(keys: set<Hash>): (k: Hash)
    requires keys != {}
    ensures IsLeast(keys, k)
  {
    LeastExists(keys);
    var k :| IsLeast(keys, k);
    k
  }

  /** The logs of one receipt that pass, in order. */
  function ReceiptLogs(m: Matchers, f: Filter, block: Block, height: nat, txHash: Hash, logs: seq<LedgerLog>)
    : seq<Web3Log>
  {
    if logs == [] then []
    else
      var log := ToWeb3(logs[|logs| - 1], block, height, txHash);
      ReceiptLogs(m, f, block, height, txHash, logs[..|logs| - 1]) + if Passes(m, f, log) then [log] else []
  }

  /** The logs of the given receipts that pass, by ascending transaction hash. */
  function KeyedLogs(m: Matchers, f: Filter, block: Block, height: nat, keys: set<Hash>): seq<Web3Log>
    requires keys <= block.header.receipts.Keys
    decreases |keys|
  {
    if keys == {} then []
    else
      var h := Least(keys);
      ReceiptLogs(m, f, block, height, h, block.header.receipts[h].logs) + KeyedLogs(m, f, block, height, keys - {h})
  }

  function BlockLogs(m: Matchers, f: Filter, block: Block, height: nat): seq<Web3Log> {
    KeyedLogs(m, f, block, height, block.header.receipts.Keys)
  }

  method FilterReceiptLogs(m: Matchers, f: Filter, block: Block, height: nat, txHash: Hash, found: seq<LedgerLog>)
    returns (logs: seq<Web3Log>)
    ensures logs == ReceiptLogs(m, f, block, height, txHash, found)
  {
    logs := [];
    for i := 0 to |found|
      invariant logs == ReceiptLogs(m, f, block, height, txHash, found[..i])
    {
      assert found[..i + 1][..i] == found[..i];
      var log := ToWeb3(found[i], block, height, txHash);
      var add := true;
      if f.address.Some? && f.topics.Some? {
        if !m.filterAddress(f, log) || !m.filterTopics(f, log) { add := false; }
      } else if f.address.Some? {
        if !m.filterAddress(f, log) { add := false; }
      } else if f.topics.Some? {
        if !m.filterTopics(f, log) { add := false; }
      }
      if add {
        logs := logs + [log];
      }
    }
    assert found[..|found|] == found;
  }

  method FilterBlockLogs(m: Matchers, f: Filter, block: Block, height: nat) returns (logs: seq<Web3Log>)
    ensures logs == BlockLogs(m, f, block, height)
  {
    logs := [];
    var keys := block.header.receipts.Keys;
    while keys != {}
      invariant keys <= block.header.receipts.Keys
      invariant logs + KeyedLogs(m, f, block, height, keys) == BlockLogs(m, f, block, height)
      decreases |keys|
    {
      var txHash := Least(keys);
      var found := FilterReceiptLogs(m, f, block, height, txHash, block.header.receipts[txHash].logs);
      assert logs + (found + KeyedLogs(m, f, block, height, keys - {txHash})) ==
             logs + found + KeyedLogs(m, f, block, height, keys - {txHash});
      logs := logs + found;
      keys := keys - {txHash};
    }
  }

  /** A block's logs that pass are exactly those of its receipts that pass the filter. */
  lemma {:induction false} KeyedLogsAreMatches(m: Matchers, f: Filter, block: Block, height: nat,
                                               keys: set<Hash>, log: Web3Log)
    requires keys <= block.header.receipts.Keys
    ensures log in KeyedLogs(m, f, block, height, keys) <==>
            Passes(m, f, log) &&
            exists h, l :: h in keys && l in block.header.receipts[h].logs && log == ToWeb3(l, block, height, h)
    decreases |keys|
  {
    if keys != {} {
      var h := Least(keys);
      ReceiptLogsAreMatches(m, f, block, height, h, block.header.receipts[h].logs, log);
      KeyedLogsAreMatches(m, f, block, height, keys - {h}, log);
    }
  }

  lemma {:induction false} ReceiptLogsAreMatches(m: Matchers, f: Filter, block: Block, height: nat, h: Hash,
                                                 logs: seq<LedgerLog>, log: Web3Log)
    ensures log in ReceiptLogs(m, f, block, height, h, logs) <==>
            Passes(m, f, log) && exists l :: l in logs && log == ToWeb3(l, block, height, h)
  {
    if logs != [] {
      ReceiptLogsAreMatches(m, f, block, height, h, logs[..|logs| - 1], log);
      assert logs == logs[..|logs| - 1] + [logs[|logs| - 1]];
    }
  }

  // ---------- heights ----------

  /** The first block with this hash, by height; 0 if there is none. */
  predicate IsHeightOf(blocks: map<nat, Block>, hash: Hash, h: nat) {
    if h in blocks && blocks[h].headerHash == hash
    then forall k :: k in blocks && k < h ==> blocks[k].headerHash != hash
    else h == 0 && forall k :: k in blocks ==> blocks[k].headerHash != hash
  }

  method FindByHash(blocks: map<nat, Block>, hash: Hash) returns (found: Option<nat>)
    ensures found.Some? ==>
              && found.value in blocks && blocks[found.value].headerHash == hash
              && IsHeightOf(blocks, hash, found.value)
    ensures found.None? ==> forall k :: k in blocks ==> blocks[k].headerHash != hash
  {
    for h := 0 to LastHeight(blocks) + 1
      invariant forall k :: k in blocks && k < h ==> blocks[k].headerHash != hash
    {
      if h in blocks && blocks[h].headerHash == hash {
        return Some(h);
      }
    }
    found := None;
  }

  ghost predicate IsHeight(bn: Option<BlockNumber>, blocks: map<nat, Block>, h: nat) {
    match bn
    case None => h == LastHeight(blocks)
    case Some(Latest) => h == LastHeight(blocks)
    case Some(Num(n)) => h == n
    case Some(Earliest) => h == 1
    case Some(Pending) => h == 0
    case Some(ByHash(hash)) => IsHeightOf(blocks, hash, h)
  }

  method BlockNumberToHeight(bn: Option<BlockNumber>, blocks: map<nat, Block>) returns (h: nat)
    ensures IsHeight(bn, blocks, h)
  {
    var number := bn.GetOr(Latest);
    match number {
      case ByHash(hash) =>
        var found := FindByHash(blocks, hash);
        h := found.GetOr(0);
      case Num(n) => h := n;
      case Latest => h := LastHeight(blocks);
      case Earliest => h := 1;
      case Pending => h := 0;
    }
  }

  // ---------- the query ----------

  /** Every block from `from` up to but not including `end`, scanned in full. */
  function FullScan(m: Matchers, f: Filter, blocks: map<nat, Block>, from: nat, end: nat): seq<Web3Log>
    decreases end
  {
    if end <= from then []
    else
      FullScan(m, f, blocks, from, end - 1) +
      if end - 1 in blocks then BlockLogs(m, f, blocks[end - 1], end - 1) else []
  }

  /** Every bloom covers the logs of its block. */
  ghost predicate BloomsCover(chain: Chain, blocks: map<nat, Block>) {
    forall h, k :: h in blocks && k in blocks[h].header.receipts ==>
      forall l :: l in blocks[h].header.receipts[k].logs ==> Holds(chain, l, blocks[h].bloom)
  }

  /** The bloom holds the log's address and topics. */
  ghost predicate Holds(chain: Chain, l: LedgerLog, b: Bloom) {
    chain.bloomBits(AddressInput(l.address)) <= b && HoldsTopics(chain, l.topics, b)
  }

  /** A log that passes takes the bloom of its block past both tests. */
  lemma PassingLogsShowInBloom(chain: Chain, m: Matchers, f: Filter, blocks: map<nat, Block>, h: nat, log: Web3Log)
    requires BloomsAreSound(chain, m) && BloomsCover(chain, blocks) && h in blocks
    requires log in BlockLogs(m, f, blocks[h], h)
    ensures m.addressInBloom(f, blocks[h].bloom) && m.topicsInBloom(f, blocks[h].bloom)
  {
    KeyedLogsAreMatches(m, f, blocks[h], h, blocks[h].header.receipts.Keys, log);
    var k, l :| k in blocks[h].header.receipts && l in blocks[h].header.receipts[k].logs &&
                log == ToWeb3(l, blocks[h], h, k);
    assert Holds(chain, l, blocks[h].bloom);
  }

  /** So a block the bloom tests skip has no log that passes. */
  lemma SkippedBlocksAreEmpty(chain: Chain, m: Matchers, f: Filter, blocks: map<nat, Block>, h: nat)
    requires BloomsAreSound(chain, m) && BloomsCover(chain, blocks) && h in blocks
    requires !m.addressInBloom(f, blocks[h].bloom) || !m.topicsInBloom(f, blocks[h].bloom)
    ensures BlockLogs(m, f, blocks[h], h) == []
  {
    var found := BlockLogs(m, f, blocks[h], h);
    if found != [] {
      PassingLogsShowInBloom(chain, m, f, blocks, h, found[0]);
    }
  }

  // ---------- what a query must answer, place by place ----------

  /** Where a log lies: its block, the receipt it is filed in, and its position there. */
  datatype Place = Place(height: nat, receipt: Hash, index: nat)

  /** Lower blocks first; within a block by receipt, and within a receipt by position. */
  predicate Before(p: Place, q: Place) {
    || p.height < q.height
    || (p.height == q.height && Rank(p.receipt) < Rank(q.receipt))
    || (p.height == q.height && p.receipt == q.receipt && p.index < q.index)
  }

  predicate IsPlace(blocks: map<nat, Block>, p: Place) {
    && p.height in blocks
    && p.receipt in blocks[p.height].header.receipts
    && p.index < |blocks[p.height].header.receipts[p.receipt].logs|
  }

  /** The log at a place, with every field a client sees of it, passes the filter. */
  predicate Wanted(m: Matchers, f: Filter, blocks: map<nat, Block>, p: Place, log: Web3Log) {
    && IsPlace(blocks, p)
    && var l := blocks[p.height].header.receipts[p.receipt].logs[p.index];
    && log.address == l.address && log.topics == l.topics && log.data == l.data
    && log.blockHash == blocks[p.height].headerHash && log.blockNumber == p.height
    && log.transactionHash == p.receipt && log.transactionIndex == l.txIndex
    && log.logIndex == l.logIndexInBlock && log.transactionLogIndex == l.logIndexInTx && !log.removed
    && (f.address.Some? ==> m.filterAddress(f, log))
    && (f.topics.Some? ==> m.filterTopics(f, log))
  }

  /** `logs` are the wanted logs of the region, each once and in order. */
  ghost predicate Lists(m: Matchers, f: Filter, blocks: map<nat, Block>, region: iset<Place>,
                        logs: seq<Web3Log>, places: seq<Place>) {
    && |places| == |logs|
    && (forall n :: 0 <= n < |logs| ==> places[n] in region && Wanted(m, f, blocks, places[n], logs[n]))
    && (forall i, j :: 0 <= i < j < |places| ==> Before(places[i], places[j]))
    && (forall p, log :: p in region && Wanted(m, f, blocks, p, log) ==> p in places)
  }

  ghost function Heights(from: nat, to: nat): iset<Place> {
    iset p: Place | from <= p.height <= to
  }

  /** `logs` are the wanted logs of the blocks from height `from` to height `to`, both included, in chain order. */
  ghost predicate Answers(m: Matchers, f: Filter, blocks: map<nat, Block>, from: nat, to: nat, logs: seq<Web3Log>) {
    exists places :: Lists(m, f, blocks, Heights(from, to), logs, places)
  }

  /**
   The answer to a range: heights past the last block are taken for the last
   block's, and both ends are searched.
   */
  ghost predicate AnswersRange(m: Matchers, f: Filter, blocks: map<nat, Block>, logs: seq<Web3Log>) {
    exists from: nat, to: nat ::
      && IsHeight(f.fromBlock, blocks, from) && IsHeight(f.toBlock, blocks, to)
      && var last := LastHeight(blocks);
         Answers(m, f, blocks, if from <= last then from else last, if to <= last then to else last, logs)
  }

  /** The answer to a block hash: the first block that carries it, or nothing if none does. */
  ghost predicate AnswersHash(m: Matchers, f: Filter, blocks: map<nat, Block>, hash: Hash, logs: seq<Web3Log>) {
    || (logs == [] && forall k :: k in blocks ==> blocks[k].headerHash != hash)
    || exists h :: h in blocks && blocks[h].headerHash == hash && Answers(m, f, blocks, h, h, logs) &&
                   forall k :: k in blocks && k < h ==> blocks[k].headerHash != hash
  }

  /**
   In a chain the heights meant are: for `latest` and for no number at all the
   highest block, for `earliest` the lowest, for a hash the lowest block that
   carries it, and for `pending` one below every block.
   */
  lemma NamedHeights(blocks: map<nat, Block>, n: nat, bn: Option<BlockNumber>, h: nat)
    requires n > 0 && (forall k :: k in blocks <==> 1 <= k <= n) && IsHeight(bn, blocks, h)
    ensures bn.None? || bn.value.Latest? ==> h in blocks && forall k :: k in blocks ==> k <= h
    ensures bn.Some? && bn.value.Earliest? ==> h in blocks && forall k :: k in blocks ==> h <= k
    ensures bn.Some? && bn.value.Pending? ==> forall k :: k in blocks ==> h < k
    ensures bn.Some? && bn.value.Num? ==> h == bn.value.number
    ensures bn.Some? && bn.value.ByHash? && h in blocks ==>
              && blocks[h].headerHash == bn.value.hash
              && forall k :: k in blocks && blocks[k].headerHash == bn.value.hash ==> h <= k
    ensures bn.Some? && bn.value.ByHash? && h !in blocks ==>
              h == 0 && forall k :: k in blocks ==> blocks[k].headerHash != bn.value.hash
  {
    assert n in blocks;
  }

  lemma ListsConcat(m: Matchers, f: Filter, blocks: map<nat, Block>, r1: iset<Place>, r2: iset<Place>,
                    l1: seq<Web3Log>, p1: seq<Place>, l2: seq<Web3Log>, p2: seq<Place>)
    requires Lists(m, f, blocks, r1, l1, p1) && Lists(m, f, blocks, r2, l2, p2)
    requires forall p, q :: p in r1 && q in r2 ==> Before(p, q)
    ensures Lists(m, f, blocks, r1 + r2, l1 + l2, p1 + p2)
  {
    var places, logs := p1 + p2, l1 + l2;
    BeforeConcat(p1, p2);
    forall n | 0 <= n < |logs| ensures places[n] in r1 + r2 && Wanted(m, f, blocks, places[n], logs[n]) {
      if n < |p1| {
        assert places[n] == p1[n] && logs[n] == l1[n];
      } else {
        assert places[n] == p2[n - |p1|] && logs[n] == l2[n - |p1|];
      }
    }
    forall p, log | p in r1 + r2 && Wanted(m, f, blocks, p, log) ensures p in places {
      assert p in p1 || p in p2;
    }
  }

  lemma BeforeConcat(p1: seq<Place>, p2: seq<Place>)
    requires forall i, j :: 0 <= i < j < |p1| ==> Before(p1[i], p1[j])
    requires forall i, j :: 0 <= i < j < |p2| ==> Before(p2[i], p2[j])
    requires forall p, q :: p in p1 && q in p2 ==> Before(p, q)
    ensures forall i, j :: 0 <= i < j < |p1 + p2| ==> Before((p1 + p2)[i], (p1 + p2)[j])
  {
    var places := p1 + p2;
    forall i, j | 0 <= i < j < |places| ensures Before(places[i], places[j]) {
      if i < |p1| <= j {
        assert places[i] == p1[i] && places[j] == p2[j - |p1|];
      } else if |p1| <= i {
        assert places[i] == p2[i - |p1|] && places[j] == p2[j - |p1|];
      }
    }
  }

  /** Regions that agree on the places there are list the same logs. */
  lemma ListsSameRegion(m: Matchers, f: Filter, blocks: map<nat, Block>, r1: iset<Place>, r2: iset<Place>,
                        logs: seq<Web3Log>, places: seq<Place>)
    requires Lists(m, f, blocks, r1, logs, places)
    requires forall p :: IsPlace(blocks, p) ==> (p in r1 <==> p in r2)
    ensures Lists(m, f, blocks, r2, logs, places)
  {
    forall n | 0 <= n < |logs| ensures places[n] in r2 && Wanted(m, f, blocks, places[n], logs[n]) {
      assert IsPlace(blocks, places[n]);
    }
    forall p, log | p in r2 && Wanted(m, f, blocks, p, log) ensures p in places {
      assert IsPlace(blocks, p);
    }
  }

  /** The first `n` positions of one receipt. */
  ghost function InReceipt(h: nat, k: Hash, n: nat): iset<Place> {
    iset p: Place | p.height == h && p.receipt == k && p.index < n
  }

  lemma OneLogLists(m: Matchers, f: Filter, blocks: map<nat, Block>, p: Place) returns (places: seq<Place>)
    requires IsPlace(blocks, p)
    ensures var b := blocks[p.height];
            var log := ToWeb3(b.header.receipts[p.receipt].logs[p.index], b, p.height, p.receipt);
            Lists(m, f, blocks, iset{p}, if Passes(m, f, log) then [log] else [], places)
  {
    var b := blocks[p.height];
    var log := ToWeb3(b.header.receipts[p.receipt].logs[p.index], b, p.height, p.receipt);
    places := if Passes(m, f, log) then [p] else [];
    forall other | Wanted(m, f, blocks, p, other) ensures other == log && p in places {
    }
  }

  lemma {:induction false} ReceiptLists(m: Matchers, f: Filter, blocks: map<nat, Block>, h: nat, k: Hash, n: nat)
    returns (places: seq<Place>)
    requires h in blocks && k in blocks[h].header.receipts && n <= |blocks[h].header.receipts[k].logs|
    ensures Lists(m, f, blocks, InReceipt(h, k, n),
                  ReceiptLogs(m, f, blocks[h], h, k, blocks[h].header.receipts[k].logs[..n]), places)
    decreases n
  {
    var all := blocks[h].header.receipts[k].logs;
    if n == 0 {
      places := [];
    } else {
      var p := Place(h, k, n - 1);
      var earlier := ReceiptLists(m, f, blocks, h, k, n - 1);
      var last := OneLogLists(m, f, blocks, p);
      assert all[..n][..n - 1] == all[..n - 1];
      var log := ToWeb3(all[n - 1], blocks[h], h, k);
      ListsConcat(m, f, blocks, InReceipt(h, k, n - 1), iset{p}, ReceiptLogs(m, f, blocks[h], h, k, all[..n - 1]),
                  earlier, if Passes(m, f, log) then [log] else [], last);
      places := earlier + last;
      assert InReceipt(h, k, n - 1) + iset{p} == InReceipt(h, k, n);
    }
  }

  ghost function InReceipts(h: nat, keys: set<Hash>): iset<Place> {
    iset p: Place | p.height == h && p.receipt in keys
  }

  lemma {:induction false} KeyedLists(m: Matchers, f: Filter, blocks: map<nat, Block>, h: nat, keys: set<Hash>)
    returns (places: seq<Place>)
    requires h in blocks && keys <= blocks[h].header.receipts.Keys
    ensures Lists(m, f, blocks, InReceipts(h, keys), KeyedLogs(m, f, blocks[h], h, keys), places)
    decreases |keys|
  {
    if keys == {} {
      places := [];
    } else {
      var k := Least(keys);
      var all := blocks[h].header.receipts[k].logs;
      assert all[..|all|] == all;
      var first := ReceiptLists(m, f, blocks, h, k, |all|);
      var rest := KeyedLists(m, f, blocks, h, keys - {k});
      LeastIsBefore(h, keys, k, |all|);
      ListsConcat(m, f, blocks, InReceipt(h, k, |all|), InReceipts(h, keys - {k}),
                  ReceiptLogs(m, f, blocks[h], h, k, all), first, KeyedLogs(m, f, blocks[h], h, keys - {k}), rest);
      places := first + rest;
      ListsSameRegion(m, f, blocks, InReceipt(h, k, |all|) + InReceipts(h, keys - {k}), InReceipts(h, keys),
                      KeyedLogs(m, f, blocks[h], h, keys), places);
    }
  }

  lemma LeastIsBefore(h: nat, keys: set<Hash>, k: Hash, n: nat)
    requires IsLeast(keys, k)
    ensures forall p, q :: p in InReceipt(h, k, n) && q in InReceipts(h, keys - {k}) ==> Before(p, q)
  {
    forall p, q | p in InReceipt(h, k, n) && q in InReceipts(h, keys - {k}) ensures Before(p, q) {
      assert Rank(k) <= Rank(q.receipt) && q.receipt != k;
    }
  }

  /** One block is scanned in full. */
  lemma BlockAnswers(m: Matchers, f: Filter, blocks: map<nat, Block>, h: nat)
    requires h in blocks
    ensures Answers(m, f, blocks, h, h, BlockLogs(m, f, blocks[h], h))
  {
    var places := KeyedLists(m, f, blocks, h, blocks[h].header.receipts.Keys);
    ListsSameRegion(m, f, blocks, InReceipts(h, blocks[h].header.receipts.Keys), Heights(h, h),
                    BlockLogs(m, f, blocks[h], h), places);
  }

  /** The full scan answers for exactly its range: each wanted log once, and in chain order. */
  lemma {:induction false} FullScanAnswers(m: Matchers, f: Filter, blocks: map<nat, Block>, from: nat, end: nat)
    requires from <= end
    ensures exists places :: Lists(m, f, blocks, Scanned(from, end), FullScan(m, f, blocks, from, end), places)
    decreases end
  {
    if from == end {
      assert Lists(m, f, blocks, Scanned(from, end), FullScan(m, f, blocks, from, end), []);
    } else {
      var h := end - 1;
      FullScanAnswers(m, f, blocks, from, h);
      var below :| Lists(m, f, blocks, Scanned(from, h), FullScan(m, f, blocks, from, h), below);
      var found := if h in blocks then BlockLogs(m, f, blocks[h], h) else [];
      var places := BlockPlaces(m, f, blocks, h);
      ListsConcat(m, f, blocks, Scanned(from, h), Heights(h, h), FullScan(m, f, blocks, from, h), below, found, places);
      assert Scanned(from, h) + Heights(h, h) == Scanned(from, end);
      assert FullScan(m, f, blocks, from, end) == FullScan(m, f, blocks, from, h) + found;
    }
  }

  ghost function Scanned(from: nat, end: nat): iset<Place> {
    iset p: Place | from <= p.height < end
  }

  lemma BlockPlaces(m: Matchers, f: Filter, blocks: map<nat, Block>, h: nat) returns (places: seq<Place>)
    ensures Lists(m, f, blocks, Heights(h, h), if h in blocks then BlockLogs(m, f, blocks[h], h) else [], places)
  {
    if h in blocks {
      BlockAnswers(m, f, blocks, h);
      places :| Lists(m, f, blocks, Heights(h, h), BlockLogs(m, f, blocks[h], h), places);
    } else {
      places := [];
    }
  }

  lemma RangeAnswers(m: Matchers, f: Filter, blocks: map<nat, Block>, from: nat, last: nat)
    ensures Answers(m, f, blocks, from, last, FullScan(m, f, blocks, from, last + 1))
  {
    if from <= last {
      FullScanAnswers(m, f, blocks, from, last + 1);
      assert Scanned(from, last + 1) == Heights(from, last);
    } else {
      assert Lists(m, f, blocks, Heights(from, last), [], []);
    }
  }

  function Clamp(h: nat, current: nat): nat {
    if h > current then current else h
  }

  /**
   The logs of the clamped range, in chain order, whatever the blooms skip. With
   a block hash, the logs of the first block that carries it.
   */
  method Logs(ghost chain: Chain, m: Matchers, f: Filter, blocks: map<nat, Block>) returns (logs: seq<Web3Log>)
    requires BloomsAreSound(chain, m) && BloomsCover(chain, blocks)
    ensures f.blockHash.Some? ==>
              exists h :: IsHeightOf(blocks, f.blockHash.value, h) &&
                          logs == if h in blocks && blocks[h].headerHash == f.blockHash.value
                                  then BlockLogs(m, f, blocks[h], h) else []
    ensures f.blockHash.None? ==>
              exists from, to :: IsHeight(f.fromBlock, blocks, from) && IsHeight(f.toBlock, blocks, to) &&
                logs == FullScan(m, f, blocks, Clamp(from, LastHeight(blocks)), Clamp(to, LastHeight(blocks)) + 1)
    ensures f.blockHash.Some? ==> AnswersHash(m, f, blocks, f.blockHash.value, logs)
    ensures f.blockHash.None? ==> AnswersRange(m, f, blocks, logs)
  {
    if f.blockHash.Some? {
      logs := LogsOfHash(m, f, f.blockHash.value, blocks);
      return;
    }
    logs := LogsOfRange(chain, m, f, blocks);
  }

  /** The heights asked for, clamped to the last block, are scanned. */
  method LogsOfRange(ghost chain: Chain, m: Matchers, f: Filter, blocks: map<nat, Block>) returns (logs: seq<Web3Log>)
    requires BloomsAreSound(chain, m) && BloomsCover(chain, blocks)
    ensures exists from, to :: IsHeight(f.fromBlock, blocks, from) && IsHeight(f.toBlock, blocks, to) &&
              logs == FullScan(m, f, blocks, Clamp(from, LastHeight(blocks)), Clamp(to, LastHeight(blocks)) + 1)
    ensures AnswersRange(m, f, blocks, logs)
  {
    var current := LastHeight(blocks);
    var to := BlockNumberToHeight(f.toBlock, blocks);
    ghost var asked := to;
    if to > current { to := current; }
    var from := BlockNumberToHeight(f.fromBlock, blocks);
    ghost var askedFrom := from;
    if from > current { from := current; }
    logs := ScanRange(chain, m, f, blocks, from, to);
    assert IsHeight(f.fromBlock, blocks, askedFrom) && IsHeight(f.toBlock, blocks, asked);
  }

  /** The block with a given hash is scanned whole; none if there is no such block. */
  method LogsOfHash(m: Matchers, f: Filter, hash: Hash, blocks: map<nat, Block>) returns (logs: seq<Web3Log>)
    ensures exists h :: IsHeightOf(blocks, hash, h) &&
                        logs == if h in blocks && blocks[h].headerHash == hash
                                then BlockLogs(m, f, blocks[h], h) else []
    ensures AnswersHash(m, f, blocks, hash, logs)
  {
    var found := FindByHash(blocks, hash);
    if found.None? {
      assert IsHeightOf(blocks, hash, 0);
      return [];
    }
    logs := FilterBlockLogs(m, f, blocks[found.value], found.value);
    assert IsHeightOf(blocks, hash, found.value);
    BlockAnswers(m, f, blocks, found.value);
  }

  /** Heights `from..=to`, skipping the blocks whose bloom fails a test. */
  method ScanRange(ghost chain: Chain, m: Matchers, f: Filter, blocks: map<nat, Block>, from: nat, to: nat)
    returns (logs: seq<Web3Log>)
    requires BloomsAreSound(chain, m) && BloomsCover(chain, blocks)
    ensures logs == FullScan(m, f, blocks, from, to + 1)
    ensures Answers(m, f, blocks, from, to, logs)
  {
    RangeAnswers(m, f, blocks, from, to);
    logs := [];
    if from > to {
      return;
    }
    for height := from to to + 1
      invariant logs == FullScan(m, f, blocks, from, height)
    {
      if height in blocks {
        var b := blocks[height].bloom;
        if m.addressInBloom(f, b) && m.topicsInBloom(f, b) {
          var found := FilterBlockLogs(m, f, blocks[height], height);
          logs := logs + found;
        } else {
          SkippedBlocksAreEmpty(chain, m, f, blocks, height);
        }
      }
    }
  }

  /** In every reachable ledger the blooms cover what they should, so the query is always exact. */
  lemma ReachableBloomsCover(chain: Chain, st: ChainState, events: seq<Event>)
    requires LegalRun(chain, Genesis(st), events) && PlainRun(chain, Genesis(st), events).Some?
    ensures BloomsCover(chain, PlainRun(chain, Genesis(st), events).value.blocks)
  {
    ReachableChain(chain, st, events);
    var p := PlainRun(chain, Genesis(st), events).value;
    forall h, k, l | h in p.blocks && k in p.blocks[h].header.receipts && l in p.blocks[h].header.receipts[k].logs
      ensures Holds(chain, l, p.blocks[h].bloom)
    {
      SoundBloomHolds(chain, p.blocks[h], k, l);
    }
  }

  lemma SoundBloomHolds(chain: Chain, b: Block, k: Hash, l: LedgerLog)
    requires SoundBlock(chain, b) && k in b.header.receipts && l in b.header.receipts[k].logs
    ensures Holds(chain, l, b.bloom)
  {
    forall bit | bit in chain.bloomBits(AddressInput(l.address)) ensures bit in b.bloom {
      assert SetsBit(chain, l, bit);
    }
    forall t, bit | t in l.topics && bit in chain.bloomBits(TopicInput(t)) ensures bit in b.bloom {
      assert SetsBit(chain, l, bit);
    }
  }
}
