/** How the ledger names versions, and why no name is ever used twice on a branch. */
module VersionNames {
  import opened Wrappers
  import opened EvmTypes
  import opened VersionStore

  predicate SameFork(x: Branch, y: Branch) {
    x.parent == y.parent && x.base == y.base
  }

  /** Inherited versions belong to genesis or to earlier blocks. */
  predicate InheritedName(name: VersionName, height: nat) {
    name.VsVersion? ==> 1 <= name.height && name.height != height
  }

  predicate OwnName(name: VersionName, height: nat, n: nat) {
    name.VsVersion? && (name == VsVersion(0, 0) || (name.height == height && name.position <= n))
  }

  /** The names a branch may show while `n` transactions of the block at `height` have succeeded on it. */
  predicate Tracks(br: Branch, height: nat, n: nat) {
    && (forall i :: 0 <= i < |br.base| ==> InheritedName(br.base[i].tag.name, height))
    && (forall i :: 0 <= i < |br.own| ==> OwnName(br.own[i].tag.name, height, n))
  }

  lemma NextNameIsFresh(br: Branch, b: BranchName, height: nat, n: nat)
    requires Tracks(br, height, n)
    ensures Tag(b, VsVersion(height, 1 + n)) !in Tags(br.base + br.own)
  {
  }

  lemma FirstNameIsFresh(br: Branch, b: BranchName, height: nat, n: nat)
    requires Tracks(br, height, n) && br.own == []
    ensures Tag(b, VsVersion(0, 0)) !in Tags(br.base + br.own)
  {
  }

  lemma ShowsThroughNew(br: Branch, tag: Tag)
    ensures Visible(br.(own := br.own + [NewVersion(tag)])) == Visible(br)
  {
    assert br.base + (br.own + [NewVersion(tag)]) == br.base + br.own + [NewVersion(tag)];
    NewVersionShowsNothing(EMPTY_STATE, br.base + br.own, tag);
  }

  lemma RewriteKeepsTracks(x: Branch, y: Branch, height: nat, n: nat)
    requires Tracks(x, height, n) && x.own != [] && y.own != []
    requires y == Rewritten(x, y.own[|y.own| - 1])
    requires y.own[|y.own| - 1].tag == x.own[|x.own| - 1].tag
    ensures Tracks(y, height, n) && SameFork(x, y) && Tags(y.own) == Tags(x.own)
  {
    RewriteKeepsTags(x, y);
    forall i | 0 <= i < |y.own| ensures OwnName(y.own[i].tag.name, height, n) {
      assert y.own[i].tag == Tags(y.own)[i] == Tags(x.own)[i] == x.own[i].tag;
    }
  }

  lemma RewriteKeepsTags(x: Branch, y: Branch)
    requires x.own != [] && y.own != []
    requires y == Rewritten(x, y.own[|y.own| - 1])
    requires y.own[|y.own| - 1].tag == x.own[|x.own| - 1].tag
    ensures SameFork(x, y) && Tags(y.own) == Tags(x.own)
  {
  }

  /** The branch with a version opened for its next transaction. */
  function Opened(br: Branch, b: BranchName, height: nat, n: nat): Branch {
    br.(own := br.own + [NewVersion(Tag(b, VsVersion(height, 1 + n)))])
  }

  lemma OpenedTracks(br: Branch, b: BranchName, height: nat, n: nat)
    requires Tracks(br, height, n)
    ensures Tracks(Opened(br, b, height, n), height, n + 1)
    ensures Tags(Opened(br, b, height, n).own) == Tags(br.own) + [Tag(b, VsVersion(height, 1 + n))]
  {
  }

  lemma OneMoreVersion(x: Branch, y: Branch, b: BranchName, height: nat, n: nat)
    requires Tracks(x, height, n) && y.own != []
    requires y == Rewritten(Opened(x, b, height, n), y.own[|y.own| - 1])
    requires y.own[|y.own| - 1].tag == Tag(b, VsVersion(height, 1 + n))
    ensures Tracks(y, height, n + 1) && SameFork(x, y)
    ensures Tags(y.own) == Tags(x.own) + [Tag(b, VsVersion(height, 1 + n))]
  {
    OpenedTracks(x, b, height, n);
    RewriteKeepsTracks(Opened(x, b, height, n), y, height, n + 1);
  }

  /** The names (h,0)..(h,n) of a block in which n transactions have succeeded. */
  function BlockNames(b: BranchName, height: nat, n: nat): seq<Tag> {
    seq(n + 1, (i: nat) => Tag(b, VsVersion(height, i)))
  }

  lemma BlockNamesGrow(b: BranchName, height: nat, n: nat)
    ensures BlockNames(b, height, n) + [Tag(b, VsVersion(height, n + 1))] == BlockNames(b, height, n + 1)
  {
  }

  /** Main between blocks: genesis and the versions of blocks up to `last`, no two of them the same. */
  predicate MainShape(br: Branch, last: nat) {
    && br.parent.None? && br.base == [] && br.own != []
    && DistinctTags(Tags(br.own))
    && forall i :: 0 <= i < |br.own| ==>
         br.own[i].tag.name.VsVersion? ==> 1 <= br.own[i].tag.name.height <= last
  }

  function Fork(from: BranchName, br: Branch): Branch {
    Branch(Some(from), br.base + br.own, [])
  }

  lemma ForkShows(from: BranchName, br: Branch)
    ensures Visible(Fork(from, br)) == Visible(br)
  {
    assert br.base + br.own + [] == br.base + br.own;
  }

  /** A fork of Main is ready for the block after `last`, or for one with no height at all. */
  lemma ForkTracks(br: Branch, last: nat, height: nat, n: nat)
    requires MainShape(br, last) && (height == 0 || height > last)
    ensures Tracks(Fork(Main, br), height, n)
  {
  }

  lemma BlockNameIsFresh(br: Branch, b: BranchName, last: nat)
    requires MainShape(br, last)
    ensures Tag(b, VsVersion(last + 1, 0)) !in Tags(br.base + br.own)
  {
  }

  /** A branch with its block's own version opened. */
  function Prepared(br: Branch, b: BranchName, height: nat): Branch {
    br.(own := br.own + [NewVersion(Tag(b, VsVersion(height, 0)))])
  }

  lemma ForkBegins(br: Branch, b: BranchName, last: nat)
    requires MainShape(br, last)
    ensures var fork := Prepared(Fork(Main, br), b, last + 1);
            && Tracks(fork, last + 1, 0)
            && Tags(fork.own) == BlockNames(b, last + 1, 0)
            && Visible(fork) == Visible(br)
  {
    ForkShows(Main, br);
    ShowsThroughNew(Fork(Main, br), Tag(b, VsVersion(last + 1, 0)));
    ForkTracks(br, last, last + 1, 0);
  }

  /** A fork taken below Main's empty version, laid over that version. */
  function Merged(main: Branch, fork: Branch, last: nat): Branch {
    var open := Prepared(main, Main, last + 1);
    open.(own := open.own + fork.own)
  }

  /** Merging a fork back over a Main that wrote nothing since shows exactly what the fork showed. */
  lemma MergeShows(main: Branch, fork: Branch, last: nat)
    requires main.base == [] && fork.base == main.own
    ensures Visible(Merged(main, fork, last)) == Visible(fork)
  {
    var open := Prepared(main, Main, last + 1);
    assert [] + (open.own + fork.own) == open.own + fork.own;
    ReplayConcat(EMPTY_STATE, open.own, fork.own);
    ReplayConcat(EMPTY_STATE, fork.base, fork.own);
    NewVersionShowsNothing(EMPTY_STATE, main.own, Tag(Main, VsVersion(last + 1, 0)));
  }

  /**
   The versions DeliverTx brings were created on it, for a block Main knows
   nothing of but its own (h,0): not one of them is on Main already.
   */
  lemma MergeMeetsNoClash(main: Branch, fork: Branch, last: nat, n: nat)
    requires MainShape(main, last) && Tags(fork.own) == BlockNames(DeliverTx, last + 1, n)
    ensures var open := Prepared(main, Main, last + 1);
            Disjoint(Tags(fork.own), Tags(open.base + open.own))
  {
    var open := Prepared(main, Main, last + 1);
    forall tag | tag in Tags(open.base + open.own) ensures tag !in BlockNames(DeliverTx, last + 1, n) {
      var i :| 0 <= i < |open.own| && open.own[i].tag == tag;
      if i < |main.own| {
        assert open.own[i] == main.own[i];
      }
    }
  }

  lemma ConcatTags(xs: seq<Version>, ys: seq<Version>)
    ensures Tags(xs + ys) == Tags(xs) + Tags(ys)
  {
  }

  lemma DistinctConcat(xs: seq<Tag>, ys: seq<Tag>)
    requires DistinctTags(xs) && DistinctTags(ys) && Disjoint(ys, xs)
    ensures DistinctTags(xs + ys)
  {
    var all := xs + ys;
    forall i, j | 0 <= i < j < |all| ensures all[i] != all[j] {
      if i < |xs| && j >= |xs| {
        assert all[i] in xs && all[j] == ys[j - |xs|];
      }
    }
  }

  /** So Main's versions stay pairwise distinct through the merge. */
  lemma MergeKeepsDistinct(main: Branch, fork: Branch, last: nat, n: nat)
    requires MainShape(main, last) && Tags(fork.own) == BlockNames(DeliverTx, last + 1, n)
    ensures DistinctTags(Tags(Merged(main, fork, last).own))
  {
    var open := Prepared(main, Main, last + 1);
    var begun := NewVersion(Tag(Main, VsVersion(last + 1, 0)));
    BlockNameIsFresh(main, Main, last);
    assert main.base + main.own == main.own && open.base + open.own == open.own;
    ConcatTags(main.own, [begun]);
    DistinctConcat(Tags(main.own), Tags([begun]));
    MergeMeetsNoClash(main, fork, last, n);
    ConcatTags(open.own, fork.own);
    DistinctConcat(Tags(open.own), Tags(fork.own));
  }

  lemma MergeKeepsShape(main: Branch, fork: Branch, last: nat, n: nat)
    requires MainShape(main, last) && Tags(fork.own) == BlockNames(DeliverTx, last + 1, n)
    ensures MainShape(Merged(main, fork, last), last + 1)
  {
    MergeKeepsDistinct(main, fork, last, n);
    var open := Prepared(main, Main, last + 1);
    var own := open.own + fork.own;
    forall i | 0 <= i < |own| ensures own[i].tag.name.VsVersion? ==> 1 <= own[i].tag.name.height <= last + 1 {
      if i < |main.own| {
        assert own[i] == main.own[i];
      } else if i >= |open.own| {
        assert own[i].tag == Tags(fork.own)[i - |open.own|];
      }
    }
  }

  /** The name of the next block's version tells whether that block was begun on Main. */
  lemma BlockNameTellsBegun(br: Branch, last: nat)
    requires || MainShape(br, last)
             || (br.own != [] && br == Prepared(br.(own := br.own[..|br.own| - 1]), Main, last + 1))
    ensures Tag(Main, VsVersion(last + 1, 0)) in Tags(br.base + br.own) <==> !MainShape(br, last)
  {
    var all := br.base + br.own;
    if MainShape(br, last) {
      BlockNameIsFresh(br, Main, last);
    } else {
      assert Tags(all)[|all| - 1] == Tag(Main, VsVersion(last + 1, 0));
    }
  }
}
