/**
 * How many copies redistribution produces.
 *
 * Every raw story yields exactly one home copy, and one cross-reference
 * copy per entry of its normalised related list that is not the home
 * number and names an existing tip (duplicates included). Summed over
 * all stories, these are the numbers of home and cross-reference copies
 * found on the processed tips.
 */
module Counting {
  import opened Redistribution

  /** The number of stories held by all tips together. */
  function TotalStories<S>(tips: seq<Tip<S>>): nat
    decreases |tips|
  {
    if tips == [] then 0
    else TotalStories(tips[..|tips| - 1]) + |tips[|tips| - 1].stories|
  }

  /** The number of copies in `ss` whose `isHomeTip` is `home`. */
  function CountFlag(ss: seq<EnhancedStory>, home: bool): nat
    decreases |ss|
  {
    if ss == [] then 0
    else CountFlag(ss[..|ss| - 1], home) + (if ss[|ss| - 1].isHomeTip == home then 1 else 0)
  }

  /** `CountFlag` summed over all tips. */
  function Tally(tips: seq<ProcessedTip>, home: bool): nat
    decreases |tips|
  {
    if tips == [] then 0
    else Tally(tips[..|tips| - 1], home) + CountFlag(tips[|tips| - 1].stories, home)
  }

  /** The entries of `rs` that yield a cross-reference copy: not `home`, and the number of some tip. */
  function ValidRefs(ns: seq<int>, home: int, rs: seq<int>): nat
    decreases |rs|
  {
    if rs == [] then 0
    else
      var r := rs[|rs| - 1];
      ValidRefs(ns, home, rs[..|rs| - 1]) + (if r != home && r in ns then 1 else 0)
  }

  /** Cross-reference copies owed to the stories `ss` of the tip numbered `home`. */
  function StoryXrefs(ns: seq<int>, home: int, ss: seq<Story>): nat
    decreases |ss|
  {
    if ss == [] then 0
    else
      var s := ss[|ss| - 1];
      StoryXrefs(ns, home, ss[..|ss| - 1]) + ValidRefs(ns, home, Normalize(s.relatedTips, home))
  }

  /** Cross-reference copies owed to all stories of `raw`. */
  function XrefTotal(ns: seq<int>, raw: seq<RawTip>): nat
    decreases |raw|
  {
    if raw == [] then 0
    else
      var t := raw[|raw| - 1];
      XrefTotal(ns, raw[..|raw| - 1]) + StoryXrefs(ns, t.number, t.stories)
  }

  lemma {:induction false} CountFlagSplit(ss: seq<EnhancedStory>)
    ensures CountFlag(ss, true) + CountFlag(ss, false) == |ss|
    decreases |ss|
  {
    if ss != [] {
      CountFlagSplit(ss[..|ss| - 1]);
    }
  }

  /** Every copy is either a home copy or not. */
  lemma {:induction false} TallySplit(tips: seq<ProcessedTip>)
    ensures Tally(tips, true) + Tally(tips, false) == TotalStories(tips)
    decreases |tips|
  {
    if tips != [] {
      TallySplit(tips[..|tips| - 1]);
      CountFlagSplit(tips[|tips| - 1].stories);
    }
  }

  lemma {:induction false} TallyEmpty(tips: seq<ProcessedTip>, home: bool)
    requires forall j :: 0 <= j < |tips| ==> tips[j].stories == []
    ensures Tally(tips, home) == 0
    decreases |tips|
  {
    if tips != [] {
      TallyEmpty(tips[..|tips| - 1], home);
    }
  }

  /** Appending one copy to one tip adds one to the matching tally. */
  lemma {:induction false} TallyAppend(tips: seq<ProcessedTip>, j: nat, c: EnhancedStory, home: bool)
    requires j < |tips|
    ensures Tally(tips[j := tips[j].(stories := tips[j].stories + [c])], home)
              == Tally(tips, home) + (if c.isHomeTip == home then 1 else 0)
    decreases |tips|
  {
    var updated := tips[j := tips[j].(stories := tips[j].stories + [c])];
    var n := |tips| - 1;
    if j == n {
      assert updated[..n] == tips[..n];
      assert (tips[j].stories + [c])[..|tips[j].stories|] == tips[j].stories;
    } else {
      TallyAppend(tips[..n], j, c, home);
      assert updated[..n] == tips[..n][j := tips[j].(stories := tips[j].stories + [c])];
    }
  }

  lemma DeliverTally(tips: seq<ProcessedTip>, n: int, c: EnhancedStory, home: bool)
    ensures Tally(Deliver(tips, n, c), home)
              == Tally(tips, home) + (if n in Numbers(tips) && c.isHomeTip == home then 1 else 0)
  {
    match FirstIndex(Numbers(tips), n)
    case None =>
    case Some(j) => TallyAppend(tips, j, c, home);
  }

  lemma {:induction false} PlaceXrefsTally(tips: seq<ProcessedTip>, home: int, s: Story, rs: seq<int>, flag: bool)
    ensures Tally(PlaceXrefs(tips, home, s, rs), flag)
              == Tally(tips, flag) + (if flag then 0 else ValidRefs(Numbers(tips), home, rs))
    decreases |rs|
  {
    if rs != [] {
      var front, r := rs[..|rs| - 1], rs[|rs| - 1];
      var placed := PlaceXrefs(tips, home, s, front);
      PlaceXrefsTally(tips, home, s, front, flag);
      HeadersNumbers(tips, placed);
      if r != home {
        DeliverTally(placed, r, XrefCopy(s, home), flag);
      }
    }
  }

  lemma PlaceStoryTally(tips: seq<ProcessedTip>, home: int, s: Story, flag: bool)
    requires home in Numbers(tips)
    ensures Tally(PlaceStory(tips, home, s), flag)
              == Tally(tips, flag) + (if flag then 1 else ValidRefs(Numbers(tips), home, Normalize(s.relatedTips, home)))
  {
    var delivered := Deliver(tips, home, HomeCopy(s, home));
    DeliverTally(tips, home, HomeCopy(s, home), flag);
    HeadersNumbers(tips, delivered);
    PlaceXrefsTally(delivered, home, s, Normalize(s.relatedTips, home), flag);
  }

  lemma {:induction false} PlaceStoriesTally(tips: seq<ProcessedTip>, home: int, ss: seq<Story>, flag: bool)
    requires home in Numbers(tips)
    ensures Tally(PlaceStories(tips, home, ss), flag)
              == Tally(tips, flag) + (if flag then |ss| else StoryXrefs(Numbers(tips), home, ss))
    decreases |ss|
  {
    if ss != [] {
      var front := ss[..|ss| - 1];
      var placed := PlaceStories(tips, home, front);
      PlaceStoriesTally(tips, home, front, flag);
      HeadersNumbers(tips, placed);
      PlaceStoryTally(placed, home, ss[|ss| - 1], flag);
    }
  }

  lemma {:induction false} PlaceTipsTally(tips: seq<ProcessedTip>, raw: seq<RawTip>, flag: bool)
    requires forall i :: 0 <= i < |raw| ==> raw[i].number in Numbers(tips)
    ensures Tally(PlaceTips(tips, raw), flag)
              == Tally(tips, flag) + (if flag then TotalStories(raw) else XrefTotal(Numbers(tips), raw))
    decreases |raw|
  {
    if raw != [] {
      var front, last := raw[..|raw| - 1], raw[|raw| - 1];
      var placed := PlaceTips(tips, front);
      PlaceTipsTally(tips, front, flag);
      HeadersNumbers(tips, placed);
      PlaceStoriesTally(placed, last.number, last.stories, flag);
    }
  }

  /**
   * The processed tips hold one home copy per raw story, and as many
   * cross-reference copies as the stories' normalised related lists
   * have entries that are not the home number and name an existing tip;
   * nothing else.
   */
  lemma CopyCounts(raw: seq<RawTip>)
    ensures Tally(Redistribute(raw), true) == TotalStories(raw)
    ensures Tally(Redistribute(raw), false) == XrefTotal(Numbers(raw), raw)
    ensures TotalStories(Redistribute(raw)) == TotalStories(raw) + XrefTotal(Numbers(raw), raw)
  {
    var skeleton := Skeleton(raw);
    HeadersNumbers(raw, skeleton);
    TallyEmpty(skeleton, true);
    TallyEmpty(skeleton, false);
    PlaceTipsTally(skeleton, raw, true);
    PlaceTipsTally(skeleton, raw, false);
    TallySplit(Redistribute(raw));
  }
}
