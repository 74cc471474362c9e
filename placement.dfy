/**
 * Where the copies of each story end up, described per output tip.
 *
 * `Redistribution.Redistribute` pushes copies onto tips story by story.
 * This module states the same result from the side of one output tip:
 * tip `j` receives, for each raw story in (tip, story) order, the
 * copies `CopiesFor` destines to it — the home copy when `j` is the
 * first tip carrying the story's home number, then one cross-reference
 * copy per occurrence of `j`'s number in the normalised related list.
 * `RedistributeGathers` proves the two descriptions agree; the other
 * lemmas read the consequences off the per-tip description.
 */
module Placement {
  import opened Redistribution

  /** Tip `j` is the first one with its number, so `find` can reach it. */
  predicate Receives(ns: seq<int>, j: nat)
    requires j < |ns|
  {
    FirstIndex(ns, ns[j]) == Some(j)
  }

  function Repeat(c: EnhancedStory, n: nat): (r: seq<EnhancedStory>)
    ensures |r| == n
    ensures forall i :: 0 <= i < n ==> r[i] == c
  {
    seq(n, _ => c)
  }

  /** How many cross-reference copies of a story with home `home` and normalised list `rs` tip `j` receives. */
  function XrefCount(ns: seq<int>, j: nat, home: int, rs: seq<int>): nat
    requires j < |ns|
  {
    if ns[j] != home && Receives(ns, j) then multiset(rs)[ns[j]] else 0
  }

  /** The copies of story `s`, owned by tip number `home`, that tip `j` receives. */
  function CopiesFor(ns: seq<int>, j: nat, home: int, s: Story): seq<EnhancedStory>
    requires j < |ns|
  {
    (if ns[j] == home && Receives(ns, j) then [HomeCopy(s, home)] else [])
      + Repeat(XrefCopy(s, home), XrefCount(ns, j, home, Normalize(s.relatedTips, home)))
  }

  /** What tip `j` receives from the stories `ss` of the tip numbered `home`, in story order. */
  function StoryCopies(ns: seq<int>, j: nat, home: int, ss: seq<Story>): seq<EnhancedStory>
    requires j < |ns|
    decreases |ss|
  {
    if ss == [] then []
    else StoryCopies(ns, j, home, ss[..|ss| - 1]) + CopiesFor(ns, j, home, ss[|ss| - 1])
  }

  /** What tip `j` receives from all of `raw`, in (tip, story) order. */
  function Gather(ns: seq<int>, j: nat, raw: seq<RawTip>): seq<EnhancedStory>
    requires j < |ns|
    decreases |raw|
  {
    if raw == [] then []
    else
      var last := raw[|raw| - 1];
      Gather(ns, j, raw[..|raw| - 1]) + StoryCopies(ns, j, last.number, last.stories)
  }

  lemma FirstIndexAt(ns: seq<int>, n: int, j: nat)
    requires j < |ns|
    ensures FirstIndex(ns, n) == Some(j) <==> ns[j] == n && Receives(ns, j)
  {
  }

  lemma {:induction false} PlaceXrefsAt(tips: seq<ProcessedTip>, home: int, s: Story, rs: seq<int>, j: nat)
    requires j < |tips|
    ensures |PlaceXrefs(tips, home, s, rs)| == |tips|
    ensures PlaceXrefs(tips, home, s, rs)[j].stories
              == tips[j].stories + Repeat(XrefCopy(s, home), XrefCount(Numbers(tips), j, home, rs))
    decreases |rs|
  {
    var ns := Numbers(tips);
    var c := XrefCopy(s, home);
    if rs != [] {
      var front, n := rs[..|rs| - 1], rs[|rs| - 1];
      assert rs == front + [n];
      var placed := PlaceXrefs(tips, home, s, front);
      PlaceXrefsAt(tips, home, s, front, j);
      HeadersNumbers(tips, placed);
      var k := XrefCount(ns, j, home, front);
      assert multiset(rs) == multiset(front) + multiset{n};
      if n != home && FirstIndex(ns, n) == Some(j) {
        FirstIndexAt(ns, n, j);
        assert XrefCount(ns, j, home, rs) == k + 1;
        assert PlaceXrefs(tips, home, s, rs)[j].stories == placed[j].stories + [c];
        assert Repeat(c, k) + [c] == Repeat(c, k + 1);
      } else {
        FirstIndexAt(ns, n, j);
        assert XrefCount(ns, j, home, rs) == k;
        assert PlaceXrefs(tips, home, s, rs)[j].stories == placed[j].stories;
      }
    }
  }

  lemma PlaceStoryAt(tips: seq<ProcessedTip>, home: int, s: Story, j: nat)
    requires j < |tips|
    ensures |PlaceStory(tips, home, s)| == |tips|
    ensures PlaceStory(tips, home, s)[j].stories == tips[j].stories + CopiesFor(Numbers(tips), j, home, s)
  {
    var delivered := Deliver(tips, home, HomeCopy(s, home));
    HeadersNumbers(tips, delivered);
    FirstIndexAt(Numbers(tips), home, j);
    PlaceXrefsAt(delivered, home, s, Normalize(s.relatedTips, home), j);
  }

  lemma {:induction false} PlaceStoriesAt(tips: seq<ProcessedTip>, home: int, ss: seq<Story>, j: nat)
    requires j < |tips|
    ensures |PlaceStories(tips, home, ss)| == |tips|
    ensures PlaceStories(tips, home, ss)[j].stories == tips[j].stories + StoryCopies(Numbers(tips), j, home, ss)
    decreases |ss|
  {
    if ss != [] {
      var front, last := ss[..|ss| - 1], ss[|ss| - 1];
      var placed := PlaceStories(tips, home, front);
      assert PlaceStories(tips, home, ss) == PlaceStory(placed, home, last);
      PlaceStoriesAt(tips, home, front, j);
      HeadersNumbers(tips, placed);
      PlaceStoryAt(placed, home, last, j);
      var before := StoryCopies(Numbers(tips), j, home, front);
      var added := CopiesFor(Numbers(tips), j, home, last);
      assert StoryCopies(Numbers(tips), j, home, ss) == before + added;
      assert tips[j].stories + before + added == tips[j].stories + (before + added);
    }
  }

  lemma {:induction false} PlaceTipsAt(tips: seq<ProcessedTip>, raw: seq<RawTip>, j: nat)
    requires j < |tips|
    ensures |PlaceTips(tips, raw)| == |tips|
    ensures PlaceTips(tips, raw)[j].stories == tips[j].stories + Gather(Numbers(tips), j, raw)
    decreases |raw|
  {
    if raw != [] {
      var front, last := raw[..|raw| - 1], raw[|raw| - 1];
      var placed := PlaceTips(tips, front);
      assert PlaceTips(tips, raw) == PlaceStories(placed, last.number, last.stories);
      PlaceTipsAt(tips, front, j);
      HeadersNumbers(tips, placed);
      PlaceStoriesAt(placed, last.number, last.stories, j);
      var before := Gather(Numbers(tips), j, front);
      var added := StoryCopies(Numbers(tips), j, last.number, last.stories);
      assert Gather(Numbers(tips), j, raw) == before + added;
      assert tips[j].stories + before + added == tips[j].stories + (before + added);
    }
  }

  /**
   * The push-based redistribution and the per-tip description agree:
   * tip `j` of the result holds exactly `Gather(Numbers(raw), j, raw)`,
   * so its copies come in (source tip, story) order, each story's home
   * copy before its cross-reference copies, and a tip that receives
   * nothing ends with an empty list.
   */
  lemma RedistributeGathers(raw: seq<RawTip>, j: nat)
    requires j < |raw|
    ensures |Redistribute(raw)| == |raw|
    ensures Redistribute(raw)[j].stories == Gather(Numbers(raw), j, raw)
  {
    var skeleton := Skeleton(raw);
    HeadersNumbers(raw, skeleton);
    PlaceTipsAt(skeleton, raw, j);
  }

  /** What every copy that tip `j` receives from story `s` (home `home`) is. */
  lemma CopyInCopiesFor(ns: seq<int>, j: nat, home: int, s: Story, c: EnhancedStory)
    requires j < |ns| && c in CopiesFor(ns, j, home, s)
    ensures Receives(ns, j)
    ensures c.content == s.content && c.sourceTip == home && c.relatedTips == Normalize(s.relatedTips, home)
    ensures c.isHomeTip == !c.isXref
    ensures c.isHomeTip <==> home == ns[j]
    ensures ns[j] in c.relatedTips
  {
  }

  lemma {:induction false} CopyInStoryCopies(ns: seq<int>, j: nat, home: int, ss: seq<Story>, c: EnhancedStory)
    requires j < |ns| && c in StoryCopies(ns, j, home, ss)
    ensures exists k :: 0 <= k < |ss| && c in CopiesFor(ns, j, home, ss[k])
    decreases |ss|
  {
    var front, last := ss[..|ss| - 1], ss[|ss| - 1];
    var earlier, added := StoryCopies(ns, j, home, front), CopiesFor(ns, j, home, last);
    assert StoryCopies(ns, j, home, ss) == earlier + added;
    if c in earlier {
      CopyInStoryCopies(ns, j, home, front, c);
      var k :| 0 <= k < |front| && c in CopiesFor(ns, j, home, front[k]);
      assert front[k] == ss[k];
    } else {
      assert c in added;
    }
  }

  lemma {:induction false} CopyInGather(ns: seq<int>, j: nat, raw: seq<RawTip>, c: EnhancedStory)
    requires j < |ns| && c in Gather(ns, j, raw)
    ensures exists i, k :: 0 <= i < |raw| && 0 <= k < |raw[i].stories|
                           && c in CopiesFor(ns, j, raw[i].number, raw[i].stories[k])
    decreases |raw|
  {
    var front, last := raw[..|raw| - 1], raw[|raw| - 1];
    var earlier, added := Gather(ns, j, front), StoryCopies(ns, j, last.number, last.stories);
    assert Gather(ns, j, raw) == earlier + added;
    if c in earlier {
      CopyInGather(ns, j, front, c);
      var i, k :| 0 <= i < |front| && 0 <= k < |front[i].stories|
                  && c in CopiesFor(ns, j, front[i].number, front[i].stories[k]);
      assert front[i] == raw[i];
    } else {
      CopyInStoryCopies(ns, j, last.number, last.stories, c);
      var k :| 0 <= k < |last.stories| && c in CopiesFor(ns, j, last.number, last.stories[k]);
      assert raw[|raw| - 1] == last;
    }
  }

  /**
   * Every story on a processed tip is a tagged copy of some raw story: it
   * carries that story's content, its home tip number as `sourceTip`
   * and the normalised related list. It is a home copy exactly when it
   * sits on a tip numbered `sourceTip`, and a cross-reference copy
   * otherwise; either way the tip's own number is in its related list.
   * Only the first tip with a given number receives anything.
   */
  lemma PlacedCopy(raw: seq<RawTip>, j: nat, c: EnhancedStory)
    requires j < |raw|
    requires |Redistribute(raw)| == |raw| && c in Redistribute(raw)[j].stories
    ensures FirstIndex(Numbers(raw), raw[j].number) == Some(j)
    ensures c.isHomeTip == !c.isXref
    ensures c.isHomeTip <==> c.sourceTip == raw[j].number
    ensures raw[j].number in c.relatedTips && c.sourceTip in c.relatedTips
    ensures exists i, k :: 0 <= i < |raw| && 0 <= k < |raw[i].stories|
                           && c.sourceTip == raw[i].number
                           && c.content == raw[i].stories[k].content
                           && c.relatedTips == Normalize(raw[i].stories[k].relatedTips, raw[i].number)
  {
    var ns := Numbers(raw);
    RedistributeGathers(raw, j);
    CopyInGather(ns, j, raw, c);
    var i, k :| 0 <= i < |raw| && 0 <= k < |raw[i].stories|
                && c in CopiesFor(ns, j, raw[i].number, raw[i].stories[k]);
    CopyInCopiesFor(ns, j, raw[i].number, raw[i].stories[k], c);
  }

  /** A tip whose number already belongs to an earlier tip receives no story at all. */
  lemma ShadowedTipEmpty(raw: seq<RawTip>, j: nat)
    requires j < |raw| && FirstIndex(Numbers(raw), raw[j].number) != Some(j)
    ensures |Redistribute(raw)| == |raw|
    ensures Redistribute(raw)[j].stories == []
  {
    RedistributeGathers(raw, j);
    var stories := Redistribute(raw)[j].stories;
    if stories != [] {
      PlacedCopy(raw, j, stories[0]);
    }
  }

  /**
   * One story's copies: its home copy goes to the first tip numbered
   * `home` and to no other tip, ahead of any cross-reference copy there;
   * tip `j` receives as many cross-reference copies as the normalised
   * related list has occurrences of its number, provided that number
   * is not `home` and `j` is the first tip with it.
   */
  lemma StoryPlacement(ns: seq<int>, home: int, s: Story, j: nat)
    requires home in ns && j < |ns|
    ensures FirstIndex(ns, home).Some?
    ensures j == FirstIndex(ns, home).value ==> CopiesFor(ns, j, home, s)[0] == HomeCopy(s, home)
    ensures HomeCopy(s, home) in CopiesFor(ns, j, home, s) <==> j == FirstIndex(ns, home).value
    ensures |CopiesFor(ns, j, home, s)|
              == (if j == FirstIndex(ns, home).value then 1 else 0)
                 + (if ns[j] != home && Receives(ns, j) then multiset(Normalize(s.relatedTips, home))[ns[j]] else 0)
  {
  }

  lemma {:induction false} DistinctCountAtMostOne(rs: seq<int>, x: int)
    requires forall a, b :: 0 <= a < b < |rs| ==> rs[a] != rs[b]
    ensures multiset(rs)[x] <= 1
    decreases |rs|
  {
    if rs != [] {
      var front := rs[..|rs| - 1];
      assert rs == front + [rs[|rs| - 1]];
      DistinctCountAtMostOne(front, x);
      if rs[|rs| - 1] == x {
        assert x !in front;
      }
    }
  }

  /**
   * When a story's related list names each tip at most once (and each
   * tip number is used by at most one tip), every tip receives at most
   * one copy of that story: the source does no deduplication of its
   * own, so this is what callers get only from duplicate-free data.
   */
  lemma DistinctRelatedAtMostOneCopy(ns: seq<int>, home: int, s: Story, j: nat)
    requires j < |ns|
    requires forall a, b :: 0 <= a < b < |s.relatedTips| ==> s.relatedTips[a] != s.relatedTips[b]
    ensures |CopiesFor(ns, j, home, s)| <= 1
  {
    var rs := Normalize(s.relatedTips, home);
    if home in s.relatedTips {
      DistinctCountAtMostOne(s.relatedTips, ns[j]);
    } else {
      DistinctCountAtMostOne(s.relatedTips, ns[j]);
      assert multiset(rs)[ns[j]] <= 1 + multiset(s.relatedTips)[ns[j]];
    }
  }

  /**
   * Duplicates are not removed: a story of tip 1 whose related list is
   * [2, 2] puts two cross-reference copies on tip 2.
   */
  lemma DuplicateRelatedTwoCopies(s: Story)
    requires s.relatedTips == [2, 2]
    ensures |CopiesFor([1, 2], 1, 1, s)| == 2
  {
  }

  /**
   * A related number that no tip carries changes nothing about where
   * copies go: appending it to a story's related list leaves the number
   * of copies every tip receives as it was.
   */
  lemma UnknownNumberIgnored(ns: seq<int>, home: int, s: Story, r: int, j: nat)
    requires home in ns && r !in ns && j < |ns|
    ensures |CopiesFor(ns, j, home, s.(relatedTips := s.relatedTips + [r]))| == |CopiesFor(ns, j, home, s)|
  {
  }
}
