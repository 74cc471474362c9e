/**
 * The application object of the cheatsheet page: the raw tips as
 * loaded, the processed tips built from them, and which cards are
 * expanded. Fetching the data file is not modelled: the constructor
 * receives the tips that the load produced.
 */
module Cheatsheet {
  import opened Redistribution
  import opened CardToggle

  class PragmaticCheatsheet {
    var rawTips: seq<RawTip>
    var processedTips: seq<ProcessedTip>
    /** The positions of the cards currently shown expanded. */
    var expanded: set<nat>

    constructor (loaded: seq<RawTip>)
      ensures rawTips == loaded && processedTips == [] && expanded == {}
    {
      rawTips := loaded;
      processedTips := [];
      expanded := {};
    }

    /**
     * Rebuilds `processedTips` from `rawTips`: a copy of every tip with
     * its stories cleared, then each raw story's home copy and
     * cross-reference copies appended, tip by tip and story by story.
     * The raw tips are left as they were.
     */
    method ProcessStories()
      modifies this`processedTips
      ensures rawTips == old(rawTips)
      ensures processedTips == Redistribute(rawTips)
    {
      // The deep copy, with every copy's stories cleared.
      processedTips := [];
      var i := 0;
      while i < |rawTips|
        invariant i <= |rawTips|
        invariant processedTips == Skeleton(rawTips[..i])
      {
        var tip := rawTips[i];
        processedTips := processedTips + [Tip(tip.number, tip.title, tip.description, [])];
        SkeletonSnoc(rawTips, i);
        i := i + 1;
      }
      assert rawTips[..i] == rawTips;

      var t := 0;
      while t < |rawTips|
        invariant t <= |rawTips|
        invariant processedTips == PlaceTips(Skeleton(rawTips), rawTips[..t])
      {
        var tip := rawTips[t];
        DistributeTipStories(tip.number, tip.stories);
        PlaceTipsSnoc(Skeleton(rawTips), rawTips, t);
        t := t + 1;
      }
      assert rawTips[..t] == rawTips;
    }

    /** The body of the loop over tips: places every story of the tip numbered `home`, in order. */
    method DistributeTipStories(home: int, stories: seq<Story>)
      modifies this`processedTips
      ensures processedTips == PlaceStories(old(processedTips), home, stories)
    {
      var k := 0;
      while k < |stories|
        invariant k <= |stories|
        invariant processedTips == PlaceStories(old(processedTips), home, stories[..k])
      {
        DistributeStory(home, stories[k]);
        PlaceStoriesSnoc(old(processedTips), home, stories, k);
        k := k + 1;
      }
      assert stories[..k] == stories;
    }

    /**
     * The body of the loop over one tip's stories: normalises the
     * related list on a copy, places the home copy, then one
     * cross-reference copy per related number other than `home`.
     */
    method DistributeStory(home: int, story: Story)
      modifies this`processedTips
      ensures processedTips == PlaceStory(old(processedTips), home, story)
    {
      var relatedTips := story.relatedTips;
      if home !in relatedTips {
        relatedTips := [home] + relatedTips;
      }
      var enhancedStory := EnhancedStory(story.content, relatedTips, home, false, false);
      assert enhancedStory == Enhance(story, home);

      PushToTip(home, enhancedStory.(isHomeTip := true));
      ghost var homePlaced := processedTips;

      var m := 0;
      while m < |enhancedStory.relatedTips|
        invariant m <= |enhancedStory.relatedTips|
        invariant processedTips == PlaceXrefs(homePlaced, home, story, enhancedStory.relatedTips[..m])
      {
        var relatedTipNum := enhancedStory.relatedTips[m];
        if relatedTipNum != home {
          PushToTip(relatedTipNum, enhancedStory.(isHomeTip := false, isXref := true));
        }
        PlaceXrefsSnoc(homePlaced, home, story, enhancedStory.relatedTips, m);
        m := m + 1;
      }
      assert enhancedStory.relatedTips[..m] == enhancedStory.relatedTips;
    }

    /** Finds the first processed tip numbered `n` and, if there is one, appends `c` to its stories. */
    method PushToTip(n: int, c: EnhancedStory)
      modifies this`processedTips
      ensures processedTips == Deliver(old(processedTips), n, c)
    {
      var found := FirstIndex(Numbers(processedTips), n);
      if found.Some? {
        var j := found.value;
        processedTips := processedTips[j := processedTips[j].(stories := processedTips[j].stories + [c])];
      }
    }

    /** Collapses `card`; the other cards keep their state. */
    method CollapseCard(card: nat)
      modifies this`expanded
      ensures expanded == old(expanded) - {card}
    {
      expanded := expanded - {card};
    }

    /** Collapses every expanded card, one at a time. */
    method CollapseAllCards()
      modifies this`expanded
      ensures expanded == {}
    {
      while expanded != {}
        decreases expanded
      {
        var card :| card in expanded;
        CollapseCard(card);
      }
    }

    /**
     * The click on the expand button of `card`, which only a card with
     * stories has: collapse it if it is expanded, otherwise collapse all
     * cards and expand this one.
     */
    method ToggleCard(card: nat)
      requires card < |processedTips| && processedTips[card].stories != []
      modifies this`expanded
      ensures expanded == Toggled(old(expanded), card)
      ensures |old(expanded)| <= 1 ==> |expanded| <= 1
    {
      ghost var before := expanded;
      var isExpanded := card in expanded;
      if isExpanded {
        CollapseCard(card);
      } else {
        CollapseAllCards();
        expanded := expanded + {card};
      }
      if |before| <= 1 {
        AtMostOneExpanded(before, card);
      }
    }
  }
}
