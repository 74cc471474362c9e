/**
 * The story redistribution engine of the cheatsheet, as values.
 *
 * Raw tips own their stories; a story names related tips by number.
 * Redistribution builds a new list of tips with the same skeleton
 * (number, title, description) whose story lists are rebuilt from
 * scratch: every story is placed once on its home tip and once more on
 * every related tip that exists.
 *
 * The functions below follow the order of the source's loops: tips in
 * input order, then each tip's stories in order, then, for one story,
 * the home copy followed by one cross-reference copy per entry of its
 * normalised related list. `Redistribute` is the value that the
 * imperative `Cheatsheet.PragmaticCheatsheet.ProcessStories` computes.
 */
module Redistribution {

  datatype Option<T> = None | Some(value: T)

  /** A story as it appears in the data file, owned by the tip whose list holds it. */
  datatype Story = Story(content: string, relatedTips: seq<int>)

  /**
   * A story as placed on a tip: its content, its normalised related list,
   * the number of the tip that owns it, and where this copy stands.
   * A home copy has `isXref` false (the source leaves the field unset).
   */
  datatype EnhancedStory = EnhancedStory(
    content: string,
    relatedTips: seq<int>,
    sourceTip: int,
    isHomeTip: bool,
    isXref: bool)

  datatype Tip<S> = Tip(number: int, title: string, description: string, stories: seq<S>)

  type RawTip = Tip<Story>
  type ProcessedTip = Tip<EnhancedStory>

  /** The tip numbers, in list order. */
  function Numbers<S>(tips: seq<Tip<S>>): (ns: seq<int>)
    ensures |ns| == |tips|
    ensures forall i :: 0 <= i < |tips| ==> ns[i] == tips[i].number
  {
    seq(|tips|, i requires 0 <= i < |tips| => tips[i].number)
  }

  /** What a tip shows besides its stories. */
  datatype Header = Header(number: int, title: string, description: string)

  /** The headers of the tips, in list order: the skeleton that redistribution keeps. */
  function Headers<S>(tips: seq<Tip<S>>): (hs: seq<Header>)
    ensures |hs| == |tips|
    ensures forall i :: 0 <= i < |tips| ==> hs[i] == Header(tips[i].number, tips[i].title, tips[i].description)
  {
    seq(|tips|, i requires 0 <= i < |tips| => Header(tips[i].number, tips[i].title, tips[i].description))
  }

  lemma HeadersNumbers<S, T>(a: seq<Tip<S>>, b: seq<Tip<T>>)
    requires Headers(a) == Headers(b)
    ensures |a| == |b| && Numbers(a) == Numbers(b)
  {
  }

  /**
   * The lookup `tips.find(t => t.number === n)`: the position of the FIRST
   * tip numbered `n`, or None when no tip has that number.
   */
  function FirstIndex(ns: seq<int>, n: int): (r: Option<nat>)
    ensures r.None? <==> n !in ns
    ensures r.Some? ==> r.value < |ns| && ns[r.value] == n && n !in ns[..r.value]
  {
    if |ns| == 0 then None
    else if ns[0] == n then Some(0)
    else
      match FirstIndex(ns[1..], n)
      case None => None
      case Some(k) =>
        assert ns[..k + 1] == [ns[0]] + ns[1..][..k];
        Some(k + 1)
  }

  /**
   * The related list of a story placed from home tip `home`: the list
   * itself when it already names `home` (wherever), otherwise `home`
   * put in front of it.
   */
  function Normalize(related: seq<int>, home: int): (r: seq<int>)
    ensures home in r
    ensures |related| <= |r| <= |related| + 1
    ensures r[|r| - |related|..] == related
    ensures multiset(r) == multiset(related) + (if home in related then multiset{} else multiset{home})
  {
    if home in related then related else [home] + related
  }

  /** Normalising an already normalised list changes nothing. */
  lemma NormalizeTwice(related: seq<int>, home: int)
    ensures Normalize(Normalize(related, home), home) == Normalize(related, home)
  {
  }

  /** The story record shared by all copies of `s`, before it is tagged as home or cross-reference. */
  function Enhance(s: Story, home: int): EnhancedStory
  {
    EnhancedStory(s.content, Normalize(s.relatedTips, home), home, false, false)
  }

  function HomeCopy(s: Story, home: int): EnhancedStory
  {
    Enhance(s, home).(isHomeTip := true)
  }

  function XrefCopy(s: Story, home: int): EnhancedStory
  {
    Enhance(s, home).(isHomeTip := false, isXref := true)
  }

  /** The tips of `raw` with their stories cleared. */
  function Skeleton(raw: seq<RawTip>): (r: seq<ProcessedTip>)
    ensures Headers(r) == Headers(raw)
    ensures forall j :: 0 <= j < |r| ==> r[j].stories == []
  {
    seq(|raw|, j requires 0 <= j < |raw| => Tip(raw[j].number, raw[j].title, raw[j].description, []))
  }

  /**
   * Appends `c` to the stories of the first tip numbered `n`; when no
   * tip has that number, nothing changes.
   */
  function Deliver(tips: seq<ProcessedTip>, n: int, c: EnhancedStory): (r: seq<ProcessedTip>)
    ensures Headers(r) == Headers(tips)
    ensures forall j :: 0 <= j < |r| ==>
              r[j].stories == tips[j].stories + (if FirstIndex(Numbers(tips), n) == Some(j) then [c] else [])
  {
    match FirstIndex(Numbers(tips), n)
    case None => tips
    case Some(j) => tips[j := tips[j].(stories := tips[j].stories + [c])]
  }

  /**
   * The cross-reference copies of story `s` (home `home`) for the related
   * numbers `rs`, taken in order; entries equal to `home` are skipped.
   */
  function PlaceXrefs(tips: seq<ProcessedTip>, home: int, s: Story, rs: seq<int>): (r: seq<ProcessedTip>)
    ensures Headers(r) == Headers(tips)
    decreases |rs|
  {
    if rs == [] then tips
    else
      var placed := PlaceXrefs(tips, home, s, rs[..|rs| - 1]);
      var n := rs[|rs| - 1];
      if n != home then Deliver(placed, n, XrefCopy(s, home)) else placed
  }

  /** One story: its home copy first, then its cross-reference copies. */
  function PlaceStory(tips: seq<ProcessedTip>, home: int, s: Story): (r: seq<ProcessedTip>)
    ensures Headers(r) == Headers(tips)
  {
    PlaceXrefs(Deliver(tips, home, HomeCopy(s, home)), home, s, Normalize(s.relatedTips, home))
  }

  /** The stories `ss` of the tip numbered `home`, in order. */
  function PlaceStories(tips: seq<ProcessedTip>, home: int, ss: seq<Story>): (r: seq<ProcessedTip>)
    ensures Headers(r) == Headers(tips)
    decreases |ss|
  {
    if ss == [] then tips
    else PlaceStory(PlaceStories(tips, home, ss[..|ss| - 1]), home, ss[|ss| - 1])
  }

  /** The stories of every tip of `raw`, tip by tip in order. */
  function PlaceTips(tips: seq<ProcessedTip>, raw: seq<RawTip>): (r: seq<ProcessedTip>)
    ensures Headers(r) == Headers(tips)
    decreases |raw|
  {
    if raw == [] then tips
    else
      var last := raw[|raw| - 1];
      PlaceStories(PlaceTips(tips, raw[..|raw| - 1]), last.number, last.stories)
  }

  /** The processed tips: the skeleton of `raw`, refilled with every placed copy. */
  function Redistribute(raw: seq<RawTip>): (r: seq<ProcessedTip>)
    ensures Headers(r) == Headers(raw)
  {
    PlaceTips(Skeleton(raw), raw)
  }

  /** One more related number: the step the loop over a normalised related list takes. */
  lemma PlaceXrefsSnoc(tips: seq<ProcessedTip>, home: int, s: Story, rs: seq<int>, m: nat)
    requires m < |rs|
    ensures PlaceXrefs(tips, home, s, rs[..m + 1])
         == (var placed := PlaceXrefs(tips, home, s, rs[..m]);
             if rs[m] != home then Deliver(placed, rs[m], XrefCopy(s, home)) else placed)
  {
    assert rs[..m + 1][..m] == rs[..m];
  }

  /** One more story: the step the loop over a tip's stories takes. */
  lemma PlaceStoriesSnoc(tips: seq<ProcessedTip>, home: int, ss: seq<Story>, k: nat)
    requires k < |ss|
    ensures PlaceStories(tips, home, ss[..k + 1]) == PlaceStory(PlaceStories(tips, home, ss[..k]), home, ss[k])
  {
    assert ss[..k + 1][..k] == ss[..k];
  }

  /** One more tip: the step the loop over the raw tips takes. */
  lemma PlaceTipsSnoc(tips: seq<ProcessedTip>, raw: seq<RawTip>, t: nat)
    requires t < |raw|
    ensures PlaceTips(tips, raw[..t + 1]) == PlaceStories(PlaceTips(tips, raw[..t]), raw[t].number, raw[t].stories)
  {
    assert raw[..t + 1][..t] == raw[..t];
  }

  /** One more tip copied: the step the copying loop takes. */
  lemma SkeletonSnoc(raw: seq<RawTip>, i: nat)
    requires i < |raw|
    ensures Skeleton(raw[..i + 1]) == Skeleton(raw[..i]) + [Tip(raw[i].number, raw[i].title, raw[i].description, [])]
  {
  }
}
