# Pragmatic cheatsheet: story redistribution, modelled in Dafny

The cheatsheet page shows numbered tips as cards. Each tip owns user
stories, and a story names related tips by number. Before rendering,
`PragmaticCheatsheet.processStories` builds the processed tips: a copy of
every tip with its stories cleared, refilled so that each story appears
once on its home tip (`isHomeTip: true`) and once more on every related
tip that exists (`isHomeTip: false, isXref: true`). Every copy carries
`sourceTip` and a related list that names the home tip. The card list
keeps at most one card expanded.

The model has five modules:

- `Redistribution` (redistribution.dfy): tips, raw and enhanced stories as
  datatypes. The `find` lookup is `FirstIndex` and the related-list
  normalisation is `Normalize`. `Redistribute` is the whole redistribution
  as a fold in the source's loop order: tips, then stories, then the home
  copy and the related numbers.
- `Placement` (placement.dfy): an independent, per-tip description.
  `Gather` lists what one output tip receives, built from `CopiesFor`.
  `RedistributeGathers` proves it equal to the fold. The other lemmas
  derive provenance, ordering, duplicates, unknown numbers and the
  first-match rule from it.
- `Counting` (counting.dfy): how many home and cross-reference copies
  there are.
- `CardToggle` (toggle.dfy): the one-card-expanded rule on a set of
  expanded cards.
- `Cheatsheet` (cheatsheet.dfy): the class `PragmaticCheatsheet`. Its fields
  are `rawTips`, `processedTips` and `expanded`. `ProcessStories` rebuilds
  `processedTips` with nested loops and is proved to produce
  `Redistribute(rawTips)`. The toggle methods update `expanded`.

Three behaviours of the code are easy to misread as deduplicating or
reordering. The model keeps them as the code has them:

- The code does not deduplicate related numbers. A number listed twice
  gives two cross-reference copies on that tip (`DuplicateRelatedTwoCopies`).
  The one-copy-per-tip promise holds only for duplicate-free lists
  (`DistinctRelatedAtMostOneCopy`).
- The home number is put in front only when it is missing. If it is already
  present, the list stays exactly as it was, wherever the number sits.
- Lookups take the first tip with a number. A later tip that reuses the
  number receives nothing (`ShadowedTipEmpty`).

## Model

| member | source | states |
|---|---|---|
| `Redistribution.FirstIndex` | scripts/main.js:60-68 | `find` by number: None exactly when no tip has the number; otherwise the position of a tip with that number, with no earlier tip carrying it |
| `Redistribution.Normalize` | scripts/main.js:51-57 | the normalised list contains the home number, keeps the original list as its suffix, and adds nothing but the home number, and that only when it was missing |
| `Redistribution.NormalizeTwice` | scripts/main.js:55-57 | normalising an already normalised list changes nothing |
| `Redistribution.Skeleton` | scripts/main.js:37-42 | the copy of the raw tips has the same headers (number, title, description) in the same order, and every story list is empty |
| `Redistribution.Deliver` | scripts/main.js:59-75 | find-then-push: only the first tip with the number gets the copy appended at the end of its list; every other tip and every header is unchanged; an unknown number changes nothing |
| `Redistribution.Redistribute` | scripts/main.js:35-80 | the output has the input's length and order with the same number, title and description per tip; only the stories differ |
| `Placement.RedistributeGathers` | scripts/main.js:45-77 | output tip `j` holds exactly what the per-tip description gives: for each raw story in (source tip, story) order, the home copy if `j` is the story's home slot, then one cross-reference copy per occurrence of `j`'s number in the normalised list; a tip that receives nothing has an empty list |
| `Placement.PlacedCopy` | scripts/main.js:48-77 | every output story is a tagged copy of some raw story: same content, `sourceTip` is that story's tip number, normalised related list; `isXref` is the negation of `isHomeTip`; a home copy sits on a tip numbered `sourceTip`, a cross-reference copy on a tip with a different number, named in its related list; only the first tip with a number receives copies |
| `Placement.ShadowedTipEmpty` | scripts/main.js:60-68 | a tip whose number also belongs to an earlier tip ends with no stories |
| `Placement.StoryPlacement` | scripts/main.js:59-77 | a story's home copy goes to the first tip numbered its home, and to no other tip, ahead of that tip's cross-reference copies; tip `j` gets as many cross-reference copies as its number occurs in the normalised list, when that number is not the home and `j` is the first tip with it |
| `Placement.DistinctRelatedAtMostOneCopy` | scripts/main.js:66-77 | with a duplicate-free related list, no tip receives more than one copy of the story |
| `Placement.DuplicateRelatedTwoCopies` | scripts/main.js:66-77 | duplicates are kept: a story of tip 1 related to [2, 2] puts two copies on tip 2 |
| `Placement.UnknownNumberIgnored` | scripts/main.js:68-69 | appending a number that no tip carries to a story's related list does not change how many copies any tip receives |
| `Counting.CopyCounts` | scripts/main.js:45-77 | the output holds exactly one home copy per raw story, plus one cross-reference copy per normalised related entry that is not the home number and names an existing tip, duplicates included; the total is the sum of the two |
| `CardToggle.Toggled` | scripts/main.js:177-193 | after a click the clicked card is expanded exactly when it was collapsed before; collapsing removes only that card; expanding leaves exactly one card expanded |
| `CardToggle.AtMostOneExpanded` | scripts/main.js:181-193 | from at most one expanded card, a click leaves at most one, and that one is the clicked card |
| `CardToggle.ToggleTwice` | scripts/main.js:177-193 | two clicks on the same card leave it the only expanded card if it was expanded, and all cards collapsed otherwise |
| `Cheatsheet.PragmaticCheatsheet.constructor` | scripts/main.js:3-8 | the app starts with the loaded raw tips, no processed tips and no expanded card |
| `Cheatsheet.PragmaticCheatsheet.ProcessStories` | scripts/main.js:35-80 | the skeleton-copy loop and the nested loops leave `processedTips == Redistribute(rawTips)` and `rawTips` unchanged |
| `Cheatsheet.PragmaticCheatsheet.DistributeTipStories` | scripts/main.js:46-78 | the loop over one tip's stories appends exactly what `PlaceStories` describes |
| `Cheatsheet.PragmaticCheatsheet.DistributeStory` | scripts/main.js:47-77 | normalising on a copy, pushing the home copy and looping over the related numbers appends exactly what `PlaceStory` describes |
| `Cheatsheet.PragmaticCheatsheet.PushToTip` | scripts/main.js:60-75 | a `find` followed by `push` is `Deliver` on the processed tips |
| `Cheatsheet.PragmaticCheatsheet.CollapseCard` | scripts/main.js:196-200 | the card is no longer expanded; the others keep their state |
| `Cheatsheet.PragmaticCheatsheet.CollapseAllCards` | scripts/main.js:202-209 | afterwards no card is expanded |
| `Cheatsheet.PragmaticCheatsheet.ToggleCard` | scripts/main.js:177-194 | the expanded set becomes `Toggled(old, card)`, so at most one card stays expanded |

## Left out

- `loadTips` and `init` (scripts/main.js:10-33) fetch and parse a JSON file. That is network I/O with error wrapping. The constructor instead takes the tips the load produced, and the load and parse failures are not modelled.
- `showLoading`, `showError`, `renderTips`, `createTipCard` and `createStoryHTML` (scripts/main.js:82-175) only build markup. The button label depends on whether a tip has more than one story (line 124); that is not modelled.
- `navigateToTip` and the document click handler (scripts/main.js:212-232) scroll to a card and outline it for a while, using a timer. They are cosmetic, and no story-level matching happens in them.
- The DOM side of toggling (classes, `aria-expanded`, `maxHeight`) is not modelled. A card is identified by its position in the list, and `expanded` is the set of positions shown expanded.
- The global `app` instance, the `DOMContentLoaded` wiring and the injected CSS (scripts/main.js:234-312) are not modelled.
- Copies are values. The object spread shares one `relatedTips` array among all copies of a story, and that aliasing is not modelled. Story fields other than `content` and `relatedTips`, which the spread would also copy, are not modelled either.
- Tip numbers are integers compared with `===`. JSON values of other types are not modelled.
- The deep copy at line 37 and the clearing loop at lines 40-42 are modelled as one loop that copies each tip's header with an empty story list.
