# Story playback and navigation, modelled in Dafny

This project models the playback core of `react-native-insta-story`: a row
of user avatars, each opening that user's group of image stories. Stories
are played one after another on a timer, and the viewer can tap, hold and
swipe between them. The React rendering is stripped away. What is left is
two sequential state machines, with every hook read as a plain state update:

- **The slide player** (`src/StoryListItem.js`, module `StoryListItem`).
  One player exists per group. Its state is:
  - `content`: the group's stories, each with a `finish` flag of 0 or 1;
  - `current`: the index of the slide being shown;
  - `load` and `pressed`;
  - the animated progress. Progress is abstracted to four values: at 0,
    running, frozen by a press, and full after a completed run.

  Each transition is a function from the old state and the props the
  handler sees to a `Step`. A `Step` holds the new state, the callbacks
  invoked in call order, and whether the handler threw. The class
  `SlidePlayer` keeps the same state in fields and performs each transition
  step by step: `close` and the seeding effect are loops over a copy of
  `content`. Each method is proved to end in exactly the state and
  callbacks that the function gives.
- **The story session** (`src/Story.js`, module `Story`). Its state is:
  - `isModalOpen`, `currentPage` and `currentStory`;
  - `selectedData`, the list of groups for this session.

  `selectedData` is assigned the very array held in `dataState`, so the
  groups are shared objects. A group is therefore a class, `Group`, whose
  `lastSeen` and `seen` fields the handlers write in place. Those writes
  survive into the next session. The callbacks to the embedding
  application (`onStart`, `onChange`, `onClose`, `onStoryNext`,
  `onStoryPrevious`) are returned as events, in call order. So is the
  `scrollTo` command sent to the outer carousel.

The two levels are connected by `StorySession.ItemProps`: the props the
session hands to group `i`'s player. Its seed is `lastSeen || 0`, and both
of the player's gates (`currentlyShowing`, and `currentPage == index`) are
then the same test.

Module `Scenario` wires the two levels together the way `src/Story.js`
renders its players. It replays a complete walk through a three-slide group
into the next group.

Where the behaviour described for the system and the code differ, the
model follows the code:

- The seeding effect sets `finish` to 1 for every slide up to and
  including the seeded slide, not only for the slides before it.
- `previous()` clears the flag of the slide it leaves. The slide it returns
  to stays finished. A `next()` followed by a `previous()` therefore
  changes the flags, unless the trail was freshly seeded (`NextThenPrevious`).
- `onNext` records `index - 1`, the slide just left, as `lastSeen`. The
  forward boundary does not call `onNext`. So after playing through a
  group of three slides, `lastSeen` is 1, not 2, and re-entering the group
  resumes at slide 1 (`Scenario.PlayThroughFirstGroup`).
- The close button and swipe-down (`onClosePress`) hide the modal but leave
  `currentPage` where it was. Only the boundary closes in `onStoryFinish`
  reset it to 0.
- `onChange`, `onStoryNext` and `onStoryPrevious` are optional props that
  are called without a presence check. When one is missing, the handler
  throws a TypeError. This is modelled as `ok == false`, with the updates
  made before the throw. The same holds for `previous()` when no slide
  exists at `current`, and for swipe-down without `onClosePress`.
- `next()` takes `current !== content.length - 1` as its test. With no
  slides it never reaches the boundary: `current` runs past the end and
  `onFinish` is never called (`EmptyRunNeverFinishes`).

## Model

| member | source | states |
|---|---|---|
| `StoryListItem.BuildContent` | src/StoryListItem.js:67-79 | one content entry per story, in order, each copied from its story and with `finish` 0 |
| `StoryListItem.SwipeText` | src/StoryListItem.js:205 | the swipe-up text is never empty; it is the slide's own text when that is non-empty, else the `swipeText` prop when non-empty, else "Swipe Up" |
| `StoryListItem.SlidePlayer.constructor` | src/StoryListItem.js:48-101 | mounting builds `content` from `stories` and then applies the seeding effect; the state is consistent |
| `StoryListItem.SlidePlayer.Start` | src/StoryListItem.js:116-120 | `load` becomes false and the progress runs again from 0; nothing else changes |
| `StoryListItem.SlidePlayer.Close` | src/StoryListItem.js:193-203 | every flag becomes 0, progress is reset, `current` is kept, and `onFinish(state, slide, current ± 1)` is called only when `currentPage == index` and `onFinish` is supplied |
| `StoryListItem.SlidePlayer.Next` | src/StoryListItem.js:152-171 | the new state and callbacks are exactly those of `NextOf`: one step on with the flag of the slide left set to 1, or `close('next')` on the last slide |
| `StoryListItem.SlidePlayer.Previous` | src/StoryListItem.js:173-191 | the new state, callbacks and throw flag are exactly those of `PreviousOf` |
| `StoryListItem.SlidePlayer.Seed` | src/StoryListItem.js:89-101 | the new state is exactly `SeedOf` of the old one: the loop sets each flag from the seed index |
| `StoryListItem.SlidePlayer.Rebuild` | src/StoryListItem.js:67-79 | `stories` and `content` are replaced by the new stories and their fresh content; consistency is kept |
| `StoryListItem.SlidePlayer.Tap` | src/StoryListItem.js:235-253 | a tap on the left or right half has exactly the effect of `TapOf` |
| `StoryListItem.SlidePlayer.AnimationEnd` | src/StoryListItem.js:122-132 | the completion callback has exactly the effect of `AnimationEndOf` |
| `StoryListItem.SlidePlayer.PressIn` | src/StoryListItem.js:229 | a running animation is frozen; nothing else changes |
| `StoryListItem.SlidePlayer.LongPress` | src/StoryListItem.js:230 | `pressed` becomes true; nothing else changes |
| `StoryListItem.SlidePlayer.PressOut` | src/StoryListItem.js:231-234 | `pressed` becomes false and the animation runs on; nothing else changes |
| `StoryListItem.SlidePlayer.LoadStart` | src/StoryListItem.js:221 | `load` becomes true; nothing else changes |
| `StoryListItem.SlidePlayer.CurrentChanged` | src/StoryListItem.js:103-114 | when `current` has moved up, the timer is started if the new slide's image equals that of the slide just below it; when it has moved down, if it equals that of the slide just above it; otherwise nothing changes |
| `StoryListItem.SlidePlayer.SwipeUp` | src/StoryListItem.js:134-141 | `onClosePress(story)` is called exactly when `shouldCloseOnSwipeUp` holds and the callback is supplied; the story's `onPress(story)` is called exactly when the story has one; the close comes first; each is called at most once, so the number of callbacks is the number of conditions that hold; no state changes |
| `StoryListItem.SlidePlayer.SwipeDown` | src/StoryListItem.js:143-145 | `onClosePress()` is called when supplied; when it is missing the handler throws |
| `StoryListItem.SlidePlayer.CloseButton` | src/StoryListItem.js:287-292 | `onClosePress()` is called exactly when supplied |
| `StoryListItem.NextInside` | src/StoryListItem.js:152-166 | before the last slide, `next()` sets `current` to `current + 1`, sets only the old slide's flag to 1, resets progress, sets `load`, and calls `onNext(slide left, new index)` only when showing |
| `StoryListItem.NextAtLast` | src/StoryListItem.js:157-169 | on the last slide, `next()` keeps `current`, clears every flag, resets progress, and calls `onFinish('next', slide, current + 1)` only when `currentPage == index` |
| `StoryListItem.PreviousInside` | src/StoryListItem.js:173-186 | after the first slide, `previous()` sets `current` to `current - 1`, clears only the old slide's flag, resets progress, sets `load`, and calls `onPrevious(slide left, new index)` only when showing |
| `StoryListItem.PreviousAtFirst` | src/StoryListItem.js:173-203 | on the first slide, `previous()` keeps `current`, clears every flag, and calls `onFinish('previous', slide, -1)` only when `currentPage == index` |
| `StoryListItem.PreviousPastEndThrows` | src/StoryListItem.js:179-183 | with no slide at `current`, `previous()` throws after setting `load` and calling `onPrevious`, and changes nothing else |
| `StoryListItem.NavigationKeepsCurrentInRange` | src/StoryListItem.js:157-185 | on a non-empty list, `next()` and `previous()` keep `0 <= current < |content|` and do not throw |
| `StoryListItem.SeedMarksUpToCurrent` | src/StoryListItem.js:89-101 | re-seeding sets `current` to `lastSeen` (0 when undefined); `finish[i]` is 1 exactly when `i <= current`; the timer starts exactly when the item is showing |
| `StoryListItem.RebuildOnePerStory` | src/StoryListItem.js:67-79 | a rebuild leaves `content` consistent with the new stories, with every flag 0 |
| `StoryListItem.TapGating` | src/StoryListItem.js:235-253 | a tap calls `previous()` (left) or `next()` (right) exactly when neither `pressed` nor `load` holds; otherwise it does nothing |
| `StoryListItem.StartReadies` | src/StoryListItem.js:116-120 | after `start()`, `load` is false and progress runs; a tap that is not held then is exactly `previous()` (left half) or `next()` (right half) |
| `StoryListItem.TimerGating` | src/StoryListItem.js:127-131 | timer completion calls `next()` only when the animation finished and the item is showing; then it is exactly `next()`; otherwise nothing moves |
| `StoryListItem.NavigationKeepsTrail` | src/StoryListItem.js:152-190 | `next()` and `previous()` inside the list keep the finished slides a prefix that ends at the current slide or just after it |
| `StoryListItem.NextThenPrevious` | src/StoryListItem.js:152-190 | `next()` then `previous()` returns to the same slide; `finish[current]` is set to 1 and `finish[current + 1]` to 0. On the trail an inside `next()` leaves (finished strictly below `current`) only the first changes, and the flags differ from the start; on a freshly seeded trail they come back unchanged |
| `StoryListItem.NextThenCurrentChanged` | src/StoryListItem.js:103-114 | after an inside `next()`, the `current` effect starts the timer exactly when the new slide and the slide just left have the same image |
| `StoryListItem.CurrentChangedComparesNeighbour` | src/StoryListItem.js:105-111 | after a move down of any length the effect compares the new slide with the one just above it, after a move up with the one just below it; with `current` unchanged it does nothing |
| `StoryListItem.NextRunMarksPassed` | src/StoryListItem.js:152-166 | `m` calls of `next()` inside the list advance `current` by `m`, finish every slide passed, and leave all other entries as they were |
| `StoryListItem.WalkToBoundary` | src/StoryListItem.js:152-203 | from the first of `n` slides, `n - 1` calls of `next()` reach the last slide, never an out-of-range index; the `n`-th call is the forward boundary and reports index `n` |
| `StoryListItem.EmptyRunNeverFinishes` | src/StoryListItem.js:157-165 | with no slides, every `next()` moves `current` further past the end and never calls `onFinish` |
| `Story.StorySession.constructor` | src/Story.js:57-61 | the initial state: modal closed, page 0, story 0, nothing selected |
| `Story.StorySession.ItemProps` | src/Story.js:114-154 | the props for group `i`: `currentlyShowing` is exactly `currentPage == index`; the seed is the group's `lastSeen`, or 0 when undefined; every player callback is supplied |
| `Story.StorySession.HandleStoryItemPress` | src/Story.js:65-76 | if `onStart` resolves false, no state changes; otherwise `currentPage` is the pressed index, `selectedData` is `dataState`, and the modal opens; `currentStory` resets when the page changed |
| `Story.StorySession.OnStoryFinish` | src/Story.js:82-112 | a blank state is a no-op. Otherwise `onChange(group, page)` is called once, first, with the page read on entry. `'next'` either moves to the next page and scrolls there, or, on the last group, closes with page 0 and calls `onClose(last group)`; either way it marks the group left as seen. `'previous'` either moves back and scrolls there, or closes with page 0 without `onClose`. Only the group left is written, and nothing is written when `onChange` is missing and the handler throws. An open session keeps `currentPage` in range. |
| `Story.StorySession.GroupOnNext` | src/Story.js:124-131 | group `i` records `lastSeen = index - 1` only while it is the current page; `currentStory` becomes `index`; `onStoryNext` is called, or the handler throws when it is missing |
| `Story.StorySession.GroupOnPrevious` | src/Story.js:132-139 | group `i` records `lastSeen = index` only while it is the current page; `currentStory` becomes `index`; `onStoryPrevious` is called, or the handler throws |
| `Story.StorySession.GroupClosePress` | src/Story.js:146-152 | the modal is hidden with `currentPage` unchanged; `onClose(group i)` is called and `currentStory` reset only when `onClose` is supplied |
| `Scenario.TapForwardInside` | src/Story.js:117-131 | when `onStoryNext` is supplied, a right-half tap inside group `i`'s showing player, with its `onNext` handed to the session, advances the slide, finishes the slide left, and records that slide as the group's `lastSeen` |
| `Scenario.PlayThroughFirstGroup` | src/Story.js:124-131 | opening the first of two groups and tapping through its three slides moves the session to page 1 and marks the group seen; its `lastSeen` is 1, so re-entering resumes at slide 1 |
| `Story.StorySession.AfterSwipe` | src/Story.js:164-169 | `currentStory` becomes 0 and `currentPage` becomes the reported page; the modal and the selection are untouched |

## Left out

- Rendering, styles, the progress-bar `flex` interpolation and the `Modal`
  configuration (`src/StoryListItem.js:205-390`, `src/Story.js:158-231`).
  The one exception is the `swipeText` fallback.
- The animated progress value is a float animated over `duration`
  milliseconds. The player's own default of 10000 applies only when the
  prop is undefined; the session always passes `duration * 1000`, which is
  `NaN` when the session's `duration` prop is absent (src/Story.js:115). Only
  four abstract positions are kept: at 0, running, frozen and full. The
  completion callback is an input event whose `finished` flag the caller
  supplies.
- Image loading: the `Image.getSize` height effect
  (`src/StoryListItem.js:81-87`) is platform I/O. Load start and load end
  are input events; load end is `Start`.
- Gesture recognition and its velocity and offset thresholds belong to an
  external library. Swipe up and swipe down are discrete events.
- The cube and carousel components and the modal component are not part of
  this model. Their whole contract here is the `ScrollTo` command and the
  page number reported to `AfterSwipe`. When the carousel is not mounted,
  the source drops `scrollTo` through its optional chaining; the model
  always emits the command.
- The modal's own `onClosed` handler (`src/Story.js:211-214`) is modal
  configuration and is not modelled.
- `onStart` is awaited in the source. The model takes its resolved
  truthiness as the `gate` input and does not model interleaving during the
  await.
- `console.table` debug output.
- `src/StoryCircleListItem.js`: the avatar's border colour and size are
  presentation only.
- `isNullOrWhitespace` and `usePrevious` live in helper files that are not
  part of this model. A blank state is taken to be undefined, or a string
  of spaces, tabs and line breaks.
- Stale closures: the props a handler reads are a parameter of each player
  transition. A caller can therefore pass the props of an earlier render,
  as the timer callback does. The player state used is always the current
  one, though. A timer callback running `next()` over a stale `content` or
  `current` is not modelled.
- If `stories` and `currentPage` change in the same render, the seeding
  effect's `setContent` wins over the rebuild. The model offers the two
  effects as separate transitions and does not model this overlap.
- `GroupOnNext` and `GroupOnPrevious` throw when `onStoryNext` or
  `onStoryPrevious` is missing. In the source that throw comes out of the
  player's `next()` or `previous()`, which then stops after setting `load`
  and before moving `current`. The model reports the throw in the session's
  `ok` only and does not carry it back into the player.
- `Scenario.TapForwardInside` requires the session to have `onStoryNext`;
  the aborted `next()` described above is not modelled.
- The session's `shouldCloseOnSwipeUp` is modelled after its default is
  applied: an absent prop reads as `true` (src/Story.js:53).
- `callBackAfterSwipe` uses a loose `!=` and `parseInt`. The page is
  modelled as an integer.
