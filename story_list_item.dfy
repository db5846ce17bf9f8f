/** The slide player of one user's stories (src/StoryListItem.js).

    The component's hook state (`content`, `current`, `load`, `pressed` and
    the animated progress value) is the `Playback` value below.  Every
    transition is first defined as a function from the old state and the
    props the handler sees to a `Step`: the new state, the callbacks it
    invokes in order, and whether it ran to the end (`ok`) or threw a
    TypeError.  The class `SlidePlayer` holds the same state in fields and
    performs each transition step by step; every method is proved to land
    exactly on the function's result, and the lemmas at the end of the
    module state what the transitions promise. */
module StoryListItem {
  import opened Common

  /** The value of a slide's `finish` field: 0 (not yet finished) or 1 (finished). */
  type Flag = x: int | 0 <= x <= 1

  /** An entry of `content`: the story it was copied from plus its `finish` flag. */
  datatype Slide = Slide(item: StoryItem, finish: Flag)

  /** The `state` string given to `close` and passed on to `onFinish`:
      'next' (Forward) or 'previous' (Backward). */
  datatype Direction = Forward | Backward

  /** The animated progress value, abstracted: at 0 and idle, animating
      toward 1, stopped part-way by a press, or at 1 after a completed run. */
  datatype Progress = Zero | Running | Frozen | Full

  /** The props a handler reads.  `lastSeen` may be undefined; the `has…`
      fields say whether the optional callbacks were supplied. */
  datatype Props = Props(
    currentPage: int,
    index: int,
    currentlyShowing: bool,
    lastSeen: Option<int>,
    swipeText: Option<string>,
    shouldCloseOnSwipeUp: bool,
    hasOnNext: bool,
    hasOnPrevious: bool,
    hasOnFinish: bool,
    hasOnClosePress: bool)

  /** A callback invoked by the player, with its arguments. */
  datatype Event =
    | OnNext(slide: Option<Slide>, index: int)
    | OnPrevious(slide: Option<Slide>, index: int)
    | OnFinish(state: Direction, slide: Option<Slide>, index: int)
    | OnClosePress(story: Option<StoryItem>)
    | OnPress(pressed: StoryItem)

  /** The player's state: the `stories` prop and the hook state. */
  datatype Playback = Playback(
    stories: seq<StoryItem>,
    content: seq<Slide>,
    current: int,
    load: bool,
    pressed: bool,
    progress: Progress)

  /** The outcome of one transition.  `ok` is false when the handler threw
      part-way; `after` then holds the updates made before the throw. */
  datatype Step = Step(after: Playback, events: seq<Event>, ok: bool)

  /** `content` is a copy of `stories` with a flag added to each entry. */
  predicate Consistent(s: Playback)
  {
    |s.content| == |s.stories| &&
    forall i :: 0 <= i < |s.content| ==> s.content[i].item == s.stories[i]
  }

  /** `content?.[i]`: undefined outside the list. */
  function SlideAt(content: seq<Slide>, i: int): Option<Slide>
  {
    if 0 <= i < |content| then Some(content[i]) else None
  }

  /** `content[i]?.image`: undefined outside the list or when the story has no image. */
  function ImageAt(content: seq<Slide>, i: int): Option<string>
  {
    if 0 <= i < |content| then content[i].item.image else None
  }

  /** Every entry's flag reads 1 exactly below position `m`. */
  predicate Marked(content: seq<Slide>, m: int)
  {
    forall i :: 0 <= i < |content| ==> content[i].finish == (if i < m then 1 else 0)
  }

  /** The progress-bar trail: the finished slides form a prefix that ends
      at the current slide or just after it. */
  predicate TrailOk(s: Playback)
  {
    Marked(s.content, s.current) || Marked(s.content, s.current + 1)
  }

  // ---------------------------------------------------------------------
  // Content lists

  /** The content list built from `stories` (src/StoryListItem.js:52-62, 67-79). */
  function BuildContent(stories: seq<StoryItem>): (r: seq<Slide>)
    ensures |r| == |stories|
    ensures forall i :: 0 <= i < |r| ==> r[i].item == stories[i] && r[i].finish == 0
  {
    seq(|stories|, i requires 0 <= i < |stories| => Slide(stories[i], 0))
  }

  /** Every flag reset to 0 (what `close` does to its copy of `content`). */
  function ClearFinish(content: seq<Slide>): seq<Slide>
  {
    seq(|content|, i requires 0 <= i < |content| => content[i].(finish := 0))
  }

  /** Every flag set from the seed index `c`: 0 above it, 1 at or below it. */
  function SeedFinish(content: seq<Slide>, c: int): seq<Slide>
  {
    seq(|content|, i requires 0 <= i < |content| => content[i].(finish := if c < i then 0 else 1))
  }

  /** One flag changed, when the position holds a slide. */
  function SetFinish(content: seq<Slide>, i: int, f: Flag): seq<Slide>
  {
    if 0 <= i < |content| then content[i := content[i].(finish := f)] else content
  }

  // ---------------------------------------------------------------------
  // Transitions as functions

  /** `start()`: clear `load`, put the progress back to 0 and run it toward 1. */
  function StartOf(s: Playback): Playback
  {
    s.(load := false, progress := Running)
  }

  /** `close(state)`: clear every flag, reset the progress and, when this
      item is the current page, report the boundary through `onFinish`
      with the slide (already cleared) and the index one past it. */
  function CloseOf(s: Playback, p: Props, state: Direction): Step
  {
    var data := ClearFinish(s.content);
    var target := if state == Forward then s.current + 1 else s.current - 1;
    Step(s.(content := data, progress := Zero),
         if p.currentPage == p.index && p.hasOnFinish then [OnFinish(state, SlideAt(data, s.current), target)] else [],
         true)
  }

  /** `next()`. */
  function NextOf(s: Playback, p: Props): Step
  {
    var s1 := s.(load := true);
    if s.current != |s.content| - 1 then
      Step(s1.(content := SetFinish(s.content, s.current, 1), current := s.current + 1, progress := Zero),
           if p.currentlyShowing && p.hasOnNext then [OnNext(SlideAt(s.content, s.current), s.current + 1)] else [],
           true)
    else
      CloseOf(s1, p, Forward)
  }

  /** `previous()`.  The flag write `data[current].finish = 0` is not
      guarded, so with no slide at `current` it throws after `onPrevious`. */
  function PreviousOf(s: Playback, p: Props): Step
  {
    var s1 := s.(load := true);
    if s.current - 1 >= 0 then
      var events := if p.currentlyShowing && p.hasOnPrevious then [OnPrevious(SlideAt(s.content, s.current), s.current - 1)] else [];
      if s.current < |s.content| then
        Step(s1.(content := SetFinish(s.content, s.current, 0), current := s.current - 1, progress := Zero), events, true)
      else
        Step(s1, events, false)
    else
      CloseOf(s1, p, Backward)
  }

  /** The effect that runs when `currentPage` changes: seed `current` from
      `lastSeen`, mark the slides up to it finished, and start the timer
      if this item is showing. */
  function SeedOf(s: Playback, p: Props): Playback
  {
    var c := OrZero(p.lastSeen);
    var s1 := s.(content := SeedFinish(s.content, c), current := c);
    if p.currentlyShowing then StartOf(s1) else s1
  }

  /** The effect that runs when `stories` changes. */
  function RebuildOf(s: Playback, stories: seq<StoryItem>): Playback
  {
    s.(stories := stories, content := BuildContent(stories))
  }

  /** A tap on the left (`leftHalf`) or right half of the slide. */
  function TapOf(s: Playback, p: Props, leftHalf: bool): Step
  {
    if !s.pressed && !s.load then
      if leftHalf then PreviousOf(s, p) else NextOf(s, p)
    else
      Step(s, [], true)
  }

  /** The completion callback of the progress animation. */
  function AnimationEndOf(s: Playback, p: Props, finished: bool): Step
  {
    if finished then
      var s1 := s.(progress := Full);
      if p.currentlyShowing then NextOf(s1, p) else Step(s1, [], true)
    else
      Step(s, [], true)
  }

  /** The effect that runs when `current` changes: the image did not change,
      so no load-end event will come, and the timer is started here. */
  function CurrentChangedOf(s: Playback, prev: Option<int>): Playback
  {
    if prev.Some? &&
       ((s.current > prev.value && ImageAt(s.content, s.current - 1) == ImageAt(s.content, s.current)) ||
        (s.current < prev.value && ImageAt(s.content, s.current + 1) == ImageAt(s.content, s.current)))
    then StartOf(s)
    else s
  }

  /** The text of the swipe-up affordance. */
  function SwipeText(s: Playback, p: Props): (r: string)
    ensures r != ""
    ensures r == "Swipe Up" || Some(r) == p.swipeText ||
            (0 <= s.current < |s.content| && Some(r) == s.content[s.current].item.swipeText)
    ensures 0 <= s.current < |s.content| && Truthy(s.content[s.current].item.swipeText) ==>
              Some(r) == s.content[s.current].item.swipeText
    ensures (!(0 <= s.current < |s.content|) || !Truthy(s.content[s.current].item.swipeText)) && Truthy(p.swipeText) ==>
              Some(r) == p.swipeText
  {
    var own := if 0 <= s.current < |s.content| then s.content[s.current].item.swipeText else None;
    if Truthy(own) then own.value
    else if Truthy(p.swipeText) then p.swipeText.value
    else "Swipe Up"
  }

  /** `next()` applied `m` times. */
  function NextRun(s: Playback, p: Props, m: nat): Playback
    decreases m
  {
    if m == 0 then s else NextRun(NextOf(s, p).after, p, m - 1)
  }

  // ---------------------------------------------------------------------
  // The player

  class SlidePlayer {
    var stories: seq<StoryItem>
    var content: seq<Slide>
    var current: int
    var load: bool
    var pressed: bool
    var progress: Progress

    function State(): Playback
      reads this
    {
      Playback(stories, content, current, load, pressed, progress)
    }

    predicate Valid()
      reads this
    {
      Consistent(State())
    }

    /** Mounting: the initial hook state, then the effects that run on
        mount, of which the seeding effect decides the state. */
    constructor (stories: seq<StoryItem>, p: Props)
      ensures Valid()
      ensures State() == SeedOf(Playback(stories, BuildContent(stories), OrZero(p.lastSeen), true, false, Zero), p)
    {
      this.stories := stories;
      content := BuildContent(stories);
      current := OrZero(p.lastSeen);
      load, pressed, progress := true, false, Zero;
      new;
      Seed(p);
    }

    method Start()
      requires Valid()
      modifies this
      ensures Valid() && State() == StartOf(old(State()))
    {
      load := false;
      progress := Running;
    }

    method Close(p: Props, state: Direction) returns (events: seq<Event>)
      requires Valid()
      modifies this
      ensures Valid()
      ensures State() == CloseOf(old(State()), p, state).after
      ensures events == CloseOf(old(State()), p, state).events
    {
      var data := content;
      var i := 0;
      while i < |data|
        invariant |data| == |content| && 0 <= i <= |data|
        invariant forall j :: 0 <= j < i ==> data[j] == content[j].(finish := 0)
        invariant forall j :: i <= j < |data| ==> data[j] == content[j]
      {
        data := data[i := data[i].(finish := 0)];
        i := i + 1;
      }
      content := data;
      progress := Zero;
      events := [];
      if p.currentPage == p.index && p.hasOnFinish {
        var target := if state == Forward then current + 1 else current - 1;
        events := [OnFinish(state, SlideAt(content, current), target)];
      }
    }

    method Next(p: Props) returns (events: seq<Event>)
      requires Valid()
      modifies this
      ensures Valid()
      ensures State() == NextOf(old(State()), p).after
      ensures events == NextOf(old(State()), p).events
    {
      var nextIndex := current + 1;
      load := true;
      if current != |content| - 1 {
        events := [];
        if p.currentlyShowing && p.hasOnNext {
          events := [OnNext(SlideAt(content, current), nextIndex)];
        }
        var data := content;
        if 0 <= current < |data| {
          data := data[current := data[current].(finish := 1)];
        }
        content := data;
        current := nextIndex;
        progress := Zero;
      } else {
        events := Close(p, Forward);
      }
    }

    method Previous(p: Props) returns (events: seq<Event>, ok: bool)
      requires Valid()
      modifies this
      ensures Valid()
      ensures State() == PreviousOf(old(State()), p).after
      ensures events == PreviousOf(old(State()), p).events && ok == PreviousOf(old(State()), p).ok
    {
      var previousIndex := current - 1;
      load := true;
      if current - 1 >= 0 {
        events := [];
        if p.currentlyShowing && p.hasOnPrevious {
          events := [OnPrevious(SlideAt(content, current), previousIndex)];
        }
        if current >= |content| {
          ok := false;
          return;
        }
        var data := content;
        data := data[current := data[current].(finish := 0)];
        content := data;
        current := previousIndex;
        progress := Zero;
        ok := true;
      } else {
        events := Close(p, Backward);
        ok := true;
      }
    }

    method Seed(p: Props)
      requires Valid()
      modifies this
      ensures Valid() && State() == SeedOf(old(State()), p)
    {
      var c := OrZero(p.lastSeen);
      var data := content;
      var i := 0;
      while i < |data|
        invariant |data| == |content| && 0 <= i <= |data|
        invariant forall j :: 0 <= j < i ==> data[j] == content[j].(finish := if c < j then 0 else 1)
        invariant forall j :: i <= j < |data| ==> data[j] == content[j]
      {
        data := data[i := data[i].(finish := if c < i then 0 else 1)];
        i := i + 1;
      }
      current := c;
      content := data;
      if p.currentlyShowing {
        Start();
      }
    }

    method Rebuild(stories: seq<StoryItem>)
      requires Valid()
      modifies this
      ensures Valid() && State() == RebuildOf(old(State()), stories)
    {
      this.stories := stories;
      content := BuildContent(stories);
    }

    method Tap(p: Props, leftHalf: bool) returns (events: seq<Event>, ok: bool)
      requires Valid()
      modifies this
      ensures Valid()
      ensures State() == TapOf(old(State()), p, leftHalf).after
      ensures events == TapOf(old(State()), p, leftHalf).events && ok == TapOf(old(State()), p, leftHalf).ok
    {
      if !pressed && !load {
        if leftHalf {
          events, ok := Previous(p);
        } else {
          events := Next(p);
          ok := true;
        }
      } else {
        events, ok := [], true;
      }
    }

    method AnimationEnd(p: Props, finished: bool) returns (events: seq<Event>)
      requires Valid()
      modifies this
      ensures Valid()
      ensures State() == AnimationEndOf(old(State()), p, finished).after
      ensures events == AnimationEndOf(old(State()), p, finished).events
    {
      events := [];
      if finished {
        progress := Full;
        if p.currentlyShowing {
          events := Next(p);
        }
      }
    }

    /** `onPressIn`: stop the running animation where it is. */
    method PressIn()
      requires Valid()
      modifies this
      ensures Valid()
      ensures State() == old(State()).(progress := if old(progress) == Running then Frozen else old(progress))
    {
      if progress == Running {
        progress := Frozen;
      }
    }

    /** `onLongPress`. */
    method LongPress()
      requires Valid()
      modifies this
      ensures Valid() && State() == old(State()).(pressed := true)
    {
      pressed := true;
    }

    /** `onPressOut`: release the press and run the animation on from where it stopped. */
    method PressOut()
      requires Valid()
      modifies this
      ensures Valid() && State() == old(State()).(pressed := false, progress := Running)
    {
      pressed := false;
      progress := Running;
    }

    /** The image's `onLoadStart`. */
    method LoadStart()
      requires Valid()
      modifies this
      ensures Valid() && State() == old(State()).(load := true)
    {
      load := true;
    }

    method CurrentChanged(prev: Option<int>)
      requires Valid()
      modifies this
      ensures Valid() && State() == CurrentChangedOf(old(State()), prev)
    {
      if prev.Some? {
        if current > prev.value && ImageAt(content, current - 1) == ImageAt(content, current) {
          Start();
        } else if current < prev.value && ImageAt(content, current + 1) == ImageAt(content, current) {
          Start();
        }
      }
    }

    /** `onSwipeUp`.  The gesture surface is only rendered while a slide is
        shown (src/StoryListItem.js:207), hence the requirement on `current`. */
    method SwipeUp(p: Props) returns (events: seq<Event>)
      requires Valid() && 0 <= current < |content|
      ensures |events| <= 2
      ensures (OnClosePress(Some(stories[current])) in events) <==> p.shouldCloseOnSwipeUp && p.hasOnClosePress
      ensures (OnPress(stories[current]) in events) <==> stories[current].hasOnPress
      ensures forall e :: e in events ==> e == OnClosePress(Some(stories[current])) || e == OnPress(stories[current])
      ensures |events| == 2 ==> events[0].OnClosePress?
      ensures |events| == (if p.shouldCloseOnSwipeUp && p.hasOnClosePress then 1 else 0) +
                          (if stories[current].hasOnPress then 1 else 0)
    {
      events := [];
      if p.shouldCloseOnSwipeUp && p.hasOnClosePress {
        events := [OnClosePress(Some(stories[current]))];
      }
      if content[current].item.hasOnPress {
        events := events + [OnPress(stories[current])];
      }
    }

    /** `onSwipeDown`: calls `onClosePress` without a presence check. */
    method SwipeDown(p: Props) returns (events: seq<Event>, ok: bool)
      ensures ok <==> p.hasOnClosePress
      ensures ok ==> events == [OnClosePress(None)]
      ensures !ok ==> events == []
    {
      if p.hasOnClosePress {
        events, ok := [OnClosePress(None)], true;
      } else {
        events, ok := [], false;
      }
    }

    /** The close button: calls `onClosePress` when it is supplied. */
    method CloseButton(p: Props) returns (events: seq<Event>)
      ensures p.hasOnClosePress ==> events == [OnClosePress(None)]
      ensures !p.hasOnClosePress ==> events == []
    {
      events := [];
      if p.hasOnClosePress {
        events := [OnClosePress(None)];
      }
    }
  }

  // ---------------------------------------------------------------------
  // What the transitions promise

  /** `next()` inside the list moves one slide on, finishes the slide it
      leaves and nothing else, and reports the move when showing. */
  lemma NextInside(s: Playback, p: Props)
    requires 0 <= s.current < |s.content| - 1
    ensures var r := NextOf(s, p);
      && r.ok
      && r.after.current == s.current + 1
      && |r.after.content| == |s.content|
      && r.after.content[s.current] == s.content[s.current].(finish := 1)
      && (forall j :: 0 <= j < |s.content| && j != s.current ==> r.after.content[j] == s.content[j])
      && r.after.progress == Zero && r.after.load
      && r.after.stories == s.stories && r.after.pressed == s.pressed
      && r.events == if p.currentlyShowing && p.hasOnNext then [OnNext(Some(s.content[s.current]), s.current + 1)] else []
  {
  }

  /** `next()` on the last slide keeps `current`, clears every flag and,
      only when this item is the current page, reports a forward boundary. */
  lemma NextAtLast(s: Playback, p: Props)
    requires |s.content| > 0 && s.current == |s.content| - 1
    ensures var r := NextOf(s, p);
      && r.ok
      && r.after.current == s.current
      && |r.after.content| == |s.content|
      && (forall j :: 0 <= j < |s.content| ==> r.after.content[j] == s.content[j].(finish := 0))
      && r.after.progress == Zero && r.after.load
      && r.events == if p.currentPage == p.index && p.hasOnFinish
                     then [OnFinish(Forward, Some(s.content[s.current].(finish := 0)), s.current + 1)]
                     else []
  {
  }

  /** `previous()` after the first slide moves one slide back, unfinishes
      the slide it leaves and nothing else, and reports the move when showing. */
  lemma PreviousInside(s: Playback, p: Props)
    requires 1 <= s.current < |s.content|
    ensures var r := PreviousOf(s, p);
      && r.ok
      && r.after.current == s.current - 1
      && |r.after.content| == |s.content|
      && r.after.content[s.current] == s.content[s.current].(finish := 0)
      && (forall j :: 0 <= j < |s.content| && j != s.current ==> r.after.content[j] == s.content[j])
      && r.after.progress == Zero && r.after.load
      && r.after.stories == s.stories && r.after.pressed == s.pressed
      && r.events == if p.currentlyShowing && p.hasOnPrevious then [OnPrevious(Some(s.content[s.current]), s.current - 1)] else []
  {
  }

  /** `previous()` on the first slide keeps `current`, clears every flag
      and, only when this item is the current page, reports a backward boundary. */
  lemma PreviousAtFirst(s: Playback, p: Props)
    requires |s.content| > 0 && s.current == 0
    ensures var r := PreviousOf(s, p);
      && r.ok
      && r.after.current == 0
      && |r.after.content| == |s.content|
      && (forall j :: 0 <= j < |s.content| ==> r.after.content[j] == s.content[j].(finish := 0))
      && r.after.progress == Zero && r.after.load
      && r.events == if p.currentPage == p.index && p.hasOnFinish
                     then [OnFinish(Backward, Some(s.content[0].(finish := 0)), -1)]
                     else []
  {
  }

  /** With no slide at `current` (past the end), `previous()` throws after
      setting `load` and invoking `onPrevious`, and changes nothing else. */
  lemma PreviousPastEndThrows(s: Playback, p: Props)
    requires s.current >= 1 && s.current >= |s.content|
    ensures var r := PreviousOf(s, p);
      && !r.ok
      && r.after == s.(load := true)
      && r.events == if p.currentlyShowing && p.hasOnPrevious then [OnPrevious(None, s.current - 1)] else []
  {
  }

  /** On a non-empty list, `next()` and `previous()` keep `current` a valid index. */
  lemma NavigationKeepsCurrentInRange(s: Playback, p: Props)
    requires 0 <= s.current < |s.content|
    ensures 0 <= NextOf(s, p).after.current < |NextOf(s, p).after.content| == |s.content|
    ensures 0 <= PreviousOf(s, p).after.current < |PreviousOf(s, p).after.content| == |s.content|
    ensures PreviousOf(s, p).ok && NextOf(s, p).ok
  {
  }

  /** Re-seeding on a page change: `current` becomes `lastSeen` (0 when
      undefined), the flags read 1 exactly up to and including it, and the
      timer starts exactly when this item is showing. */
  lemma SeedMarksUpToCurrent(s: Playback, p: Props)
    ensures var t := SeedOf(s, p);
      && t.current == (if p.lastSeen.Some? then p.lastSeen.value else 0)
      && |t.content| == |s.content|
      && (forall i :: 0 <= i < |t.content| ==> t.content[i].item == s.content[i].item)
      && (forall i :: 0 <= i < |t.content| ==> (t.content[i].finish == 1 <==> i <= t.current))
      && (p.currentlyShowing ==> !t.load && t.progress == Running)
      && (!p.currentlyShowing ==> t.load == s.load && t.progress == s.progress)
      && TrailOk(t)
  {
  }

  /** A rebuild gives exactly one unfinished content entry per story. */
  lemma RebuildOnePerStory(s: Playback, stories: seq<StoryItem>)
    ensures var t := RebuildOf(s, stories);
      && Consistent(t)
      && t.stories == stories
      && Marked(t.content, 0)
      && t.current == s.current
  {
  }

  /** A tap navigates only when the slide is neither held nor loading;
      otherwise it changes nothing and invokes nothing. */
  lemma TapGating(s: Playback, p: Props, leftHalf: bool)
    ensures s.pressed || s.load ==> TapOf(s, p, leftHalf) == Step(s, [], true)
    ensures !s.pressed && !s.load && leftHalf ==> TapOf(s, p, leftHalf) == PreviousOf(s, p)
    ensures !s.pressed && !s.load && !leftHalf ==> TapOf(s, p, leftHalf) == NextOf(s, p)
  {
  }

  /** `start()` readies the slide for taps and runs the progress from 0. */
  lemma StartReadies(s: Playback, p: Props, leftHalf: bool)
    ensures !StartOf(s).load && StartOf(s).progress == Running
    ensures !s.pressed ==>
              TapOf(StartOf(s), p, leftHalf) == if leftHalf then PreviousOf(StartOf(s), p) else NextOf(StartOf(s), p)
  {
  }

  /** The timer advances the slide only when its animation finished and
      this item is showing; then it is exactly a `next()`. */
  lemma TimerGating(s: Playback, p: Props, finished: bool)
    ensures !finished ==> AnimationEndOf(s, p, finished) == Step(s, [], true)
    ensures finished && !p.currentlyShowing ==>
              AnimationEndOf(s, p, finished) == Step(s.(progress := Full), [], true)
    ensures finished && p.currentlyShowing ==> AnimationEndOf(s, p, finished) == NextOf(s, p)
  {
  }

  /** `next()` and `previous()` inside the list keep the finished slides a
      prefix ending at the current slide or just after it. */
  lemma NavigationKeepsTrail(s: Playback, p: Props)
    requires TrailOk(s) && 0 <= s.current < |s.content|
    ensures s.current < |s.content| - 1 ==> TrailOk(NextOf(s, p).after)
    ensures s.current >= 1 ==> TrailOk(PreviousOf(s, p).after)
  {
  }

  /** `next()` then `previous()` returns to the same slide, but the round
      trip is not an identity on the flags: the slide returned to ends
      finished and the slide visited ends unfinished.  On the trail an
      inside `next()` leaves (finished slides strictly below `current`) only
      the slide returned to changes; from a freshly seeded trail the flags
      come back unchanged. */
  lemma NextThenPrevious(s: Playback, p: Props)
    requires 0 <= s.current < |s.content| - 1
    ensures var t := PreviousOf(NextOf(s, p).after, p).after;
      && t.current == s.current
      && t.content == SetFinish(SetFinish(s.content, s.current, 1), s.current + 1, 0)
      && (Marked(s.content, s.current + 1) ==> t.content == s.content)
      && (Marked(s.content, s.current) ==>
            t.content == SetFinish(s.content, s.current, 1) && t.content != s.content)
  {
  }

  /** The `current` effect after an inside `next()`: the new slide is
      compared with the one below it, which is the slide just left, so the
      timer is started exactly when the two slides share an image. */
  lemma NextThenCurrentChanged(s: Playback, p: Props)
    requires 0 <= s.current < |s.content| - 1
    ensures var t := NextOf(s, p).after;
      CurrentChangedOf(t, Some(s.current)) ==
        if s.content[s.current].item.image == s.content[s.current + 1].item.image then StartOf(t) else t
  {
  }

  /** The `current` effect compares the new slide with its neighbour toward
      the old position, not with the slide left: after a move down it looks
      at the slide just above, after a move up at the slide just below, and
      that holds for jumps of any length. */
  lemma CurrentChangedComparesNeighbour(s: Playback, prev: int)
    ensures s.current < prev ==>
      CurrentChangedOf(s, Some(prev)) ==
        if ImageAt(s.content, s.current + 1) == ImageAt(s.content, s.current) then StartOf(s) else s
    ensures s.current > prev ==>
      CurrentChangedOf(s, Some(prev)) ==
        if ImageAt(s.content, s.current - 1) == ImageAt(s.content, s.current) then StartOf(s) else s
    ensures CurrentChangedOf(s, Some(s.current)) == s
  {
  }

  /** `m` calls of `next()` from inside the list walk `m` slides on,
      finishing each slide passed and leaving the others as they were. */
  lemma {:induction false} NextRunMarksPassed(s: Playback, p: Props, m: nat)
    requires 0 <= s.current && s.current + m < |s.content|
    ensures var t := NextRun(s, p, m);
      && t.current == s.current + m
      && |t.content| == |s.content|
      && (forall i :: 0 <= i < |s.content| ==> t.content[i].item == s.content[i].item)
      && (forall i :: s.current <= i < s.current + m ==> t.content[i].finish == 1)
      && (forall i :: 0 <= i < |s.content| && !(s.current <= i < s.current + m) ==> t.content[i] == s.content[i])
    decreases m
  {
    if m > 0 {
      var s1 := NextOf(s, p).after;
      NextInside(s, p);
      NextRunMarksPassed(s1, p, m - 1);
    }
  }

  /** From the first of `n` slides, `n - 1` calls of `next()` reach the last
      slide with every earlier one finished, and the `n`-th call is the
      forward boundary: `current` stays, the flags are cleared, and
      `onFinish` gets index `n` when this item is the current page. */
  lemma WalkToBoundary(s: Playback, p: Props)
    requires |s.content| > 0 && s.current == 0
    ensures var last := NextRun(s, p, |s.content| - 1);
      && last.current == |s.content| - 1
      && |last.content| == |s.content|
      && (forall i :: 0 <= i < |s.content| - 1 ==> last.content[i].finish == 1)
      && NextOf(last, p).after.current == |s.content| - 1
      && Marked(NextOf(last, p).after.content, 0)
      && NextOf(last, p).events ==
           if p.currentPage == p.index && p.hasOnFinish
           then [OnFinish(Forward, SlideAt(NextOf(last, p).after.content, |s.content| - 1), |s.content|)]
           else []
  {
    NextRunMarksPassed(s, p, |s.content| - 1);
  }

  /** With no slides, `next()` never reaches the boundary: every call moves
      `current` one further past the end and `onFinish` is never invoked. */
  lemma {:induction false} EmptyRunNeverFinishes(s: Playback, p: Props, m: nat)
    requires s.content == [] && s.current >= 0
    ensures NextRun(s, p, m).content == []
    ensures NextRun(s, p, m).current == s.current + m
    ensures forall e :: e in NextOf(NextRun(s, p, m), p).events ==> e.OnNext?
    decreases m
  {
    if m > 0 {
      EmptyRunNeverFinishes(NextOf(s, p).after, p, m - 1);
    }
  }
}
