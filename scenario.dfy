/** The two levels wired together the way src/Story.js renders its players:
    each player gets `ItemProps(i)`, and the callbacks a player invokes are
    handed to the session's matching handler. */
module Scenario {
  import opened Common
  import StoryListItem
  import Story

  /** A tap on the right half of group `i`'s showing player, inside its
      list, with the `onNext` it invokes handed to the session, followed by
      the image's load end.  The session must have been given `onStoryNext`:
      without it the session's handler throws from inside `next()`, which
      then stops before moving `current` (see README, "Left out"). */
  method TapForwardInside(player: StoryListItem.SlidePlayer, session: Story.StorySession, i: int)
    requires player.Valid() && !player.load && !player.pressed
    requires 0 <= player.current < |player.content| - 1
    requires 0 <= i < |session.selectedData| && session.currentPage == i
    requires session.config.hasOnStoryNext
    modifies player, session, session.selectedData[i]
    ensures player.Valid() && !player.load && !player.pressed
    ensures player.current == old(player.current) + 1
    ensures player.content == StoryListItem.SetFinish(old(player.content), old(player.current), 1)
    ensures session.selectedData == old(session.selectedData) && session.currentPage == i
    ensures session.isModalOpen == old(session.isModalOpen)
    ensures session.selectedData[i].lastSeen == Some(old(player.current))
    ensures session.selectedData[i].seen == old(session.selectedData[i].seen)
  {
    var props := session.ItemProps(i);
    StoryListItem.NextInside(player.State(), props);
    var ev, ok := player.Tap(props, false);
    var out, ok2 := session.GroupOnNext(i, ev[0].slide, ev[0].index);
    player.Start();
  }

  /** Open the first of two groups, tap through its three slides, and
      cross the forward boundary into the second group.  The first group is
      then marked seen, and its `lastSeen` is 1, the slide left by the last
      `onNext`, not 2: the boundary tap calls `onFinish`, not `onNext`.
      Re-entering the group therefore resumes at slide 1. */
  method PlayThroughFirstGroup(a: seq<StoryItem>, b: seq<StoryItem>) returns (page: int, seen: bool, resumeAt: int)
    requires |a| == 3 && |b| == 2
    ensures page == 1 && seen && resumeAt == 1
  {
    var ga := new Story.Group(a);
    var gb := new Story.Group(b);
    var session := new Story.StorySession([ga, gb], Story.Config(true, true, true, true, None, true));
    var started := session.HandleStoryItemPress(ga, 0, None);
    var props := session.ItemProps(0);
    assert props.currentlyShowing && props.currentPage == props.index && props.hasOnNext && props.hasOnFinish;
    var player := new StoryListItem.SlidePlayer(a, props);
    assert player.current == 0 && !player.load && !player.pressed;
    assert player.content == [StoryListItem.Slide(a[0], 1), StoryListItem.Slide(a[1], 0), StoryListItem.Slide(a[2], 0)];

    // Two taps: slide 0 -> 1 -> 2, each reported to the group's onNext.
    TapForwardInside(player, session, 0);
    assert ga.lastSeen == Some(0);
    TapForwardInside(player, session, 0);
    assert ga.lastSeen == Some(1);
    assert player.content == [StoryListItem.Slide(a[0], 1), StoryListItem.Slide(a[1], 1), StoryListItem.Slide(a[2], 0)];

    // Third tap: the forward boundary, forwarded to onStoryFinish('next').
    props := session.ItemProps(0);
    assert props.currentlyShowing && props.currentPage == props.index && props.hasOnNext && props.hasOnFinish;
    var ev, ok := player.Tap(props, false);
    assert ev == [StoryListItem.OnFinish(StoryListItem.Forward, Some(StoryListItem.Slide(a[2], 0)), 3)];
    var out, handled := session.OnStoryFinish(Some("next"));

    page := session.currentPage;
    seen := ga.seen;
    var reentry := new StoryListItem.SlidePlayer(a, session.ItemProps(0));
    resumeAt := reentry.current;
  }
}
