/** The story session (src/Story.js): which user's group is open, and the
    handlers that move between groups.

    `selectedData` is assigned the very array held in `dataState`, so the
    groups are shared objects: the `seen` and `lastSeen` fields written
    during a session are still there when the session is opened again.
    `Group` is therefore a class and the session holds references to its
    objects.  Callbacks to the embedding application and the `scrollTo`
    command to the outer carousel are returned as events, in call order. */
module Story {
  import opened Common
  import StoryListItem

  /** One user's group of stories, with the two fields the session writes. */
  class Group {
    const stories: seq<StoryItem>
    var lastSeen: Option<int>
    var seen: bool

    constructor (stories: seq<StoryItem>)
      ensures this.stories == stories && lastSeen == None && !seen
    {
      this.stories := stories;
      lastSeen := None;
      seen := false;
    }
  }

  /** `selectedData[i]`: undefined outside the list. */
  function GroupAt(groups: seq<Group>, i: int): Option<Group>
  {
    if 0 <= i < |groups| then Some(groups[i]) else None
  }

  /** The group object at position `i`, as a frame. */
  function AtPage(groups: seq<Group>, i: int): set<Group>
  {
    if 0 <= i < |groups| then {groups[i]} else {}
  }

  predicate IsWhitespace(c: char)
  {
    c == ' ' || c == '\t' || c == '\n' || c == '\r'
  }

  /** The `isNullOrWhitespace` test on the `state` string. */
  predicate IsNullOrWhitespace(state: Option<string>)
  {
    state.None? || forall i :: 0 <= i < |state.value| ==> IsWhitespace(state.value[i])
  }

  /** A callback invoked by the session, or a command to the carousel. */
  datatype Event =
    | OnStart(group: Group)
    | OnChange(changed: Option<Group>, page: int)
    | OnClose(closed: Option<Group>)
    | ScrollTo(target: int)
    | OnStoryNext(story: Option<StoryListItem.Slide>, index: int)
    | OnStoryPrevious(story: Option<StoryListItem.Slide>, index: int)

  /** The props of the session that its handlers read: which optional
      callbacks were supplied, and what is passed through to the players.
      `shouldCloseOnSwipeUp` holds the value after the component's default:
      an absent prop reads as `true` (src/Story.js:53). */
  datatype Config = Config(
    hasOnChange: bool,
    hasOnClose: bool,
    hasOnStoryNext: bool,
    hasOnStoryPrevious: bool,
    swipeText: Option<string>,
    shouldCloseOnSwipeUp: bool)

  class StorySession {
    const dataState: seq<Group>
    const config: Config
    var selectedData: seq<Group>
    var isModalOpen: bool
    var currentPage: int
    var currentStory: int

    /** While the modal is open, `currentPage` names one of the selected groups. */
    predicate PageInRange()
      reads this
    {
      isModalOpen ==> 0 <= currentPage < |selectedData|
    }

    constructor (data: seq<Group>, config: Config)
      ensures dataState == data && this.config == config
      ensures selectedData == [] && !isModalOpen && currentPage == 0 && currentStory == 0
      ensures PageInRange()
    {
      dataState := data;
      this.config := config;
      selectedData := [];
      isModalOpen := false;
      currentPage := 0;
      currentStory := 0;
    }

    /** The props the session hands to the player of group `i`. */
    function ItemProps(i: int): (p: StoryListItem.Props)
      requires 0 <= i < |selectedData|
      reads this, selectedData[i]
      ensures p.index == i && p.currentPage == currentPage
      ensures p.currentlyShowing <==> p.currentPage == p.index
      ensures OrZero(p.lastSeen) == OrZero(selectedData[i].lastSeen)
      ensures selectedData[i].lastSeen.None? ==> OrZero(p.lastSeen) == 0
      ensures p.hasOnNext && p.hasOnPrevious && p.hasOnFinish && p.hasOnClosePress
      ensures p.swipeText == config.swipeText && p.shouldCloseOnSwipeUp == config.shouldCloseOnSwipeUp
    {
      StoryListItem.Props(
        currentPage, i, currentPage == i, Some(OrZero(selectedData[i].lastSeen)),
        config.swipeText, config.shouldCloseOnSwipeUp, true, true, true, true)
    }

    /** An avatar press.  `gate` is the resolved value of `onStart(item)`,
        or None when no `onStart` was supplied. */
    method HandleStoryItemPress(item: Group, index: int, gate: Option<bool>) returns (events: seq<Event>)
      modifies this
      ensures events == if gate.Some? then [OnStart(item)] else []
      ensures gate == Some(false) ==>
                selectedData == old(selectedData) && isModalOpen == old(isModalOpen) &&
                currentPage == old(currentPage) && currentStory == old(currentStory)
      ensures gate != Some(false) ==>
                currentPage == index && selectedData == dataState && isModalOpen &&
                currentStory == if index != old(currentPage) then 0 else old(currentStory)
      ensures gate != Some(false) && 0 <= index < |dataState| ==> PageInRange()
      ensures gate == Some(false) && old(PageInRange()) ==> PageInRange()
    {
      var flag := true;
      var newData := dataState;
      events := [];
      if gate.Some? {
        events := [OnStart(item)];
        flag := gate.value;
      }
      if flag {
        var page := currentPage;
        currentPage := index;
        selectedData := newData;
        isModalOpen := true;
        if currentPage != page {
          currentStory := 0;
        }
      }
    }

    /** `onStoryFinish(state)`, the `onFinish` of every player.  It reads
        `currentPage` as it was on entry.  `onChange` is called without a
        presence check: when it is missing the handler throws at once. */
    method OnStoryFinish(state: Option<string>) returns (events: seq<Event>, ok: bool)
      modifies this, AtPage(selectedData, currentPage)
      ensures selectedData == old(selectedData)
      ensures ok <==> IsNullOrWhitespace(state) || config.hasOnChange
      ensures IsNullOrWhitespace(state) || !config.hasOnChange ==>
                events == [] && isModalOpen == old(isModalOpen) && currentPage == old(currentPage) &&
                currentStory == old(currentStory)
      ensures ok && !IsNullOrWhitespace(state) ==>
                |events| >= 1 && events[0] == OnChange(GroupAt(selectedData, old(currentPage)), old(currentPage)) &&
                forall k :: 1 <= k < |events| ==> !events[k].OnChange?
      ensures ok && state == Some("next") ==>
                var page := old(currentPage);
                && (page + 1 < |selectedData| ==>
                      currentPage == page + 1 && isModalOpen == old(isModalOpen) &&
                      events == [OnChange(GroupAt(selectedData, page), page), ScrollTo(page + 1)])
                && (page + 1 >= |selectedData| ==>
                      !isModalOpen && currentPage == 0 &&
                      events == [OnChange(GroupAt(selectedData, page), page)] +
                                (if config.hasOnClose then [OnClose(GroupAt(selectedData, |selectedData| - 1))] else []))
                && (0 <= page < |selectedData| ==> selectedData[page].seen)
      ensures ok && state == Some("previous") ==>
                var page := old(currentPage);
                && (page - 1 >= 0 ==>
                      currentPage == page - 1 && isModalOpen == old(isModalOpen) &&
                      events == [OnChange(GroupAt(selectedData, page), page), ScrollTo(page - 1)])
                && (page - 1 < 0 ==>
                      !isModalOpen && currentPage == 0 && events == [OnChange(GroupAt(selectedData, page), page)])
      ensures ok && !IsNullOrWhitespace(state) && state != Some("next") && state != Some("previous") ==>
                events == [OnChange(GroupAt(selectedData, old(currentPage)), old(currentPage))] &&
                isModalOpen == old(isModalOpen) && currentPage == old(currentPage) && currentStory == old(currentStory)
      ensures state != Some("next") || !ok ==> unchanged(AtPage(selectedData, old(currentPage)))
      ensures forall g :: g in AtPage(selectedData, old(currentPage)) ==> g.lastSeen == old(g.lastSeen)
      ensures currentStory ==
                if currentPage != old(currentPage) ||
                   (ok && state == Some("next") && old(currentPage) + 1 >= |selectedData| && config.hasOnClose)
                then 0 else old(currentStory)
      ensures old(PageInRange()) ==> PageInRange()
      ensures old(isModalOpen) && !isModalOpen ==> currentPage == 0
    {
      assert !IsNullOrWhitespace(Some("next")) by { assert !IsWhitespace("next"[0]); }
      assert !IsNullOrWhitespace(Some("previous")) by { assert !IsWhitespace("previous"[0]); }
      events, ok := [], true;
      if IsNullOrWhitespace(state) {
        return;
      }
      if !config.hasOnChange {
        ok := false;
        return;
      }
      var page := currentPage;
      events := [OnChange(GroupAt(selectedData, page), page)];
      if state == Some("next") {
        var newPage := page + 1;
        if newPage < |selectedData| {
          currentPage := newPage;
          events := events + [ScrollTo(newPage)];
        } else {
          isModalOpen := false;
          currentPage := 0;
          if config.hasOnClose {
            events := events + [OnClose(GroupAt(selectedData, |selectedData| - 1))];
            currentStory := 0;
          }
        }
        if 0 <= page < |selectedData| {
          selectedData[page].seen := true;
        }
      } else if state == Some("previous") {
        var newPage := page - 1;
        if newPage < 0 {
          isModalOpen := false;
          currentPage := 0;
        } else {
          currentPage := newPage;
          events := events + [ScrollTo(newPage)];
        }
      }
      if currentPage != page {
        currentStory := 0;
      }
    }

    /** The `onNext` given to the player of group `i`: it records the slide
        just left as the group's `lastSeen`, but only while group `i` is the
        current page, then calls `onStoryNext` without a presence check. */
    method GroupOnNext(i: int, story: Option<StoryListItem.Slide>, index: int) returns (events: seq<Event>, ok: bool)
      requires 0 <= i < |selectedData|
      modifies this, selectedData[i]
      ensures selectedData == old(selectedData) && isModalOpen == old(isModalOpen) && currentPage == old(currentPage)
      ensures selectedData[i].seen == old(selectedData[i].seen)
      ensures currentPage == i ==> selectedData[i].lastSeen == Some(index - 1)
      ensures currentPage != i ==> selectedData[i].lastSeen == old(selectedData[i].lastSeen)
      ensures currentStory == index
      ensures ok == config.hasOnStoryNext
      ensures events == if ok then [OnStoryNext(story, index)] else []
    {
      if currentPage == i {
        selectedData[i].lastSeen := Some(index - 1);
      }
      currentStory := index;
      if config.hasOnStoryNext {
        events, ok := [OnStoryNext(story, index)], true;
      } else {
        events, ok := [], false;
      }
    }

    /** The `onPrevious` given to the player of group `i`: it records the
        slide moved back to as the group's `lastSeen`, but only while group
        `i` is the current page, then calls `onStoryPrevious`. */
    method GroupOnPrevious(i: int, story: Option<StoryListItem.Slide>, index: int) returns (events: seq<Event>, ok: bool)
      requires 0 <= i < |selectedData|
      modifies this, selectedData[i]
      ensures selectedData == old(selectedData) && isModalOpen == old(isModalOpen) && currentPage == old(currentPage)
      ensures selectedData[i].seen == old(selectedData[i].seen)
      ensures currentPage == i ==> selectedData[i].lastSeen == Some(index)
      ensures currentPage != i ==> selectedData[i].lastSeen == old(selectedData[i].lastSeen)
      ensures currentStory == index
      ensures ok == config.hasOnStoryPrevious
      ensures events == if ok then [OnStoryPrevious(story, index)] else []
    {
      if currentPage == i {
        selectedData[i].lastSeen := Some(index);
      }
      currentStory := index;
      if config.hasOnStoryPrevious {
        events, ok := [OnStoryPrevious(story, index)], true;
      } else {
        events, ok := [], false;
      }
    }

    /** The `onClosePress` given to the player of group `i`: it hides the
        modal but, unlike the boundary closes, leaves `currentPage` alone. */
    method GroupClosePress(i: int) returns (events: seq<Event>)
      requires 0 <= i < |selectedData|
      modifies this
      ensures !isModalOpen && currentPage == old(currentPage) && selectedData == old(selectedData)
      ensures events == if config.hasOnClose then [OnClose(Some(selectedData[i]))] else []
      ensures currentStory == if config.hasOnClose then 0 else old(currentStory)
      ensures PageInRange()
    {
      isModalOpen := false;
      events := [];
      if config.hasOnClose {
        events := [OnClose(Some(selectedData[i]))];
        currentStory := 0;
      }
    }

    /** `callBackAfterSwipe(x)`: the outer carousel settled on page `x`. */
    method AfterSwipe(x: int)
      modifies this
      ensures currentStory == 0
      ensures currentPage == x
      ensures isModalOpen == old(isModalOpen) && selectedData == old(selectedData)
      ensures 0 <= x < |selectedData| ==> PageInRange()
      ensures x == old(currentPage) && old(PageInRange()) ==> PageInRange()
    {
      currentStory := 0;
      if x != currentPage {
        currentPage := x;
      }
    }
  }
}
