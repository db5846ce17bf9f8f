/** Values shared by the slide player (StoryListItem) and the story session (Story). */
module Common {

  /** A JavaScript value that may be `undefined`. */
  datatype Option<T> = None | Some(value: T)

  /** One story of a user, reduced to the fields that playback reads:
      `story_image`, the per-story `swipeText`, and whether the story
      carries an `onPress` action handler. */
  datatype StoryItem = StoryItem(image: Option<string>, swipeText: Option<string>, hasOnPress: bool)

  /** JavaScript truthiness of an optional string: `undefined` and "" are falsy. */
  predicate Truthy(s: Option<string>)
  {
    s.Some? && s.value != ""
  }

  /** `v || 0` for an optional index: undefined reads as 0. */
  function OrZero(v: Option<int>): int
  {
    match v
    case None => 0
    case Some(n) => n
  }
}
