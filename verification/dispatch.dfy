/** `handleMessage` (main.js:199-231): a `switch` on the decrypted event's `t`. */
module Dispatch {
  import opened JsValues

  /** The statement groups of the switch; `Unknown` is its `default`. */
  datatype Handler =
    | InitialTweets
    | MiniTweet
    | FullTweet
    | ProfileUpdate
    | FollowEvent
    | SnipeConfirmed
    | Unknown

  /** The `case` labels that lead to each handler; `user.follow` falls through to the
      statements of `user.unfollow`. */
  function CaseLabels(h: Handler): (labels: set<string>)
    ensures h.Unknown? <==> labels == {}
  {
    match h
    case InitialTweets => {"initial_tweets"}
    case MiniTweet => {"tweet_mini_update"}
    case FullTweet => {"tweet_full_update"}
    case ProfileUpdate => {"profile_update"}
    case FollowEvent => {"user.follow", "user.unfollow"}
    case SnipeConfirmed => {"snipe_confirmed"}
    case Unknown => {}
  }

  /** The switch itself; labels are compared with `===`, so only strings can match. */
  function Route(t: JsValue): (h: Handler)
    ensures h != Unknown ==> t.Str? && t.s in CaseLabels(h)
  {
    if t == Str("initial_tweets") then InitialTweets
    else if t == Str("tweet_mini_update") then MiniTweet
    else if t == Str("tweet_full_update") then FullTweet
    else if t == Str("profile_update") then ProfileUpdate
    else if t == Str("user.follow") || t == Str("user.unfollow") then FollowEvent
    else if t == Str("snipe_confirmed") then SnipeConfirmed
    else Unknown
  }

  /** The one handler that starts the metadata and trade pipeline. */
  predicate RunsPipeline(h: Handler)
  {
    h == FullTweet
  }

  /** Every case label reaches the handler it labels, and nothing else reaches a named
      handler: a `t` outside all labels goes to the default. */
  lemma RouteFollowsLabels(t: JsValue, h: Handler)
    requires h != Unknown
    ensures Route(t) == h <==> t.Str? && t.s in CaseLabels(h)
    ensures Route(t) == Unknown <==> !(t.Str? && t.s in CaseLabels(InitialTweets) + CaseLabels(MiniTweet)
                                         + CaseLabels(FullTweet) + CaseLabels(ProfileUpdate)
                                         + CaseLabels(FollowEvent) + CaseLabels(SnipeConfirmed))
  {
  }

  /** Only `tweet_full_update` triggers the pipeline. */
  lemma OnlyFullUpdateRunsPipeline(t: JsValue)
    ensures RunsPipeline(Route(t)) <==> t == Str("tweet_full_update")
  {
  }

  /** Follow and unfollow share one handler. */
  lemma FollowAndUnfollowShareHandler()
    ensures Route(Str("user.follow")) == Route(Str("user.unfollow")) == FollowEvent
  {
  }
}
