/**
 * A resolved, playable track. The backend's `Playable` carries an open
 * `extras` namespace; the attributes the bot reads or writes on it are fixed
 * fields here (an absent attribute is `None`).
 */
module Tracks {
  import opened Common
  import opened Text

  /** The member who asked for a track: display name, discriminator, id and avatar URL. */
  datatype Requester = Requester(displayName: string, discriminator: string, id: int, avatarUrl: string)

  datatype Extras = Extras(
    requesterName: Option<string>,
    requesterTag: Option<string>,
    requesterId: Option<int>,
    requesterAvatar: Option<string>,
    autoplay: bool,
    autocorrected: bool)

  /**
   * `length` is in milliseconds (`None` when the backend reports none); an empty
   * `author` or `artwork` stands for a missing (falsy) one.
   */
  datatype Track = Track(
    title: string,
    author: string,
    uri: string,
    length: Option<int>,
    artwork: string,
    extras: Extras)

  /** The four requester attributes written on a resolved track. */
  function WithRequester(t: Track, who: Requester): (r: Track)
    ensures r.extras.requesterName == Some(who.displayName)
    ensures r.extras.requesterTag == Some(who.discriminator)
    ensures r.extras.requesterId == Some(who.id)
    ensures r.extras.requesterAvatar == Some(who.avatarUrl)
    ensures r.title == t.title && r.author == t.author && r.uri == t.uri && r.length == t.length
  {
    t.(extras := t.extras.(
      requesterName := Some(who.displayName),
      requesterTag := Some(who.discriminator),
      requesterId := Some(who.id),
      requesterAvatar := Some(who.avatarUrl)))
  }

  /** The `extras.autoplay = True` tag put on an autoplay pick. */
  function MarkAutoplay(t: Track): (r: Track)
    ensures r.extras.autoplay
    ensures r.title == t.title && r.author == t.author && r.uri == t.uri && r.length == t.length
  {
    t.(extras := t.extras.(autoplay := true))
  }

  /** `a.title.lower() == b.title.lower()`. */
  predicate SameTitle(a: Track, b: Track) {
    Lower(a.title) == Lower(b.title)
  }
}
