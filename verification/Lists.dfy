/** What the bounded lists of the dashboard share. */
module Lists {
  /** A list cut to its first max elements. */
  function Cap<T>(list: seq<T>, max: nat): seq<T> {
    if |list| <= max then list else list[..max]
  }
}
