/** How a market feed is doing, packages/shared-types/src/feed.ts. */
module Feed {
  datatype FeedHealth = Healthy | Degraded | Stale | Unavailable
}
