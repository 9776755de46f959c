/** What travels through the mailbox and the loop's queues. */
module Messages {
  /** Where a message came from; 0 is "no particular source". */
  type Origin = nat

  datatype Queued<+Msg> = Queued(from: Origin, msg: Msg)

  /** What a full mailbox does with a post. */
  datatype Policy = Block | DropNewest | DropOldest

  /** Origins are handed out in increasing order, so retired is issued and no longer live. */
  predicate IsRetired(id: Origin, live: set<Origin>, last: Origin) { id <= last && id !in live }
}
