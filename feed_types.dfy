/**
 * The values exchanged between the browser client and the backend: feed items, the aggregate
 * counters and the listing reply, with the status vocabulary both sides compare against.
 */
module FeedTypes {
  import opened Wrappers

  const APPROVED: string := "APPROVED"
  const BLURRED: string := "BLURRED"
  const BLOCKED: string := "BLOCKED"
  const PROCESSING: string := "PROCESSING"

  /** One feed entry as the listing and status endpoints return it (timestamps are whole seconds). */
  datatype FeedItem = FeedItem(
    id: string,
    url: string,
    status: Option<string>,
    reason: Option<string>,
    timestamp: int)

  /** The counters of the listing endpoint. */
  datatype Stats = Stats(total: nat, approved: nat, blurred: nat, blocked: nat, processing: nat)

  /** `{images, stats}` as the listing endpoint returns it; the client treats `stats` as optional. */
  datatype ListReply = ListReply(images: seq<FeedItem>, stats: Option<Stats>)

  /** Truthiness of a nullable string in JavaScript and Python: present and non-empty. */
  predicate Truthy(s: Option<string>)
  {
    s.Some? && s.value != ""
  }

  /** A moderation verdict after which the status no longer changes. */
  predicate IsTerminal(s: Option<string>)
  {
    s == Some(APPROVED) || s == Some(BLURRED) || s == Some(BLOCKED)
  }

  /** No item of the sequence is BLOCKED. */
  predicate NoBlocked(items: seq<FeedItem>)
  {
    forall k :: 0 <= k < |items| ==> items[k].status != Some(BLOCKED)
  }

  /** Concatenating two feeds without BLOCKED items yields none either way round. */
  lemma NoBlockedAppend(a: seq<FeedItem>, b: seq<FeedItem>)
    ensures NoBlocked(a + b) <==> NoBlocked(a) && NoBlocked(b)
  {
    if !NoBlocked(a) {
      var k :| 0 <= k < |a| && a[k].status == Some(BLOCKED);
      assert (a + b)[k] == a[k];
    }
    if !NoBlocked(b) {
      var k :| 0 <= k < |b| && b[k].status == Some(BLOCKED);
      assert (a + b)[|a| + k] == b[k];
    }
  }
}
