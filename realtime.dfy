/**
 * The real-time service (`services/realtimeService.ts`): the history of feed
 * events received over the subscription, newest first and capped at 50, and
 * the connection flags.
 *
 * Opening a subscription (`subscriptions.onFeedEvent`) is a synchronous call
 * whose outcome is passed in as a `Call`: it returns a handle or throws. An event arriving on
 * the open subscription is the `ReceiveEvent` method. `released` records, in
 * order, every handle whose `unsubscribe()` the service has called.
 */
module Realtime {
  import opened Calls
  import opened Seqs

  datatype EventType = PostCreated | PostLiked | PostCommented | PostModerated

  /** A received event; its free-form payload is not modelled. */
  datatype FeedEvent = FeedEvent(postId: string, kind: EventType, createdAt: string)

  /** An open subscription handle; `serial` tells handles apart. */
  datatype Subscription = Subscription(feedId: string, serial: nat)

  /** The number of events the history keeps. */
  const HistoryLimit: nat := 50

  /** `[event, ...events.slice(0, 49)]`: the new event first, then at most 49 older ones in their order. */
  function WithEvent(events: seq<FeedEvent>, e: FeedEvent): (r: seq<FeedEvent>)
    ensures |r| == Min(|events| + 1, HistoryLimit)
    ensures r[0] == e
    ensures forall i :: 0 <= i < |r| - 1 ==> r[i + 1] == events[i]
  {
    [e] + events[..Min(HistoryLimit - 1, |events|)]
  }

  /** The history left by a run of arrivals (oldest first) on an empty store. */
  function History(arrivals: seq<FeedEvent>): seq<FeedEvent> {
    if arrivals == [] then []
    else WithEvent(History(arrivals[..|arrivals| - 1]), arrivals[|arrivals| - 1])
  }

  /** The `n` newest arrivals, newest first. */
  function NewestFirst(arrivals: seq<FeedEvent>, n: nat): (r: seq<FeedEvent>)
    ensures |r| == Min(n, |arrivals|)
  {
    seq(Min(n, |arrivals|), i requires 0 <= i < Min(n, |arrivals|) => arrivals[|arrivals| - 1 - i])
  }

  /** Whatever arrived, the history is exactly the 50 newest events, newest first. */
  lemma {:induction false} HistoryIsNewest50(arrivals: seq<FeedEvent>)
    ensures History(arrivals) == NewestFirst(arrivals, HistoryLimit)
  {
    if arrivals != [] {
      var older := arrivals[..|arrivals| - 1];
      HistoryIsNewest50(older);
      var r := History(arrivals);
      var expected := NewestFirst(arrivals, HistoryLimit);
      assert |r| == |expected|;
      forall i | 0 <= i < |r| ensures r[i] == expected[i] {
        if i > 0 {
          assert r[i] == History(older)[i - 1];
        }
      }
    }
  }

  /** The real-time stores and the held subscription. */
  class RealtimeService {
    var events: seq<FeedEvent>
    var isConnected: bool
    var connectionError: Option<string>
    var subscription: Option<Subscription>
    var released: seq<Subscription>

    constructor ()
      ensures events == [] && !isConnected && connectionError == None
      ensures subscription == None && released == []
    {
      events, isConnected, connectionError := [], false, None;
      subscription, released := None, [];
    }

    /**
     * `connectToFeed(feedId)`: unsubscribes the held handle first, then opens
     * the new subscription. On success it is held and the service is connected
     * without error; if opening throws, the error is recorded, the service is
     * disconnected, and the old (already released) handle stays held.
     */
    method ConnectToFeed(feedId: string, attempt: Call<Subscription>)
      modifies this
      ensures released == old(released) + (if old(subscription).Some? then [old(subscription).value] else [])
      ensures attempt.Resolved? ==>
        subscription == Some(attempt.value) && isConnected && connectionError == None
      ensures attempt.Rejected? ==>
        && subscription == old(subscription) && !isConnected
        && connectionError == Some(MessageOf(attempt.thrown, "Failed to connect to real-time feed"))
      ensures events == old(events)
    {
      if subscription.Some? {
        released := released + [subscription.value];
      }
      match attempt {
        case Resolved(handle) =>
          subscription := Some(handle);
          isConnected := true;
          connectionError := None;
        case Rejected(thrown) =>
          connectionError := Some(MessageOf(thrown, "Failed to connect to real-time feed"));
          isConnected := false;
      }
    }

    /** The subscription callback: the event goes to the head of the history. */
    method ReceiveEvent(e: FeedEvent)
      modifies this
      ensures events == WithEvent(old(events), e)
      ensures isConnected == old(isConnected) && connectionError == old(connectionError)
      ensures subscription == old(subscription) && released == old(released)
    {
      var current := events;
      events := WithEvent(current, e);
    }

    /**
     * `disconnect`: unsubscribes the held handle if there is one, forgets it and
     * marks the service disconnected. A second call releases nothing more.
     */
    method Disconnect()
      modifies this
      ensures subscription == None && !isConnected
      ensures released == old(released) + (if old(subscription).Some? then [old(subscription).value] else [])
      ensures events == old(events) && connectionError == old(connectionError)
    {
      if subscription.Some? {
        released := released + [subscription.value];
        subscription := None;
      }
      isConnected := false;
    }
  }
}
