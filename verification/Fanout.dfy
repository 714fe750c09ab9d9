/** Live notification streams: one bounded queue per subscriber, and what a full queue costs. */
module Fanout {
  import opened Wrappers

  const CAPACITY: nat := 256

  /** Changed is the invalidation marker; it is also broadcast on its own account. */
  datatype Payload = Notice(eventId: string) | Changed

  /** A full queue loses its head and the payload, and gets a marker instead. */
  function Put(queue: seq<Payload>, payload: Payload): seq<Payload> {
    if |queue| < CAPACITY then queue + [payload] else queue[1..] + [Changed]
  }

  class Hub {
    var queues: map<nat, seq<Payload>>
    var next: nat

    ghost predicate Valid()
      reads this
    {
      forall id :: id in queues ==> id < next && |queues[id]| <= CAPACITY
    }

    constructor ()
      ensures Valid() && queues == map[]
    {
      queues, next := map[], 0;
    }

    method Subscribe() returns (id: nat)
      requires Valid()
      modifies this
      ensures Valid() && id !in old(queues) && queues == old(queues)[id := []]
    {
      id := next;
      queues, next := queues[id := []], next + 1;
    }

    method Unsubscribe(id: nat)
      requires Valid()
      modifies this`queues
      ensures Valid() && queues == old(queues) - {id}
    {
      queues := queues - {id};
    }

    /** Every subscriber's queue takes the payload as if it were alone. */
    method Broadcast(payload: Payload)
      requires Valid()
      modifies this`queues
      ensures Valid() && queues.Keys == old(queues).Keys
      ensures forall id :: id in queues ==> queues[id] == Put(old(queues)[id], payload)
    {
      var todo := queues.Keys;
      while todo != {}
        invariant queues.Keys == old(queues).Keys && todo <= queues.Keys && Valid()
        invariant forall id :: id in queues ==>
                    queues[id] == if id in todo then old(queues)[id] else Put(old(queues)[id], payload)
        decreases |todo|
      {
        var id :| id in todo;
        var queue := queues[id];
        if |queue| < CAPACITY {
          queues := queues[id := queue + [payload]];
        } else {
          queue := queue[1..];
          queues := queues[id := queue + [Changed]];
        }
        todo := todo - {id};
      }
    }

    method Read(id: nat) returns (payload: Option<Payload>)
      requires Valid() && id in queues
      modifies this`queues
      ensures Valid()
      ensures payload == if old(queues)[id] == [] then None else Some(old(queues)[id][0])
      ensures queues == if old(queues)[id] == [] then old(queues) else old(queues)[id := old(queues)[id][1..]]
    {
      if queues[id] == [] {
        return None;
      }
      payload := Some(queues[id][0]);
      queues := queues[id := queues[id][1..]];
    }
  }

  // ---------- one subscriber over time ----------

  /** A queued payload with the number of the broadcast that put it there. */
  datatype Item = Original(at: nat, payload: Payload) | Marker(at: nat)

  function Plain(item: Item): Payload {
    match item case Original(_, payload) => payload case Marker(_) => Changed
  }

  function Plains(items: seq<Item>): seq<Payload> {
    seq(|items|, i requires 0 <= i < |items| => Plain(items[i]))
  }

  datatype Event = Broadcast(payload: Payload) | Read

  /** `lastLoss` is the number of the latest broadcast at which something was lost. */
  datatype Stream = Stream(queue: seq<Item>, delivered: seq<Item>, sent: seq<Payload>, lastLoss: Option<nat>)

  function Step(s: Stream, ev: Event): Stream {
    match ev
    case Broadcast(payload) =>
      (var at := |s.sent|;
       var s' := s.(sent := s.sent + [payload]);
       if |s.queue| < CAPACITY then s'.(queue := s.queue + [Original(at, payload)])
       else s'.(queue := s.queue[1..] + [Marker(at)], lastLoss := Some(at)))
    case Read =>
      if s.queue == [] then s else s.(queue := s.queue[1..], delivered := s.delivered + [s.queue[0]])
  }

  function Run(events: seq<Event>): Stream {
    if events == [] then Stream([], [], [], None) else Step(Run(events[..|events| - 1]), events[|events| - 1])
  }

  /** The stream's queue is the hub's queue with the numbers forgotten. */
  lemma PutIsStep(s: Stream, payload: Payload)
    ensures Plains(Step(s, Broadcast(payload)).queue) == Put(Plains(s.queue), payload)
  {
  }

  function All(s: Stream): seq<Item> {
    s.delivered + s.queue
  }

  predicate IsFaithful(item: Item, sent: seq<Payload>) {
    item.at < |sent| && (item.Original? ==> item.payload == sent[item.at])
  }

  /** Numbered in order, each as it was sent. */
  ghost predicate IsTranscript(items: seq<Item>, sent: seq<Payload>) {
    && (forall i :: 0 <= i < |items| ==> IsFaithful(items[i], sent))
    && (forall i, j :: 0 <= i < j < |items| ==> items[i].at < items[j].at)
  }

  /** Nothing was lost after `lastLoss`, whose marker is there; without a loss there is no marker. */
  ghost predicate IsCurrent(items: seq<Item>, sent: seq<Payload>, lastLoss: Option<nat>) {
    && (lastLoss.Some? ==> lastLoss.value < |sent| && Marker(lastLoss.value) in items)
    && (lastLoss.None? ==> forall i :: 0 <= i < |items| ==> items[i].Original?)
    && (forall n :: 0 <= n < |sent| && (lastLoss.None? || lastLoss.value < n) ==> Original(n, sent[n]) in items)
  }

  ghost predicate Sound(s: Stream) {
    |s.queue| <= CAPACITY && IsTranscript(All(s), s.sent) && IsCurrent(All(s), s.sent, s.lastLoss)
  }

  lemma ReadKeeps(s: Stream)
    requires Sound(s)
    ensures Sound(Step(s, Read)) && All(Step(s, Read)) == All(s)
  {
    if s.queue != [] {
      assert s.queue == [s.queue[0]] + s.queue[1..];
      assert All(Step(s, Read)) == All(s);
    }
  }

  lemma PostedTranscript(items: seq<Item>, sent: seq<Payload>, item: Item, payload: Payload)
    requires IsTranscript(items, sent) && item.at == |sent| && (item.Original? ==> item.payload == payload)
    ensures IsTranscript(items + [item], sent + [payload])
  {
    var all, sent' := items + [item], sent + [payload];
    forall i | 0 <= i < |all| ensures IsFaithful(all[i], sent') {
      if i < |items| { assert IsFaithful(items[i], sent); }
    }
    forall i, j | 0 <= i < j < |all| ensures all[i].at < all[j].at {
      assert IsFaithful(items[i], sent);
    }
  }

  lemma DroppedTranscript(items: seq<Item>, sent: seq<Payload>, d: nat)
    requires IsTranscript(items, sent) && d < |items|
    ensures IsTranscript(items[..d] + items[d + 1..], sent)
  {
    var left := items[..d] + items[d + 1..];
    forall i | 0 <= i < |left| ensures left[i] == items[if i < d then i else i + 1] {
    }
  }

  lemma PostedCurrent(items: seq<Item>, sent: seq<Payload>, lastLoss: Option<nat>, payload: Payload)
    requires IsCurrent(items, sent, lastLoss)
    ensures IsCurrent(items + [Original(|sent|, payload)], sent + [payload], lastLoss)
  {
    var all, sent' := items + [Original(|sent|, payload)], sent + [payload];
    assert all[|items|] == Original(|sent|, payload);
    forall n | 0 <= n < |sent'| && (lastLoss.None? || lastLoss.value < n) ensures Original(n, sent'[n]) in all {
      if n < |sent| { assert Original(n, sent[n]) in items; }
    }
  }

  lemma RoomKeeps(s: Stream, payload: Payload)
    requires Sound(s) && |s.queue| < CAPACITY
    ensures Sound(Step(s, Broadcast(payload)))
  {
    var item := Original(|s.sent|, payload);
    PostedTranscript(All(s), s.sent, item, payload);
    PostedCurrent(All(s), s.sent, s.lastLoss, payload);
    assert All(Step(s, Broadcast(payload))) == All(s) + [item];
  }

  lemma FullKeeps(s: Stream, payload: Payload)
    requires Sound(s) && |s.queue| == CAPACITY
    ensures Sound(Step(s, Broadcast(payload)))
  {
    var d, marker := |s.delivered|, Marker(|s.sent|);
    var left := All(s)[..d] + All(s)[d + 1..];
    DroppedTranscript(All(s), s.sent, d);
    PostedTranscript(left, s.sent, marker, payload);
    assert All(Step(s, Broadcast(payload))) == left + [marker];
    assert (left + [marker])[|left|] == marker;
  }

  lemma {:induction false} RunKeeps(events: seq<Event>)
    ensures Sound(Run(events))
  {
    if events != [] {
      var s, ev := Run(events[..|events| - 1]), events[|events| - 1];
      RunKeeps(events[..|events| - 1]);
      if ev.Read? {
        ReadKeeps(s);
      } else if |s.queue| < CAPACITY {
        RoomKeeps(s, ev.payload);
      } else {
        FullKeeps(s, ev.payload);
      }
    }
  }

  /** For every run of broadcasts and reads: what arrives is in order and unaltered; and either nothing was
      lost, so that delivered and queued payloads are all that was sent, or the marker posted at the latest loss
      is delivered or still queued, and everything sent after it is there. */
  lemma NothingLostUnmarked(events: seq<Event>)
    ensures var s := Run(events);
            && |s.queue| <= CAPACITY
            && (forall i, j :: 0 <= i < j < |All(s)| ==> All(s)[i].at < All(s)[j].at)
            && (forall i :: 0 <= i < |All(s)| ==> IsFaithful(All(s)[i], s.sent))
            && (s.lastLoss.None? ==> Plains(All(s)) == s.sent)
            && (s.lastLoss.Some? ==> Marker(s.lastLoss.value) in All(s))
            && (s.lastLoss.Some? ==> forall n :: s.lastLoss.value < n < |s.sent| ==> Original(n, s.sent[n]) in All(s))
  {
    RunKeeps(events);
    var s := Run(events);
    if s.lastLoss == None {
      AllArrived(All(s), s.sent);
    }
  }

  /** Item k carries number k, once all numbers below n are there. */
  ghost predicate Counted(items: seq<Item>, n: nat) {
    && (forall i, j :: 0 <= i < j < |items| ==> items[i].at < items[j].at)
    && (forall i :: 0 <= i < |items| ==> items[i].at < n)
    && (forall k: nat :: k < n ==> HasNumber(items, k))
  }

  ghost predicate HasNumber(items: seq<Item>, k: nat) {
    exists i :: 0 <= i < |items| && items[i].at == k
  }

  lemma {:induction false} CountedIs(items: seq<Item>, n: nat)
    requires Counted(items, n)
    ensures |items| == n && forall i :: 0 <= i < n ==> items[i].at == i
    decreases n
  {
    assert |items| > 0 ==> items[0].at < n;
    if n > 0 {
      assert HasNumber(items, n - 1);
      assert items[|items| - 1].at < n;
      var before := items[..|items| - 1];
      forall k: nat | k < n - 1 ensures HasNumber(before, k) {
        assert HasNumber(items, k);
        var i :| 0 <= i < |items| && items[i].at == k;
        assert before[i].at == k;
      }
      CountedIs(before, n - 1);
    }
  }

  /** Numbered, in order, complete: then the k-th item is the k-th payload. */
  lemma AllArrived(items: seq<Item>, sent: seq<Payload>)
    requires forall i, j :: 0 <= i < j < |items| ==> items[i].at < items[j].at
    requires forall i :: 0 <= i < |items| ==> items[i].Original? && IsFaithful(items[i], sent)
    requires forall k :: 0 <= k < |sent| ==> Original(k, sent[k]) in items
    ensures Plains(items) == sent
  {
    forall k: nat | k < |sent| ensures HasNumber(items, k) {
      var i :| 0 <= i < |items| && items[i] == Original(k, sent[k]);
    }
    CountedIs(items, |sent|);
  }

  /** At no moment is the subscriber more than 256 payloads behind. */
  ghost predicate KeepsUp(events: seq<Event>) {
    forall k :: 0 <= k <= |events| ==> |Run(events[..k]).sent| - |Run(events[..k]).delivered| <= 256
  }

  /** A subscriber that keeps up loses nothing: it gets every payload, in order. */
  lemma {:induction false} KeepingUpLosesNothing(events: seq<Event>)
    requires KeepsUp(events)
    ensures var s := Run(events);
            s.lastLoss.None? && Plains(All(s)) == s.sent && |s.sent| == |s.delivered| + |s.queue|
  {
    NoLoss(events);
    NothingLostUnmarked(events);
  }

  lemma {:induction false} NoLoss(events: seq<Event>)
    requires KeepsUp(events)
    ensures var s := Run(events); s.lastLoss.None? && |s.sent| == |s.delivered| + |s.queue|
  {
    if events != [] {
      var before := events[..|events| - 1];
      forall k | 0 <= k <= |before|
        ensures |Run(before[..k]).sent| - |Run(before[..k]).delivered| <= 256
      {
        assert before[..k] == events[..k];
      }
      assert events[..|events|] == events;
      NoLoss(before);
    }
  }
}
