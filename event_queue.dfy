/**
 * The channel event queue and the key provider as the objects they are:
 * a dictionary of per-channel buffers updated in place, and a dictionary of
 * keys whose every update tells the queue to retry. Each method is proved
 * to leave exactly the state that the functions of `FlushSpec` and
 * `KeyHistory` describe. The delegate of the queue is its callback `log`.
 *
 * The two classes refer to each other (the queue reads keys from the
 * provider, the provider notifies the queue), so they share this module.
 */
module EventPipeline {
  import opened Wrappers
  import opened EventFactory
  import opened KeyHistory
  import opened FlushSpec

  /** The buffer of one channel: pending payloads in arrival order and whether it waits for a new key. */
  class ChannelQueue {
    var queue: seq<Payload>
    var paused: bool

    constructor ()
      ensures queue == [] && !paused
    {
      queue := [];
      paused := false;
    }

    /**
     * The last loop of `flush(channelName:resume:)`: `remove(at:)` for each
     * marked index, from the highest down, so that lower indices stay valid.
     */
    method RemoveIndexes(removedIndexes: seq<nat>)
      requires IncreasingWithin(removedIndexes, 0, |queue|)
      modifies this`queue
      ensures queue == Keep(old(queue), removedIndexes, 0)
    {
      ghost var q := queue;
      var j := |removedIndexes|;
      while j > 0
        invariant 0 <= j <= |removedIndexes|
        invariant var top := if j < |removedIndexes| then removedIndexes[j] else |q|;
          top <= |q| && queue == q[..top] + Keep(q[top..], removedIndexes, top)
      {
        ghost var top := if j < |removedIndexes| then removedIndexes[j] else |q|;
        j := j - 1;
        KeepRemoveAt(q, removedIndexes, removedIndexes[j], top);
        queue := queue[..removedIndexes[j]] + queue[removedIndexes[j] + 1..];
      }
      ghost var lowest := if 0 < |removedIndexes| then removedIndexes[0] else |q|;
      KeepGap(q, removedIndexes, 0, lowest);
      assert q[0..] == q;
    }
  }

  /** Buffers events per channel and hands them to the delegate once they can be decrypted. */
  class EventQueue {
    const factory: Primitives
    const keyProvider: KeyProvider
    var queues: map<string, ChannelQueue>
    /** Every call made on the delegate, oldest first. */
    var log: seq<Callback>

    /** No two channels share a buffer object. */
    ghost predicate Valid()
      reads this
    {
      forall c, d :: c in queues && d in queues && c != d ==> queues[c] != queues[d]
    }

    /** The value of every channel's buffer. */
    ghost function Buffers(): map<string, Buffer>
      reads this, queues.Values
    {
      map c | c in queues :: Buffer(queues[c].queue, queues[c].paused)
    }

    /** A queue without buffers that registers itself as the key provider's delegate. */
    constructor (factory: Primitives, keyProvider: KeyProvider)
      modifies keyProvider
      ensures Valid() && queues == map[] && Buffers() == map[] && log == []
      ensures this.factory == factory && this.keyProvider == keyProvider
      ensures keyProvider.delegate == this
      ensures keyProvider.decryptionKeys == old(keyProvider.decryptionKeys)
      ensures keyProvider.History == old(keyProvider.History)
    {
      this.queues := map[];
      this.factory := factory;
      this.keyProvider := keyProvider;
      this.log := [];
      new;
      keyProvider.delegate := this;
    }

    /** `removeQueue(forChannelName:)`: forget the buffer of `c`, if there is one. */
    method RemoveQueue(c: string)
      requires Valid()
      modifies this`queues
      ensures Valid()
      ensures Buffers() == old(Buffers()) - {c}
      ensures log == old(log)
      ensures queues.Values <= old(queues.Values)
    {
      queues := queues - {c};
    }

    /**
     * `report(json:forChannelName:)`: a payload for a channel is buffered and
     * that channel flushed; a payload without one is parsed without a key and
     * delivered at once, any error being swallowed.
     */
    method Report(payload: Payload, channelName: Option<string>)
      requires Valid() && keyProvider.Valid()
      modifies this, queues.Values
      ensures Valid()
      ensures channelName.Some? ==>
        var c := channelName.value;
        var (buffers, out) := FlushChannel(ParseWith(factory, Latest(keyProvider.History, c)),
                                           Enqueued(old(Buffers()), c, payload), c, false);
        Buffers() == buffers && log == old(log) + out
      ensures channelName.None? ==>
        Buffers() == old(Buffers()) && log == old(log) + DeliverUnbuffered(factory, payload)
      ensures forall o :: o in queues.Values ==> o in old(queues.Values) || fresh(o)
    {
      if channelName.Some? {
        Enqueue(payload, channelName.value);
        Flush(channelName.value, false);
      } else {
        var _ := FlushPayload(payload, None, None);
      }
    }

    /** `enqueue(json:forChannelName:)`: append to the buffer of `c`, creating it if needed. */
    method Enqueue(payload: Payload, c: string)
      requires Valid()
      modifies this`queues, queues.Values
      ensures Valid()
      ensures Buffers() == Enqueued(old(Buffers()), c, payload)
      ensures log == old(log)
      ensures forall o :: o in queues.Values ==> o in old(queues.Values) || fresh(o)
    {
      var channelQueue: ChannelQueue;
      if c in queues {
        channelQueue := queues[c];
      } else {
        channelQueue := new ChannelQueue();
      }
      ghost var before := old(Buffers());
      ghost var b := if c in before then before[c] else Buffer([], false);
      assert channelQueue.queue == b.pending && channelQueue.paused == b.paused;
      channelQueue.queue := channelQueue.queue + [payload];
      queues := queues[c := channelQueue];
      ghost var after := Buffers();
      ghost var target := before[c := Buffer(b.pending + [payload], b.paused)];
      assert after.Keys == target.Keys;
      forall d | d in after
        ensures after[d] == target[d]
      {
        if d != c {
          assert queues[d] != channelQueue;
        }
      }
    }

    /**
     * `flush(channelName:resume:)`: walk the buffer of `c` with the key read
     * once at the start, then remove the marked payloads from the highest
     * index down. A paused buffer is left alone unless this is a resuming flush.
     */
    method Flush(c: string, resume: bool)
      requires Valid() && keyProvider.Valid()
      modifies this, queues.Values
      ensures Valid()
      ensures var (buffers, out) := FlushChannel(ParseWith(factory, Latest(keyProvider.History, c)),
                                                 old(Buffers()), c, resume);
        Buffers() == buffers && log == old(log) + out
      ensures queues == old(queues)
    {
      if c !in queues {
        return;
      }
      var channelQueue := queues[c];
      if channelQueue.paused && !resume {
        FlushChannelHeld(ParseWith(factory, Latest(keyProvider.History, c)), Buffers(), c, resume);
        return;
      }
      var decryptionKey := keyProvider.DecryptionKey(c);
      ghost var before := old(Buffers());
      ghost var pending := channelQueue.queue;
      assert before[c] == Buffer(pending, channelQueue.paused);
      ghost var r := Pass(ParseWith(factory, decryptionKey), c, pending, 0, channelQueue.paused);
      FlushChannelTakesPass(ParseWith(factory, decryptionKey), before, c, resume, r);
      FlushQueue(channelQueue, c, decryptionKey);
      // Storing `channelQueue` back under `c` puts the same reference where it
      // already is, so the map does not change.
    }

    /**
     * The body of `flush(channelName:resume:)` once the key is read: walk the
     * buffer of `c`, then remove the marked payloads from the highest index
     * down. No other channel's buffer changes.
     */
    method FlushQueue(channelQueue: ChannelQueue, c: string, decryptionKey: Option<string>)
      requires Valid() && c in queues && queues[c] == channelQueue
      modifies channelQueue, this`log
      ensures var r := Pass(ParseWith(factory, decryptionKey), c, old(channelQueue.queue), 0, old(channelQueue.paused));
        && Buffers() == old(Buffers())[c := Buffer(Keep(old(channelQueue.queue), r.removed, 0), r.paused)]
        && log == old(log) + r.emitted
    {
      PassMarksIncreasing(ParseWith(factory, decryptionKey), c, channelQueue.queue, 0, channelQueue.paused);
      var removedIndexes := Walk(channelQueue, c, decryptionKey);
      channelQueue.RemoveIndexes(removedIndexes);
      ghost var after := Buffers();
      ghost var target := old(Buffers())[c := Buffer(channelQueue.queue, channelQueue.paused)];
      assert after.Keys == target.Keys;
      forall d | d in after
        ensures after[d] == target[d]
      {
        if d != c {
          assert queues[d] != channelQueue;
        }
      }
    }

    /**
     * The `for` loop of `flush(channelName:resume:)` over the buffer of `c`:
     * deliver what parses, pause and signal at the first key error while
     * running, skip a key error while paused, and mark the delivered and
     * skipped indices. The buffer's payloads are left in place.
     */
    method Walk(channelQueue: ChannelQueue, c: string, decryptionKey: Option<string>)
      returns (removedIndexes: seq<nat>)
      modifies channelQueue`paused, this`log
      ensures var r := Pass(ParseWith(factory, decryptionKey), c, channelQueue.queue, 0, old(channelQueue.paused));
        && removedIndexes == r.removed
        && channelQueue.paused == r.paused
        && log == old(log) + r.emitted
    {
      ghost var parse := ParseWith(factory, decryptionKey);
      ghost var q := channelQueue.queue;
      ghost var total := Pass(parse, c, q, 0, channelQueue.paused);
      removedIndexes := [];
      ghost var sent: seq<Callback> := [];
      ghost var rest := total;
      var index := 0;
      while index < |channelQueue.queue|
        invariant 0 <= index <= |q| && channelQueue.queue == q
        invariant rest == Pass(parse, c, q[index..], index, channelQueue.paused)
        invariant Walked(total, removedIndexes, sent, rest)
        invariant log == old(log) + sent
        decreases |q| - index
      {
        ghost var wasPaused := channelQueue.paused;
        ghost var outcome := MakeEvent(factory, q[index], decryptionKey);
        ghost var delivered := if outcome.Ok? then [Delivered(outcome.value, Some(c))] else [];
        var marked, stop := Visit(channelQueue, c, decryptionKey, index);
        if stop {
          WalkStops(factory, decryptionKey, c, q, index, wasPaused, total, removedIndexes, sent, rest);
          AppendAssoc(old(log), sent, [DecryptFailed(c)]);
          break;
        }
        WalkAdvances(factory, decryptionKey, c, q, index, wasPaused, total, removedIndexes, sent, rest, marked);
        if marked {
          removedIndexes := removedIndexes + [index];
        }
        AppendAssoc(old(log), sent, delivered);
        sent := sent + delivered;
        rest := Pass(parse, c, q[index + 1..], index + 1, channelQueue.paused);
        index := index + 1;
      }
      if index == |q| {
        WalkEnds(parse, c, q, channelQueue.paused, total, removedIndexes, sent, rest);
      }
    }

    /**
     * The body of that loop for the payload at `index`: whether it is marked
     * for removal, and whether the walk stops there.
     */
    method Visit(channelQueue: ChannelQueue, c: string, decryptionKey: Option<string>, index: nat)
      returns (marked: bool, stop: bool)
      requires index < |channelQueue.queue|
      modifies channelQueue`paused, this`log
      ensures var outcome := MakeEvent(factory, channelQueue.queue[index], decryptionKey);
        && marked == (outcome.Ok? || (outcome == Err(InvalidDecryptionKey) && old(channelQueue.paused)))
        && stop == (outcome == Err(InvalidDecryptionKey) && !old(channelQueue.paused))
        && channelQueue.paused == (if outcome == Err(InvalidFormat) then old(channelQueue.paused) else stop)
        && log == old(log) + (if outcome.Ok? then [Delivered(outcome.value, Some(c))]
                              else if stop then [DecryptFailed(c)] else [])
    {
      marked, stop := false, false;
      var failure := FlushPayload(channelQueue.queue[index], Some(c), decryptionKey);
      match failure {
      case None =>
        marked := true;
        channelQueue.paused := false;
      case Some(InvalidDecryptionKey) =>
        if !channelQueue.paused {
          // The first failure: pause and ask for a new key.
          channelQueue.paused := true;
          log := log + [DecryptFailed(c)];
          stop := true;
        } else {
          // A failure while resuming: skip the payload and run again.
          marked := true;
          channelQueue.paused := false;
        }
      case Some(InvalidFormat) =>
      }
    }

    /**
     * `flush(json:forChannelName:withDecryptionKey:)`: parse one payload and,
     * on success, deliver it to the delegate; the error otherwise.
     */
    method FlushPayload(payload: Payload, channelName: Option<string>, decryptionKey: Option<string>)
      returns (failure: Option<EventError>)
      modifies this`log
      ensures match MakeEvent(factory, payload, decryptionKey)
        case Ok(event) => failure == None && log == old(log) + [Delivered(event, channelName)]
        case Err(error) => failure == Some(error) && log == old(log)
    {
      var result := MakeEvent(factory, payload, decryptionKey);
      match result
      case Ok(event) =>
        log := log + [Delivered(event, channelName)];
        failure := None;
      case Err(error) =>
        failure := Some(error);
    }

    /** `keyProvider(_:didUpdateDecryptionKeyForChannelName:)`: retry the channel with a resuming flush. */
    method DidUpdateDecryptionKey(c: string)
      requires Valid() && keyProvider.Valid()
      modifies this, queues.Values
      ensures Valid()
      ensures var (buffers, out) := FlushChannel(ParseWith(factory, Latest(keyProvider.History, c)),
                                                 old(Buffers()), c, true);
        Buffers() == buffers && log == old(log) + out
      ensures queues == old(queues)
    {
      Flush(c, true);
    }
  }

  /** The decryption keys of the encrypted channels, by channel name. */
  class KeyProvider {
    var decryptionKeys: map<string, string>
    var delegate: EventQueue?
    /** Every update ever made to the keys, oldest first. */
    ghost var History: seq<KeyUpdate>

    /** The dictionary is what its history of updates left behind. */
    ghost predicate Valid()
      reads this
    {
      decryptionKeys == Replay(History)
    }

    /** The objects a notification to the delegate may change. */
    ghost function DelegateFrame(): set<object>
      reads this, delegate
    {
      if delegate == null then {} else {delegate} + delegate.queues.Values
    }

    constructor ()
      ensures Valid() && History == [] && delegate == null
    {
      decryptionKeys := map[];
      delegate := null;
      History := [];
    }

    /** `decryptionKey(forChannelName:)`: the key most recently set for `c`, unless cleared since. */
    method DecryptionKey(c: string) returns (key: Option<string>)
      requires Valid()
      ensures key == Latest(History, c)
    {
      ReplayAgreesWithLatest(History, c);
      key := if c in decryptionKeys then Some(decryptionKeys[c]) else None;
    }

    /**
     * `setDecryptionKey(_:forChannelName:)`: store the key, then notify the
     * delegate once, which retries the channel with the new key.
     */
    method SetDecryptionKey(key: string, c: string)
      requires Valid()
      requires delegate != null ==> delegate.Valid() && delegate.keyProvider == this
      modifies this, DelegateFrame()
      ensures Valid()
      ensures History == old(History) + [SetKey(c, key)]
      ensures Latest(History, c) == Some(key)
      ensures forall d :: d != c ==> Latest(History, d) == Latest(old(History), d)
      ensures delegate == old(delegate)
      ensures delegate != null ==>
        && delegate.Valid()
        && var (buffers, out) := FlushChannel(ParseWith(delegate.factory, Some(key)), old(delegate.Buffers()), c, true);
           delegate.Buffers() == buffers && delegate.log == old(delegate.log) + out
      ensures delegate != null ==> delegate.queues == old(delegate.queues)
    {
      ReplayAppend(History, SetKey(c, key));
      decryptionKeys := decryptionKeys[c := key];
      History := History + [SetKey(c, key)];
      forall d ensures Latest(History, c) == Some(key) && (d != c ==> Latest(History, d) == Latest(old(History), d)) {
        SetKeyIsolated(old(History), c, key, d);
      }
      if delegate != null {
        delegate.DidUpdateDecryptionKey(c);
      }
    }

    /**
     * `clearDecryptionKey(forChannelName:)`: drop the key, present or not,
     * then notify the delegate once, which retries the channel without a key.
     */
    method ClearDecryptionKey(c: string)
      requires Valid()
      requires delegate != null ==> delegate.Valid() && delegate.keyProvider == this
      modifies this, DelegateFrame()
      ensures Valid()
      ensures History == old(History) + [ClearKey(c)]
      ensures Latest(History, c) == None
      ensures forall d :: d != c ==> Latest(History, d) == Latest(old(History), d)
      ensures delegate == old(delegate)
      ensures delegate != null ==>
        && delegate.Valid()
        && var (buffers, out) := FlushChannel(ParseWith(delegate.factory, None), old(delegate.Buffers()), c, true);
           delegate.Buffers() == buffers && delegate.log == old(delegate.log) + out
      ensures delegate != null ==> delegate.queues == old(delegate.queues)
    {
      ReplayAppend(History, ClearKey(c));
      decryptionKeys := decryptionKeys - {c};
      History := History + [ClearKey(c)];
      forall d ensures Latest(History, c) == None && (d != c ==> Latest(History, d) == Latest(old(History), d)) {
        ClearKeyIsolated(old(History), c, d);
      }
      if delegate != null {
        delegate.DidUpdateDecryptionKey(c);
      }
    }
  }
}
