/**
 * Whole runs of the objects: a queue built over a fresh key provider, payloads
 * reported to it, and key updates whose notification resumes the channel.
 * Each run is proved to end in the buffers and callbacks stated.
 */
module Scenarios {
  import opened Wrappers
  import opened EventFactory
  import opened KeyHistory
  import opened FlushSpec
  import opened EventPipeline

  /**
   * A payload reported before its channel has a key pauses the buffer and
   * signals once; the key then arriving delivers it and leaves the buffer
   * empty and running.
   */
  method KeyArrivesAfterPayload(f: Primitives, p: Payload, c: string, key: string) returns (queue: EventQueue)
    requires MakeEvent(f, p, None) == Err(InvalidDecryptionKey)
    requires MakeEvent(f, p, Some(key)).Ok?
    ensures queue.Buffers() == map[c := Buffer([], false)]
    ensures queue.log == [DecryptFailed(c), Delivered(MakeEvent(f, p, Some(key)).value, Some(c))]
  {
    var keys;
    queue, keys := PausedOnFirstPayload(f, p, c);
    ResumeWith(f, p, c, key);
    keys.SetDecryptionKey(key, c);
  }

  /**
   * A key that still does not open the payload drops it on the resumed flush,
   * without a second signal: the buffer ends empty and running.
   */
  method WrongKeyDropsPayload(f: Primitives, p: Payload, c: string, key: string) returns (queue: EventQueue)
    requires MakeEvent(f, p, None) == Err(InvalidDecryptionKey)
    requires MakeEvent(f, p, Some(key)) == Err(InvalidDecryptionKey)
    ensures queue.Buffers() == map[c := Buffer([], false)]
    ensures queue.log == [DecryptFailed(c)]
  {
    var keys;
    queue, keys := PausedOnFirstPayload(f, p, c);
    ResumeWith(f, p, c, key);
    keys.SetDecryptionKey(key, c);
  }

  /**
   * A payload whose error changes from a key error to a format error once a
   * key is set (an envelope that does not decode, say) pauses the buffer
   * before the key arrives and keeps it paused after: the resumed flush
   * neither removes it nor clears the flag, so the next payload of the
   * channel is held behind it without being parsed.
   */
  method FormatFailureHoldsChannel(f: Primitives, p: Payload, next: Payload, c: string, key: string)
    returns (queue: EventQueue)
    requires MakeEvent(f, p, None) == Err(InvalidDecryptionKey)
    requires MakeEvent(f, p, Some(key)) == Err(InvalidFormat)
    ensures queue.Buffers() == map[c := Buffer([p, next], true)]
    ensures queue.log == [DecryptFailed(c)]
  {
    var keys;
    queue, keys := PausedOnFirstPayload(f, p, c);
    ResumeWith(f, p, c, key);
    keys.SetDecryptionKey(key, c);
    HeldBehindPausedHead(f, p, next, c, key);
    queue.Report(next, Some(c));
  }

  /**
   * A queue over a fresh key provider, after one report of a payload that
   * needs a key: the buffer is paused and one signal has gone out.
   */
  method PausedOnFirstPayload(f: Primitives, p: Payload, c: string) returns (queue: EventQueue, keys: KeyProvider)
    requires MakeEvent(f, p, None) == Err(InvalidDecryptionKey)
    ensures fresh(queue) && fresh(keys) && forall o :: o in queue.queues.Values ==> fresh(o)
    ensures queue.Valid() && queue.factory == f && queue.keyProvider == keys
    ensures keys.Valid() && keys.History == [] && keys.delegate == queue
    ensures queue.Buffers() == map[c := Buffer([p], true)]
    ensures queue.log == [DecryptFailed(c)]
  {
    keys := new KeyProvider();
    queue := new EventQueue(f, keys);
    ReportWithoutKey(f, p, c);
    queue.Report(p, Some(c));
  }

  /** The first report of a payload that needs a key, before any key is set: pause and one signal. */
  lemma ReportWithoutKey(f: Primitives, p: Payload, c: string)
    requires MakeEvent(f, p, None) == Err(InvalidDecryptionKey)
    ensures FlushChannel(ParseWith(f, Latest([], c)), Enqueued(map[], c, p), c, false)
         == (map[c := Buffer([p], true)], [DecryptFailed(c)])
  {
    var parse := ParseWith(f, None);
    assert parse(p) == Err(InvalidDecryptionKey);
    FirstKeyErrorPauses(parse, c, p, [], false);
    assert [p] + [] == [p];
    var buffers := Enqueued(map[], c, p);
    assert buffers == map[c := Buffer([p], false)];
    assert FlushBuffer(parse, c, buffers[c], false) == (Buffer([p], true), [DecryptFailed(c)]);
    assert buffers[c := Buffer([p], true)] == map[c := Buffer([p], true)];
  }

  /**
   * The resumed flush of the paused one-payload buffer of `c` once `key` is
   * set: delivery, a silent drop, or no change, as the payload now parses.
   */
  lemma ResumeWith(f: Primitives, p: Payload, c: string, key: string)
    ensures var parse := ParseWith(f, Some(key));
      var (buffers, out) := FlushChannel(parse, map[c := Buffer([p], true)], c, true);
      match MakeEvent(f, p, Some(key))
      case Ok(event) => buffers == map[c := Buffer([], false)] && out == [Delivered(event, Some(c))]
      case Err(InvalidDecryptionKey) => buffers == map[c := Buffer([], false)] && out == []
      case Err(InvalidFormat) => buffers == map[c := Buffer([p], true)] && out == []
  {
    var parse := ParseWith(f, Some(key));
    var buffers := map[c := Buffer([p], true)];
    assert parse(p) == MakeEvent(f, p, Some(key));
    match MakeEvent(f, p, Some(key))
    case Ok(event) =>
      ResumeDelivers(parse, c, p);
      assert buffers[c := Buffer([], false)] == map[c := Buffer([], false)];
    case Err(InvalidDecryptionKey) =>
      RetryThenDrop(parse, c, p, []);
      assert [p] + [] == [p];
      assert FlushBuffer(parse, c, Buffer([], false), false) == (Buffer([], false), []);
      assert buffers[c := Buffer([], false)] == map[c := Buffer([], false)];
    case Err(InvalidFormat) =>
      ResumeKeepsFormatFailurePaused(parse, c, p);
      assert buffers[c := Buffer([p], true)] == buffers;
  }

  /** A payload reported to a paused channel is appended and waits, unparsed and without a callback. */
  lemma HeldBehindPausedHead(f: Primitives, p: Payload, next: Payload, c: string, key: string)
    ensures FlushChannel(ParseWith(f, Latest([SetKey(c, key)], c)), Enqueued(map[c := Buffer([p], true)], c, next), c, false)
         == (map[c := Buffer([p, next], true)], [])
  {
    var buffers := Enqueued(map[c := Buffer([p], true)], c, next);
    assert [p] + [next] == [p, next];
    assert buffers == map[c := Buffer([p, next], true)];
    FlushChannelHeld(ParseWith(f, Some(key)), buffers, c, false);
  }
}
