# Pusher channel event queue: a Dafny model

This project models how the Pusher Swift client buffers the events of each
channel and retries decryption. It covers three parts.

- **The event queue** (`PusherConcreteEventQueue`) keeps one buffer of
  pending payloads per channel. Each buffer is a `ChannelQueue` object: the
  payloads in arrival order plus a `paused` flag. Reporting a payload for a
  channel appends it to that channel's buffer and flushes the buffer.
- **A flush** reads the channel's key once. It then walks the buffer in
  order:
  - a payload that parses is delivered;
  - the first key failure while running pauses the buffer, signals the
    delegate once and ends the walk;
  - a key failure while paused skips that payload and unpauses;
  - a format failure is swallowed.
  The delivered and skipped payloads are then removed, from the highest index
  down.
- **The event factory** (`makeEvent`) turns a payload into an event. It
  decrypts the data of non-system events on `private-encrypted-` channels and
  sorts every failure into `invalidFormat` or `invalidDecryptionKey`.
- **The key provider** holds one key per channel. Every `set` or `clear`
  notifies the queue, which then runs a resuming flush of that channel.

## How the model is organised

- **`Wrappers`**: `Option` and `Result` (the outcome of a throwing call).
- **`EventFactory`**: `makeEvent` and its helpers as pure functions.
  - Payload values are a small `Value` datatype.
  - The foreign primitives are arrow-typed fields of a `Primitives` value: the
    envelope decoder, Base64, the secret-box open and UTF-8 decoding. Each
    returns an `Option`.
- **`KeyHistory`**: what the key store promises, stated over its history of
  `set` and `clear` calls.
- **`FlushSpec`**: one flush as functions on values.
  - `Pass` is the walk over a buffer.
  - `Keep` is the buffer after the marked indices are removed.
  - `Survivors` is an index-free description of the same buffer.
  - `FlushBuffer` and `FlushChannel` give the whole effect of a flush.
  - Lemmas state the properties of a flush, and scenario lemmas spell out the
    retry policy.
- **`EventPipeline`**: the objects themselves. They are the classes
  `ChannelQueue`, `EventQueue` and `KeyProvider`, whose methods update fields
  in place.
  - Each method is proved to leave exactly the state that the `FlushSpec` and
    `KeyHistory` functions describe.
  - The queue's delegate calls are a field `log`, a sequence of
    `Delivered(event, channel)` and `DecryptFailed(channel)` entries.
  - `KeyProvider.History` is a ghost record of the updates. Its invariant is
    that the dictionary is the replay of that history.

Three behaviours of the code that a quick reading misses:

- A payload that fails with `invalidFormat` falls into the bare `catch {}` at
  `Sources/PusherEventQueue.swift:95`. It is neither delivered nor removed, so
  it stays in the buffer (`FormatFailureStays`).
- A skip during a resumed flush clears `paused` (line 93). A later key failure
  in the same flush therefore takes the first-failure branch (lines 83-87). It
  pauses again, signals again and ends the walk, instead of being skipped as
  well (`SecondKeyErrorRepauses`).
- On an encrypted channel, a payload whose envelope does not decode fails on
  its key while no key is set, but on its format once any key is set
  (`MalformedEnvelopeErrorDependsOnKey`).
  - Reported before the key arrives, such a payload pauses the buffer.
  - The resuming flush after `setDecryptionKey` then meets a format failure.
    That failure neither removes the payload nor clears `paused`, so the
    buffer stays paused.
  - Every later payload of that channel waits, unparsed, until the next key
    update (`FormatFailureHoldsChannel`).

## Model

| member | source | states |
|---|---|---|
| EventFactory.MakeEvent | Sources/PusherEventFactory.swift:20-30 | A payload without a string `event` field fails with `invalidFormat`. A success carries that event name, the string `channel` and `user_id` fields (none when absent or not strings) and the unchanged payload. |
| EventFactory.IsEncryptedChannel | Sources/PusherEventFactory.swift:45-47 | A channel counts as encrypted only when its name is present and begins with `private-encrypted-`. |
| EventFactory.IsSystemEvent | Sources/PusherEventFactory.swift:49-51 | An event counts as a system event only when its name begins with `pusher:` or `pusher_internal:`. |
| EventFactory.EncryptedChannelByPrefix | Sources/PusherEventFactory.swift:45-47 | Every name with the `private-encrypted-` prefix is encrypted, and an absent name is not (the converse of `IsEncryptedChannel`'s contract). |
| EventFactory.SystemEventByPrefix | Sources/PusherEventFactory.swift:49-51 | Every name with either reserved prefix is a system event (the converse of `IsSystemEvent`'s contract). |
| EventFactory.PlainDataPassesThrough | Sources/PusherEventFactory.swift:34-43 | Off encrypted channels, and for system events anywhere, the event carries the string `data` field as it is, whatever the key. |
| EventFactory.EncryptedWithoutDataHasNoData | Sources/PusherEventFactory.swift:53-56 | An encrypted non-system event without data succeeds with no data, even without a key. |
| EventFactory.MissingKeyIsKeyError | Sources/PusherEventFactory.swift:58-60 | An encrypted non-system event with data but no key fails with `invalidDecryptionKey`, before the envelope is looked at. |
| EventFactory.EncryptedOutcome | Sources/PusherEventFactory.swift:53-106 | With data and a key, each of these holds exactly when its condition does: `invalidFormat` when the envelope or its Base64 ciphertext or nonce does not decode; `invalidDecryptionKey` when the envelope is fine but the key does not decode, the box does not open or the plaintext is not UTF-8; otherwise success with the decrypted text. |
| EventFactory.FormatErrorIgnoresKey | Sources/PusherEventFactory.swift:62-64 | A format error under one key is a format error under every key, so a new key never cures it. |
| EventFactory.DecryptSuccess | Sources/PusherEventFactory.swift:62-72 | When every decoding step succeeds and the box opens to UTF-8 bytes of `text`, the event's data is exactly `text`. |
| EventFactory.MalformedEnvelopeErrorDependsOnKey | Sources/PusherEventFactory.swift:53-79 | For an encrypted non-system event whose data does not decode as an envelope, the result is `invalidDecryptionKey` without a key (the key guard comes first) and `invalidFormat` under every key. |
| KeyHistory.ReplayAgreesWithLatest | Sources/PusherKeyProvider.swift:25-37 | Looking up a channel in the dictionary left by a history of updates gives the key of the latest `set` for that channel, or none if there was none or a `clear` came later. |
| KeyHistory.SetKeyIsolated | Sources/PusherKeyProvider.swift:29-30 | After `set` for `c`, the key of `c` is the new key (the empty string included) and every other channel's key is as before. |
| KeyHistory.ClearKeyIsolated | Sources/PusherKeyProvider.swift:34-35 | After `clear` for `c`, whether or not `c` had a key, `c` has none and every other channel's key is as before. |
| KeyHistory.ReplayAppend | Sources/PusherKeyProvider.swift:29-37 | The dictionary after one more update is the earlier dictionary with that update applied. |
| FlushSpec.FlushBuffer | Sources/PusherEventQueue.swift:64-104 | A flush sends at most one decrypt-failure signal. A paused buffer is left as it is, and nothing is sent, unless the flush resumes. Otherwise the new buffer is exactly `Survivors` of the old one. |
| FlushSpec.Enqueued | Sources/PusherEventQueue.swift:58-62 | The payload goes at the end of the channel's buffer. A missing buffer is created empty and running first. Every other channel's buffer is unchanged. |
| FlushSpec.PassMarksIncreasing | Sources/PusherEventQueue.swift:76-96 | The indices a flush marks for removal are strictly increasing and lie among the payloads it visited. |
| FlushSpec.PassSignalsAtMostOnce | Sources/PusherEventQueue.swift:76-96 | A flush signals at most once. Without a signal it walks the whole buffer. A flush that starts running ends paused exactly when it signalled. |
| FlushSpec.PassStopsAtKeyError | Sources/PusherEventQueue.swift:83-87 | A signal is the last callback of its flush and names the channel. The buffer is then paused, and the walk ended at a payload that failed on its key. |
| FlushSpec.PassMarksBeforeStop | Sources/PusherEventQueue.swift:83-87 | When a flush signals, nothing from the failing payload on is marked, so that payload and all later ones stay in the buffer. |
| FlushSpec.PassDeliversInOrder | Sources/PusherEventQueue.swift:76-80 | The events a flush delivers are the successful parses of the visited payloads, in arrival order. |
| FlushSpec.PassRemovesExactly | Sources/PusherEventQueue.swift:76-96 | An index is marked exactly when its payload was visited, did not fail on its format, and is not the one whose key failure stopped the walk. This covers the delivered and the skipped payloads. |
| FlushSpec.KeepIsSurvivors | Sources/PusherEventQueue.swift:95-100 | Removing the marked indices leaves exactly the index-free `Survivors`: format failures stay in order, and so does everything from a stopping key failure on. |
| FlushSpec.FlushChannelHeld | Sources/PusherEventQueue.swift:69-71 | A non-resuming flush of a paused buffer changes no buffer and sends nothing. |
| FlushSpec.FlushChannelTakesPass | Sources/PusherEventQueue.swift:64-104 | A flush that goes ahead replaces only that channel's buffer: by the walk's survivors, with the walk's final flag. It sends the walk's callbacks. |
| FlushSpec.PausedBufferWaits | Sources/PusherEventQueue.swift:69-71 | A plain flush of a paused buffer changes nothing and sends nothing. |
| FlushSpec.FirstKeyErrorPauses | Sources/PusherEventQueue.swift:83-87 | A key failure at the head of a running buffer pauses it and keeps every payload. It sends exactly one signal for the channel. |
| FlushSpec.RetryThenDrop | Sources/PusherEventQueue.swift:88-94 | In a resumed flush, a head payload that still fails on its key is dropped without a signal. The rest of the buffer is then flushed as a running buffer would be. |
| FlushSpec.SecondKeyErrorRepauses | Sources/PusherEventQueue.swift:83-94 | As written, a second key failure in the same resumed flush pauses again and signals again. It keeps that payload and all later ones. |
| FlushSpec.FormatFailureStays | Sources/PusherEventQueue.swift:95 | A payload that fails on its format is neither delivered nor removed. It stays at the head while the rest is flushed as if it were not there. |
| FlushSpec.ResumeDelivers | Sources/PusherEventQueue.swift:76-100 | A resumed flush of a paused one-payload buffer whose payload now parses delivers it once, removes it and leaves the buffer running. |
| FlushSpec.ResumeKeepsFormatFailurePaused | Sources/PusherEventQueue.swift:95 | A resumed flush of a paused one-payload buffer whose payload now fails on its format keeps the payload and the `paused` flag, and sends nothing. |
| FlushSpec.RemovedChannelIsSilent | Sources/PusherEventQueue.swift:40-42 | Once a channel's buffer is removed, a flush of that channel, resuming or not, changes nothing and sends nothing. |
| FlushSpec.UnbufferedNeverSignals | Sources/PusherEventQueue.swift:50-53 | A payload without a channel yields at most one delivery, with no channel, and never a signal. |
| FlushSpec.KeepGap | Sources/PusherEventQueue.swift:98-100 | Between two marks nothing is removed, so removal from the highest index down keeps every unmarked stretch in place. |
| EventPipeline.ChannelQueue.constructor | Sources/PusherEventQueue.swift:14-17 | A new buffer is empty and running. |
| EventPipeline.ChannelQueue.RemoveIndexes | Sources/PusherEventQueue.swift:98-100 | Removing strictly increasing in-range indices one at a time from the highest down leaves exactly `Keep`: the unmarked payloads in their order. |
| EventPipeline.EventQueue.constructor | Sources/PusherEventQueue.swift:31-36 | The queue starts with no buffers and no callbacks, and registers itself as the key provider's delegate without touching its keys. |
| EventPipeline.EventQueue.RemoveQueue | Sources/PusherEventQueue.swift:40-42 | Only that channel's buffer is forgotten, and nothing happens when there is none. |
| EventPipeline.EventQueue.Report | Sources/PusherEventQueue.swift:44-54 | With a channel, the payload is appended (`Enqueued`) and then a non-resuming flush runs (`FlushChannel`). Without one, the buffers stay as they are and only `DeliverUnbuffered` is sent: a parse with no key, every error swallowed. |
| EventPipeline.EventQueue.Enqueue | Sources/PusherEventQueue.swift:58-62 | The buffers become `Enqueued` of the old ones, and no callback is sent. |
| EventPipeline.EventQueue.Flush | Sources/PusherEventQueue.swift:64-104 | The buffers and callbacks become `FlushChannel` of the old buffers. It parses with the key the provider holds for the channel, read once. |
| EventPipeline.EventQueue.FlushQueue | Sources/PusherEventQueue.swift:73-102 | The walk and the removal replace that channel's buffer by `Keep` of the walk's marks, with the walk's final flag. No other buffer changes, and the walk's callbacks are sent. |
| EventPipeline.EventQueue.Walk | Sources/PusherEventQueue.swift:74-96 | The loop's marked indices, final flag and callbacks are exactly those of `Pass` over the buffer. |
| EventPipeline.EventQueue.Visit | Sources/PusherEventQueue.swift:77-95 | One payload. On success it is delivered, marked and unpaused. On a key failure while running it is paused, signalled and the walk stops. On a key failure while paused it is marked and unpaused. On a format failure nothing changes. |
| EventPipeline.EventQueue.FlushPayload | Sources/PusherEventQueue.swift:106-109 | A payload that parses is delivered with the given channel. Otherwise the parse error is returned and nothing is sent. |
| EventPipeline.EventQueue.DidUpdateDecryptionKey | Sources/PusherEventQueue.swift:116-119 | A key update runs a resuming flush of that channel (`FlushChannel` with resume). |
| EventPipeline.KeyProvider.constructor | Sources/PusherKeyProvider.swift:15-21 | A new provider has no keys and no delegate. |
| EventPipeline.KeyProvider.DecryptionKey | Sources/PusherKeyProvider.swift:25-27 | Returns the key of the latest `set` for the channel, or none if it was never set or was cleared since. |
| EventPipeline.KeyProvider.SetDecryptionKey | Sources/PusherKeyProvider.swift:29-32 | The new key is visible for `c` and no other channel's key changes. Then the delegate, if any, runs exactly one resuming flush of `c` with the new key. |
| EventPipeline.KeyProvider.ClearDecryptionKey | Sources/PusherKeyProvider.swift:34-37 | `c` has no key, even if it had none before, and no other channel's key changes. Then the delegate, if any, runs exactly one resuming flush of `c` without a key. |
| Scenarios.PausedOnFirstPayload | Sources/PusherEventQueue.swift:31-49 | A queue built over a new key provider, after one report of a payload that needs a key: that channel's buffer holds the payload and is paused, exactly one signal has gone out, and the provider still has no keys and notifies this queue. |
| Scenarios.ReportWithoutKey | Sources/PusherEventQueue.swift:83-87 | The channel-level effect of that first report: the new buffer is paused with the payload kept, and the only callback is one signal. |
| Scenarios.ResumeWith | Sources/PusherEventQueue.swift:76-95 | The resumed flush of that paused buffer once a key is set: delivery and an empty running buffer; or a silent drop; or, on a format failure, the buffer as it was, still paused. |
| Scenarios.KeyArrivesAfterPayload | Sources/PusherKeyProvider.swift:29-32 | Report before the key, then `setDecryptionKey`: the objects end with an empty running buffer, and the callbacks are one signal followed by the delivery. |
| Scenarios.WrongKeyDropsPayload | Sources/PusherEventQueue.swift:88-94 | Report before the key, then a key that still fails: the payload is dropped with no second signal, and the buffer ends empty and running. |
| Scenarios.HeldBehindPausedHead | Sources/PusherEventQueue.swift:58-71 | A payload reported to a paused channel is appended and waits, with no parse and no callback. |
| Scenarios.FormatFailureHoldsChannel | Sources/PusherEventQueue.swift:83-95 | Report a payload that needs a key and fails on its format under the key that then arrives, then report another: both payloads stay in a paused buffer, and only the first signal has gone out. |

## Left out

- Foreign code: the envelope decoder (`JSONDecoder`), Foundation's Base64 and
  UTF-8 conversions, and the Sodium secret box (XSalsa20-Poly1305). Each is
  an uninterpreted `Option`-returning parameter in `Primitives`. The
  `data(using: .utf8)` step before the envelope is decoded is part of that
  decoder.
- Payload values are Swift's `Any`. The model has a `Value` datatype in which
  only `Text` counts as a string, which is what `as? String` tests.
- `starts(with:)` compares Swift characters (grapheme clusters). The model
  compares sequences of `char`, with no Unicode normalisation.
- The `print` at `Sources/PusherEventQueue.swift:91`: it is logging only.
- The delegates are weak references (`Sources/PusherEventQueue.swift:27`,
  `Sources/PusherKeyProvider.swift:21`). The queue's delegate is its callback
  `log`, which always records. The provider's delegate is an optional
  reference to the queue. ARC lifetimes are not modelled.
- Re-entrant delegate callbacks, for example a failure handler that sets a
  key in the middle of a flush: the callbacks are recorded, not run.
- Thread safety (there is none in the code), and the `protocol`
  declarations, which are interfaces only.
- EventPipeline.KeyProvider.SetDecryptionKey: the notification goes only to
  a queue built with this provider (`delegate.keyProvider == this`), and only
  when no two channels share one buffer object (`delegate.Valid()`). Other
  delegates are not modelled.
- EventPipeline.KeyProvider.ClearDecryptionKey: the same restriction on the
  delegate as for `SetDecryptionKey`.
