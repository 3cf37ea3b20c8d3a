/**
 * The event factory: turns a raw payload and an optional decryption key into
 * an event, decrypting the `data` field of non-system events on encrypted
 * channels. It has no state; the foreign primitives it relies on (the JSON
 * envelope decoder, Base64 as in section 4 of RFC 4648, the secretbox open of
 * XSalsa20-Poly1305 and UTF-8 decoding) are parameters.
 */
module EventFactory {
  import opened Wrappers

  /** A field value of a loosely typed payload (Swift's `Any`). */
  datatype Value = Text(text: string) | Number(number: int) | Flag(flag: bool) | Null

  /** A raw payload as the transport delivers it: string keys to loosely typed values. */
  type Payload = map<string, Value>

  newtype Byte = b: int | 0 <= b < 256

  type Bytes = seq<Byte>

  /** The JSON object that `data` holds on an encrypted channel. */
  datatype Envelope = Envelope(nonce: string, ciphertext: string)

  /**
   * The foreign functions the factory calls, each returning `None` where the
   * library returns nil or throws: UTF-8 encoding plus `JSONDecoder` of the
   * envelope, `Data(base64Encoded:)`, `secretBox.open(authenticatedCipherText:
   * secretKey:nonce:)` and `String(bytes:encoding: .utf8)`.
   */
  datatype Primitives = Primitives(
    decodeEnvelope: string -> Option<Envelope>,
    base64Decode: string -> Option<Bytes>,
    secretBoxOpen: (Bytes, Bytes, Bytes) -> Option<Bytes>,
    utf8Decode: Bytes -> Option<string>)

  datatype EventError = InvalidFormat | InvalidDecryptionKey

  datatype Event = Event(
    eventName: string,
    channelName: Option<string>,
    data: Option<string>,
    userId: Option<string>,
    raw: Payload)

  const EncryptedChannelPrefix := "private-encrypted-"
  const SystemEventPrefix := "pusher:"
  const InternalEventPrefix := "pusher_internal:"

  predicate StartsWith(s: string, prefix: string) {
    |prefix| <= |s| && s[..|prefix|] == prefix
  }

  /** `json[name] as? String`: the field when it is present and a string. */
  function StringField(payload: Payload, name: string): Option<string> {
    if name in payload && payload[name].Text? then Some(payload[name].text) else None
  }

  /**
   * `makeEvent(fromJSON:withDecryptionKey:)`: the event name must be a string;
   * channel and user id are read leniently; the data may need decrypting.
   */
  function MakeEvent(f: Primitives, payload: Payload, key: Option<string>): (r: Result<Event, EventError>)
    ensures StringField(payload, "event").None? ==> r == Err(InvalidFormat)
    ensures r.Ok? ==>
              && Some(r.value.eventName) == StringField(payload, "event")
              && r.value.channelName == StringField(payload, "channel")
              && r.value.userId == StringField(payload, "user_id")
              && r.value.raw == payload
  {
    match StringField(payload, "event")
    case None => Err(InvalidFormat)
    case Some(eventName) =>
      var channelName := StringField(payload, "channel");
      var data :- Data(f, payload, eventName, channelName, key);
      Ok(Event(eventName, channelName, data, StringField(payload, "user_id"), payload))
  }

  /** `data(fromJSON:eventName:channelName:decryptionKey:)`. */
  function Data(f: Primitives, payload: Payload, eventName: string, channelName: Option<string>,
                key: Option<string>): Result<Option<string>, EventError>
  {
    var data := StringField(payload, "data");
    if IsEncryptedChannel(channelName) && !IsSystemEvent(eventName) then Decrypt(f, data, key)
    else Ok(data)
  }

  /** Whether the channel is end-to-end encrypted, by its reserved name prefix. */
  predicate IsEncryptedChannel(channelName: Option<string>)
    ensures IsEncryptedChannel(channelName) ==>
              channelName.Some? && |EncryptedChannelPrefix| <= |channelName.value| &&
              channelName.value == EncryptedChannelPrefix + channelName.value[|EncryptedChannelPrefix|..]
  {
    channelName.Some? && StartsWith(channelName.value, EncryptedChannelPrefix)
  }

  /** Whether the event belongs to the protocol's own namespaces. */
  predicate IsSystemEvent(eventName: string)
    ensures IsSystemEvent(eventName) ==>
              || (|SystemEventPrefix| <= |eventName| && eventName == SystemEventPrefix + eventName[|SystemEventPrefix|..])
              || (|InternalEventPrefix| <= |eventName| && eventName == InternalEventPrefix + eventName[|InternalEventPrefix|..])
  {
    StartsWith(eventName, SystemEventPrefix) || StartsWith(eventName, InternalEventPrefix)
  }

  /**
   * `decrypt(data:decryptionKey:)`: no data is no error; data without a key is
   * a key error; then envelope, ciphertext, nonce and key are decoded in that
   * order, and the box is opened and its contents read as UTF-8.
   */
  function Decrypt(f: Primitives, data: Option<string>, key: Option<string>): Result<Option<string>, EventError>
  {
    match data
    case None => Ok(None)
    case Some(d) =>
      match key
      case None => Err(InvalidDecryptionKey)
      case Some(k) =>
        var envelope :- EncryptedData(f, d);
        var cipherText :- DecodedCipherText(f, envelope);
        var nonce :- DecodedNonce(f, envelope);
        var secretKey :- DecodedDecryptionKey(f, k);
        match f.secretBoxOpen(cipherText, secretKey, nonce)
        case None => Err(InvalidDecryptionKey)
        case Some(plain) =>
          match f.utf8Decode(plain)
          case None => Err(InvalidDecryptionKey)
          case Some(text) => Ok(Some(text))
  }

  function EncryptedData(f: Primitives, data: string): Result<Envelope, EventError> {
    match f.decodeEnvelope(data)
    case None => Err(InvalidFormat)
    case Some(envelope) => Ok(envelope)
  }

  function DecodedCipherText(f: Primitives, envelope: Envelope): Result<Bytes, EventError> {
    match f.base64Decode(envelope.ciphertext)
    case None => Err(InvalidFormat)
    case Some(bytes) => Ok(bytes)
  }

  function DecodedNonce(f: Primitives, envelope: Envelope): Result<Bytes, EventError> {
    match f.base64Decode(envelope.nonce)
    case None => Err(InvalidFormat)
    case Some(bytes) => Ok(bytes)
  }

  function DecodedDecryptionKey(f: Primitives, key: string): Result<Bytes, EventError> {
    match f.base64Decode(key)
    case None => Err(InvalidDecryptionKey)
    case Some(bytes) => Ok(bytes)
  }

  // ---------------------------------------------------------------------------
  // Properties of the factory

  /** Any channel name with the reserved prefix is an encrypted channel; no name at all is not. */
  lemma EncryptedChannelByPrefix(suffix: string)
    ensures IsEncryptedChannel(Some(EncryptedChannelPrefix + suffix))
    ensures !IsEncryptedChannel(None)
  {
    assert (EncryptedChannelPrefix + suffix)[..|EncryptedChannelPrefix|] == EncryptedChannelPrefix;
  }

  /** Both reserved namespaces mark system events, whatever follows them. */
  lemma SystemEventByPrefix(suffix: string)
    ensures IsSystemEvent(SystemEventPrefix + suffix)
    ensures IsSystemEvent(InternalEventPrefix + suffix)
  {
    assert (SystemEventPrefix + suffix)[..|SystemEventPrefix|] == SystemEventPrefix;
    assert (InternalEventPrefix + suffix)[..|InternalEventPrefix|] == InternalEventPrefix;
  }

  /**
   * Off encrypted channels, and for system events anywhere, the data passes
   * through untouched and the key plays no part.
   */
  lemma PlainDataPassesThrough(f: Primitives, payload: Payload, key: Option<string>, eventName: string)
    requires StringField(payload, "event") == Some(eventName)
    requires !IsEncryptedChannel(StringField(payload, "channel")) || IsSystemEvent(eventName)
    ensures MakeEvent(f, payload, key) == Ok(Event(eventName, StringField(payload, "channel"),
                                                   StringField(payload, "data"),
                                                   StringField(payload, "user_id"), payload))
  {
  }

  /** An encrypted event without data is delivered with no data, even without a key. */
  lemma EncryptedWithoutDataHasNoData(f: Primitives, payload: Payload, key: Option<string>, eventName: string)
    requires StringField(payload, "event") == Some(eventName)
    requires IsEncryptedChannel(StringField(payload, "channel")) && !IsSystemEvent(eventName)
    requires StringField(payload, "data").None?
    ensures MakeEvent(f, payload, key).Ok? && MakeEvent(f, payload, key).value.data.None?
  {
  }

  /**
   * An encrypted event with data but no key is a key error, whatever the
   * primitives would say: the envelope is never looked at.
   */
  lemma MissingKeyIsKeyError(f: Primitives, payload: Payload, eventName: string)
    requires StringField(payload, "event") == Some(eventName)
    requires IsEncryptedChannel(StringField(payload, "channel")) && !IsSystemEvent(eventName)
    requires StringField(payload, "data").Some?
    ensures MakeEvent(f, payload, None) == Err(InvalidDecryptionKey)
  {
  }

  /** The envelope is well formed: it decodes and both its fields are Base64. */
  predicate WellFormedEnvelope(f: Primitives, data: string) {
    && f.decodeEnvelope(data).Some?
    && f.base64Decode(f.decodeEnvelope(data).value.ciphertext).Some?
    && f.base64Decode(f.decodeEnvelope(data).value.nonce).Some?
  }

  /**
   * The plaintext a well-formed envelope yields under a key, if the key
   * decodes, the box opens under it and the result is UTF-8.
   */
  function Plaintext(f: Primitives, data: string, key: string): Option<string>
    requires WellFormedEnvelope(f, data)
  {
    var envelope := f.decodeEnvelope(data).value;
    var cipherText := f.base64Decode(envelope.ciphertext).value;
    var nonce := f.base64Decode(envelope.nonce).value;
    if f.base64Decode(key).None? then None
    else match f.secretBoxOpen(cipherText, f.base64Decode(key).value, nonce)
      case None => None
      case Some(plain) => f.utf8Decode(plain)
  }

  /**
   * The error taxonomy of an encrypted, non-system event with data and a key:
   * a format error exactly when the envelope is malformed (whatever the key),
   * a key error exactly when the envelope is fine but yields no text, and
   * otherwise the event carries the decrypted text.
   */
  lemma EncryptedOutcome(f: Primitives, payload: Payload, eventName: string, data: string, key: string)
    requires StringField(payload, "event") == Some(eventName)
    requires IsEncryptedChannel(StringField(payload, "channel")) && !IsSystemEvent(eventName)
    requires StringField(payload, "data") == Some(data)
    ensures MakeEvent(f, payload, Some(key)) == Err(InvalidFormat) <==> !WellFormedEnvelope(f, data)
    ensures MakeEvent(f, payload, Some(key)) == Err(InvalidDecryptionKey) <==>
              WellFormedEnvelope(f, data) && Plaintext(f, data, key).None?
    ensures forall text ::
              MakeEvent(f, payload, Some(key)) ==
                Ok(Event(eventName, StringField(payload, "channel"), Some(text),
                         StringField(payload, "user_id"), payload))
              <==> WellFormedEnvelope(f, data) && Plaintext(f, data, key) == Some(text)
  {
  }

  /** A format error under one key is a format error under every key: a fresh key never cures it. */
  lemma FormatErrorIgnoresKey(f: Primitives, payload: Payload, key: string, otherKey: string)
    requires MakeEvent(f, payload, Some(key)) == Err(InvalidFormat)
    ensures MakeEvent(f, payload, Some(otherKey)) == Err(InvalidFormat)
  {
    var eventName := StringField(payload, "event");
    if eventName.Some? {
      var data := StringField(payload, "data").value;
      EncryptedOutcome(f, payload, eventName.value, data, key);
      EncryptedOutcome(f, payload, eventName.value, data, otherKey);
    }
  }

  /**
   * The success case of decryption: when the envelope carries a ciphertext
   * that the key opens to UTF-8 bytes of `text`, the delivered data is
   * exactly `text`.
   */
  lemma DecryptSuccess(f: Primitives, payload: Payload, eventName: string, key: string, text: string,
                         envelope: Envelope, cipherText: Bytes, nonce: Bytes, secretKey: Bytes, plain: Bytes)
    requires StringField(payload, "event") == Some(eventName)
    requires IsEncryptedChannel(StringField(payload, "channel")) && !IsSystemEvent(eventName)
    requires StringField(payload, "data").Some?
    requires f.decodeEnvelope(StringField(payload, "data").value) == Some(envelope)
    requires f.base64Decode(envelope.ciphertext) == Some(cipherText)
    requires f.base64Decode(envelope.nonce) == Some(nonce)
    requires f.base64Decode(key) == Some(secretKey)
    requires f.secretBoxOpen(cipherText, secretKey, nonce) == Some(plain)
    requires f.utf8Decode(plain) == Some(text)
    ensures MakeEvent(f, payload, Some(key)).Ok?
    ensures MakeEvent(f, payload, Some(key)).value.data == Some(text)
  {
  }

  /**
   * An envelope that does not decode is a key error while no key is set, but
   * a format error under every key.
   */
  lemma MalformedEnvelopeErrorDependsOnKey(f: Primitives, payload: Payload, eventName: string, key: string)
    requires StringField(payload, "event") == Some(eventName)
    requires IsEncryptedChannel(StringField(payload, "channel")) && !IsSystemEvent(eventName)
    requires StringField(payload, "data").Some?
    requires !WellFormedEnvelope(f, StringField(payload, "data").value)
    ensures MakeEvent(f, payload, None) == Err(InvalidDecryptionKey)
    ensures MakeEvent(f, payload, Some(key)) == Err(InvalidFormat)
  {
    MissingKeyIsKeyError(f, payload, eventName);
    EncryptedOutcome(f, payload, eventName, StringField(payload, "data").value, key);
  }
}
