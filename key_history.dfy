/**
 * What the key store promises, stated over the history of its updates: the
 * key for a channel is the one most recently set for it, unless it was
 * cleared since. The store itself (a dictionary updated in place) is the
 * class `EventPipeline.KeyProvider`; its invariant is that its dictionary is
 * the replay of this history.
 */
module KeyHistory {
  import opened Wrappers

  /** One call to `setDecryptionKey` or `clearDecryptionKey`. */
  datatype KeyUpdate = SetKey(channel: string, key: string) | ClearKey(channel: string)

  /** The dictionary entry for `c`, as an optional value. */
  function Lookup(keys: map<string, string>, c: string): Option<string> {
    if c in keys then Some(keys[c]) else None
  }

  /** The dictionary after applying one update to it. */
  function Apply(keys: map<string, string>, u: KeyUpdate): map<string, string> {
    match u
    case SetKey(c, key) => keys[c := key]
    case ClearKey(c) => keys - {c}
  }

  /** The dictionary after applying every update of `h`, in order, to an empty one. */
  function Replay(h: seq<KeyUpdate>): map<string, string>
    decreases |h|
  {
    if h == [] then map[] else Apply(Replay(h[..|h| - 1]), h[|h| - 1])
  }

  /** The key of the latest update naming `c`: the key it set, or none if it cleared. */
  function Latest(h: seq<KeyUpdate>, c: string): Option<string>
    decreases |h|
  {
    if h == [] then None
    else if h[|h| - 1].channel == c then
      (match h[|h| - 1] case SetKey(_, key) => Some(key) case ClearKey(_) => None)
    else Latest(h[..|h| - 1], c)
  }

  /** Looking up the replayed dictionary gives the latest key set for the channel. */
  lemma {:induction false} ReplayAgreesWithLatest(h: seq<KeyUpdate>, c: string)
    ensures Lookup(Replay(h), c) == Latest(h, c)
    decreases |h|
  {
    if h != [] {
      ReplayAgreesWithLatest(h[..|h| - 1], c);
    }
  }

  /** Setting a key for `c` makes it the key of `c` and leaves every other channel's key as it was. */
  lemma SetKeyIsolated(h: seq<KeyUpdate>, c: string, key: string, d: string)
    ensures Latest(h + [SetKey(c, key)], c) == Some(key)
    ensures d != c ==> Latest(h + [SetKey(c, key)], d) == Latest(h, d)
  {
    assert (h + [SetKey(c, key)])[..|h|] == h;
  }

  /** Clearing the key of `c`, present or not, leaves `c` without a key and every other channel as it was. */
  lemma ClearKeyIsolated(h: seq<KeyUpdate>, c: string, d: string)
    ensures Latest(h + [ClearKey(c)], c) == None
    ensures d != c ==> Latest(h + [ClearKey(c)], d) == Latest(h, d)
  {
    assert (h + [ClearKey(c)])[..|h|] == h;
  }

  /** The replay of a longer history is the replay of the shorter one with the update applied. */
  lemma ReplayAppend(h: seq<KeyUpdate>, u: KeyUpdate)
    ensures Replay(h + [u]) == Apply(Replay(h), u)
  {
    assert (h + [u])[..|h|] == h;
  }
}
