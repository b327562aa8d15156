/** Authentication keys: what a caller asks for, the capability set sent
    upstream, the key the upstream authority returns and the response the
    caller receives. */
module Keys {
  import opened Wrappers
  import opened Configuration

  /** An expiry time, only ever copied; `ZeroTime` is the zero value the
      upstream client yields when the authority sends no expiry. */
  datatype Timestamp = ZeroTime | At(text: string)

  /** The device-creation capabilities of a key (the `Devices.Create` block
      of the upstream capability record). */
  datatype Capabilities = Capabilities(
    reusable: bool,
    ephemeral: bool,
    preauthorized: bool,
    tags: seq<string>)

  /** A key as the upstream authority returns it, with the capabilities it
      actually granted. */
  datatype Key = Key(id: string, key: string, expires: Timestamp, capabilities: Capabilities)

  /** The options of a key request; an omitted option is empty or false. */
  datatype KeyRequest = KeyRequest(tags: seq<string>, preauthorized: bool, ephemeral: bool)

  /** The fields of the key-issuance response. */
  datatype KeyResponse = KeyResponse(
    id: string,
    key: string,
    expires: Timestamp,
    tags: seq<string>,
    reusable: bool,
    ephemeral: bool,
    preauthorized: bool)

  /** The upstream authority, as seen by the backend: building a client from
      its settings may fail with a message, and creating a key with a client
      and a capability set either fails with a message or yields a key. */
  datatype Upstream = Upstream(
    connect: ClientSettings -> Option<string>,
    createKey: (ClientSettings, Capabilities) -> Result<Key, string>)

  /** The options a capability set carries, read back. */
  function OptionsOf(caps: Capabilities): KeyRequest {
    KeyRequest(caps.tags, caps.preauthorized, caps.ephemeral)
  }

  /** The capability set asked for: the request's tags, preauthorized and
      ephemeral options and nothing else, so the key is never reusable. */
  function Requested(req: KeyRequest): (caps: Capabilities)
    ensures !caps.reusable
    ensures OptionsOf(caps) == req
  {
    Capabilities(reusable := false, ephemeral := req.ephemeral, preauthorized := req.preauthorized, tags := req.tags)
  }

  /** The capability sets a request can ask for are exactly the
      non-reusable ones. */
  lemma RequestableExactlyNonReusable(caps: Capabilities)
    ensures Requested(OptionsOf(caps)) == caps <==> !caps.reusable
  {
  }

  /** The key a response describes. */
  function KeyOf(r: KeyResponse): Key {
    Key(r.id, r.key, r.expires, Capabilities(r.reusable, r.ephemeral, r.preauthorized, r.tags))
  }

  /** The response for an upstream key: its identifier, secret, expiry and
      granted capabilities, all taken from the key and all of it reported. */
  function Project(k: Key): (r: KeyResponse)
    ensures KeyOf(r) == k
  {
    KeyResponse(
      id := k.id,
      key := k.key,
      expires := k.expires,
      tags := k.capabilities.tags,
      reusable := k.capabilities.reusable,
      ephemeral := k.capabilities.ephemeral,
      preauthorized := k.capabilities.preauthorized)
  }

  /** Every response is the projection of exactly one key. */
  lemma ProjectBijective(r: KeyResponse, k1: Key, k2: Key)
    ensures Project(KeyOf(r)) == r
    ensures Project(k1) == Project(k2) ==> k1 == k2
  {
  }
}
