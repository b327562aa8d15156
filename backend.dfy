/** The backend's three handlers over its one storage entry, the entry
    stored under the key "config": updating the configuration, reading it
    back, and issuing a key with it. */
module Backend {
  import opened Wrappers
  import opened Errors
  import opened Configuration
  import opened Keys

  /** How the storage collaborator fails on a read of the entry, if it does:
      `get` is a failure of the lookup, `decode` a failure to decode the
      entry found. */
  datatype ReadFaults = ReadFaults(get: Option<string>, decode: Option<string>)

  /** How the storage collaborator fails on a write of the entry, if it
      does: `encode` is a failure to encode the record, `put` a failure to
      store it. A failed put leaves the entry as it was. */
  datatype WriteFaults = WriteFaults(encode: Option<string>, put: Option<string>)

  const NoReadFaults: ReadFaults := ReadFaults(None, None)
  const NoWriteFaults: WriteFaults := WriteFaults(None, None)

  /** The record an update stores, or why it stores nothing. The old entry
      plays no part: a successful update replaces it wholesale. The three
      checks come before any storage step, so a record that fails them is
      reported as invalid whatever storage would have done. */
  function UpdateOutcome(fields: ConfigFields, faults: WriteFaults): (r: Result<Config, Error>)
    ensures r.Success? <==> Complete(WithDefaults(fields)) && faults.encode.None? && faults.put.None?
    ensures r.Success? ==> r.value == WithDefaults(fields)
    ensures !Complete(WithDefaults(fields)) ==> r == Failure(Check(WithDefaults(fields)).value)
    ensures Complete(WithDefaults(fields)) && faults.encode.Some? ==>
              r == Failure(StorageFault(faults.encode.value))
    ensures Complete(WithDefaults(fields)) && faults.encode.None? && faults.put.Some? ==>
              r == Failure(StorageFault(faults.put.value))
  {
    var config := WithDefaults(fields);
    match Check(config)
    case Some(invalid) => Failure(invalid)
    case None =>
      if faults.encode.Some? then Failure(StorageFault(faults.encode.value))
      else if faults.put.Some? then Failure(StorageFault(faults.put.value))
      else Success(config)
  }

  /** What a read of the configuration returns: a lookup failure as is,
      `NotConfigured` when there is no entry, a decoding failure as is, and
      otherwise every stored field verbatim. */
  function ReadOutcome(slot: Option<Config>, faults: ReadFaults): (r: Result<Config, Error>)
    ensures faults.get.Some? ==> r == Failure(StorageFault(faults.get.value))
    ensures faults.get.None? && slot.None? ==> r == Failure(NotConfigured)
    ensures faults.get.None? && slot.Some? && faults.decode.Some? ==> r == Failure(StorageFault(faults.decode.value))
    ensures r.Success? <==> slot.Some? && faults.get.None? && faults.decode.None?
    ensures r.Success? ==> r.value == slot.value
  {
    if faults.get.Some? then Failure(StorageFault(faults.get.value))
    else if slot.None? then Failure(NotConfigured)
    else if faults.decode.Some? then Failure(StorageFault(faults.decode.value))
    else Success(slot.value)
  }

  /** Key issuance once an entry has been found: decode it, build the client
      it selects, ask upstream once for the requested capabilities and
      report the key upstream returns. */
  function IssueWith(config: Config, decodeFault: Option<string>, req: KeyRequest, upstream: Upstream): (r: Result<KeyResponse, Error>)
    ensures r.Success? <==>
              && decodeFault.None?
              && upstream.connect(Client(config)).None?
              && upstream.createKey(Client(config), Requested(req)).Success?
    ensures r.Success? ==> r.value == Project(upstream.createKey(Client(config), Requested(req)).value)
  {
    if decodeFault.Some? then Failure(StorageFault(decodeFault.value))
    else
      var client := Client(config);
      match upstream.connect(client)
      case Some(cause) => Failure(ClientFault(cause))
      case None =>
        match upstream.createKey(client, Requested(req))
        case Failure(cause) => Failure(UpstreamFault(cause))
        case Success(key) => Success(Project(key))
  }

  /** What a key request returns: the issuance above when the entry exists,
      `NotConfigured` when it does not. */
  function IssueOutcome(slot: Option<Config>, faults: ReadFaults, req: KeyRequest, upstream: Upstream): (r: Result<KeyResponse, Error>)
    ensures faults.get.Some? ==> r == Failure(StorageFault(faults.get.value))
    ensures faults.get.None? && slot.None? ==> r == Failure(NotConfigured)
    ensures r.Success? <==> faults.get.None? && slot.Some? && IssueWith(slot.value, faults.decode, req, upstream).Success?
  {
    if faults.get.Some? then Failure(StorageFault(faults.get.value))
    else if slot.None? then Failure(NotConfigured)
    else IssueWith(slot.value, faults.decode, req, upstream)
  }

  /** Every collaborator failure on the way reaches the caller unchanged,
      and each is reported at the first step that fails. */
  lemma IssuePropagatesFaults(config: Config, faults: ReadFaults, req: KeyRequest, upstream: Upstream)
    requires faults.get.None?
    ensures faults.decode.Some? ==>
              IssueOutcome(Some(config), faults, req, upstream) == Failure(StorageFault(faults.decode.value))
    ensures faults.decode.None? && upstream.connect(Client(config)).Some? ==>
              IssueOutcome(Some(config), faults, req, upstream) == Failure(ClientFault(upstream.connect(Client(config)).value))
    ensures faults.decode.None? && upstream.connect(Client(config)).None?
            && upstream.createKey(Client(config), Requested(req)).Failure? ==>
              IssueOutcome(Some(config), faults, req, upstream)
              == Failure(UpstreamFault(upstream.createKey(Client(config), Requested(req)).error))
  {
  }

  /** Whichever handler meets a collaborator failure, the caller receives that
      failure's own text, at the step where it happened. */
  lemma FaultTextsReachCaller(slot: Option<Config>, fields: ConfigFields, wf: WriteFaults, rf: ReadFaults, req: KeyRequest, upstream: Upstream)
    ensures Complete(WithDefaults(fields)) && wf.encode.Some? ==>
              Message(UpdateOutcome(fields, wf).error) == wf.encode.value
    ensures Complete(WithDefaults(fields)) && wf.encode.None? && wf.put.Some? ==>
              Message(UpdateOutcome(fields, wf).error) == wf.put.value
    ensures rf.get.Some? ==>
              && Message(ReadOutcome(slot, rf).error) == rf.get.value
              && Message(IssueOutcome(slot, rf, req, upstream).error) == rf.get.value
    ensures rf.get.None? && slot.Some? && rf.decode.Some? ==>
              && Message(ReadOutcome(slot, rf).error) == rf.decode.value
              && Message(IssueOutcome(slot, rf, req, upstream).error) == rf.decode.value
    ensures rf.get.None? && slot.Some? && rf.decode.None? && upstream.connect(Client(slot.value)).Some? ==>
              Message(IssueOutcome(slot, rf, req, upstream).error) == upstream.connect(Client(slot.value)).value
    ensures rf.get.None? && slot.Some? && rf.decode.None? && upstream.connect(Client(slot.value)).None?
            && upstream.createKey(Client(slot.value), Requested(req)).Failure? ==>
              Message(IssueOutcome(slot, rf, req, upstream).error) == upstream.createKey(Client(slot.value), Requested(req)).error
  {
    if slot.Some? && rf.get.None? {
      IssuePropagatesFaults(slot.value, rf, req, upstream);
    }
  }

  /** Upstream is asked exactly one question, creating a key for the client
      the record selects with the requested capabilities: two authorities
      that agree on that question give the same outcome. */
  lemma IssueAsksUpstreamOnce(slot: Option<Config>, faults: ReadFaults, req: KeyRequest, u1: Upstream, u2: Upstream)
    requires slot.Some? ==>
               && u1.connect(Client(slot.value)) == u2.connect(Client(slot.value))
               && u1.createKey(Client(slot.value), Requested(req)) == u2.createKey(Client(slot.value), Requested(req))
    ensures IssueOutcome(slot, faults, req, u1) == IssueOutcome(slot, faults, req, u2)
  {
  }

  /** The response describes what upstream granted, not what was asked: two
      requests answered with the same key get the same response, and that
      response is the projection of the key, whatever flags were asked for. */
  lemma IssueReportsGrant(config: Config, req1: KeyRequest, req2: KeyRequest, upstream: Upstream)
    requires upstream.connect(Client(config)).None?
    requires upstream.createKey(Client(config), Requested(req1)) == upstream.createKey(Client(config), Requested(req2))
    ensures IssueOutcome(Some(config), NoReadFaults, req1, upstream) == IssueOutcome(Some(config), NoReadFaults, req2, upstream)
    ensures upstream.createKey(Client(config), Requested(req1)).Success? ==>
              IssueOutcome(Some(config), NoReadFaults, req1, upstream)
              == Success(Project(upstream.createKey(Client(config), Requested(req1)).value))
  {
  }

  /** What a handler does when it runs to the end, as against a run-time panic. */
  datatype Handled<T> = Returned(result: Result<T, Error>) | Panicked

  /** Key issuance as the handler is written: a missing entry is not
      checked for, and decoding it dereferences the absent entry. */
  function IssueAsWritten(slot: Option<Config>, faults: ReadFaults, req: KeyRequest, upstream: Upstream): (h: Handled<KeyResponse>)
    ensures h.Panicked? <==> faults.get.None? && slot.None?
  {
    if faults.get.Some? then Returned(Failure(StorageFault(faults.get.value)))
    else if slot.None? then Panicked
    else Returned(IssueWith(slot.value, faults.decode, req, upstream))
  }

  /** The handler as written crashes on an unconfigured backend, where its
      documentation promises an error; everywhere else it agrees with the
      corrected issuance. */
  lemma UnsetSlotPanicsAsWritten(slot: Option<Config>, faults: ReadFaults, req: KeyRequest, upstream: Upstream)
    ensures IssueAsWritten(None, NoReadFaults, req, upstream) == Panicked
    ensures IssueOutcome(None, NoReadFaults, req, upstream) == Failure(NotConfigured)
    ensures IssueAsWritten(slot, faults, req, upstream).Returned? ==>
              IssueAsWritten(slot, faults, req, upstream).result == IssueOutcome(slot, faults, req, upstream)
  {
  }

  /** A mounted backend: its one configuration entry and the handlers on it. */
  class Backend {
    /** The entry under the key "config", absent until the first successful update. */
    var slot: Option<Config>

    /** A freshly mounted backend has no configuration. */
    constructor ()
      ensures slot == None
    {
      slot := None;
    }

    /** Validates the update and, only if all three checks pass and storage
        succeeds, replaces the entry with the new record; every failure
        leaves the entry exactly as it was. */
    method UpdateConfiguration(fields: ConfigFields, faults: WriteFaults) returns (err: Option<Error>)
      modifies this`slot
      ensures err.None? <==> UpdateOutcome(fields, faults).Success?
      ensures err.Some? ==> err.value == UpdateOutcome(fields, faults).error
      ensures slot == (if err.None? then Some(WithDefaults(fields)) else old(slot))
    {
      var config := WithDefaults(fields);
      var invalid := Check(config);
      if invalid.Some? {
        return invalid;
      }
      if faults.encode.Some? {
        return Some(StorageFault(faults.encode.value));
      }
      if faults.put.Some? {
        return Some(StorageFault(faults.put.value));
      }
      slot := Some(config);
      return None;
    }

    /** Returns the stored record, or why it cannot; changes nothing. */
    method ReadConfiguration(faults: ReadFaults) returns (r: Result<Config, Error>)
      ensures r == ReadOutcome(slot, faults)
    {
      if faults.get.Some? {
        return Failure(StorageFault(faults.get.value));
      }
      if slot.None? {
        return Failure(NotConfigured);
      }
      if faults.decode.Some? {
        return Failure(StorageFault(faults.decode.value));
      }
      return Success(slot.value);
    }

    /** Issues a key through upstream with the stored record; reads the
        entry and never writes it. */
    method GenerateKey(req: KeyRequest, faults: ReadFaults, upstream: Upstream) returns (r: Result<KeyResponse, Error>)
      ensures r == IssueOutcome(slot, faults, req, upstream)
    {
      if faults.get.Some? {
        return Failure(StorageFault(faults.get.value));
      }
      if slot.None? {
        return Failure(NotConfigured);
      }
      if faults.decode.Some? {
        return Failure(StorageFault(faults.decode.value));
      }
      var config := slot.value;
      var client := Client(config);
      var connectFault := upstream.connect(client);
      if connectFault.Some? {
        return Failure(ClientFault(connectFault.value));
      }
      var capabilities := Requested(req);
      var created := upstream.createKey(client, capabilities);
      if created.Failure? {
        return Failure(UpstreamFault(created.error));
      }
      return Success(Project(created.value));
    }
  }
}
