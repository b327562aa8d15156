/** The configuration entry over a sequence of handled requests: it is
    absent until an update succeeds, each successful update replaces it
    wholesale, and nothing else ever changes it. */
module Lifecycle {
  import opened Wrappers
  import opened Errors
  import opened Configuration
  import opened Keys
  import opened Backend

  /** One request to the backend, with what its collaborators do. */
  datatype Request =
    | WriteConfig(fields: ConfigFields, writeFaults: WriteFaults)
    | ReadConfig(readFaults: ReadFaults)
    | IssueKey(req: KeyRequest, keyFaults: ReadFaults, upstream: Upstream)

  /** The record a request stores, if it stores one. */
  function Written(q: Request): Option<Config> {
    match q
    case WriteConfig(fields, faults) =>
      (match UpdateOutcome(fields, faults) case Success(c) => Some(c) case Failure(_) => None)
    case ReadConfig(_) => None
    case IssueKey(_, _, _) => None
  }

  /** The entry after handling one request. */
  function Apply(slot: Option<Config>, q: Request): Option<Config> {
    match Written(q)
    case Some(c) => Some(c)
    case None => slot
  }

  /** What a request returns to its caller. */
  datatype Response =
    | Updated(err: Option<Error>)
    | ConfigRead(config: Result<Config, Error>)
    | KeyIssued(key: Result<KeyResponse, Error>)

  /** Routes a request to the backend's handler for it: updates and reads of
      `config` to the configuration handlers, reads of `key` to key issuance.
      The handler leaves the entry as `Apply` says, so every lemma about
      `Apply` and `Run` below holds of the backend object as well. */
  method Handle(b: Backend, q: Request) returns (resp: Response)
    modifies b`slot
    ensures b.slot == Apply(old(b.slot), q)
    ensures match q
            case WriteConfig(fields, faults) =>
              resp == Updated(match UpdateOutcome(fields, faults) case Success(_) => None case Failure(e) => Some(e))
            case ReadConfig(faults) => resp == ConfigRead(ReadOutcome(old(b.slot), faults))
            case IssueKey(req, faults, upstream) => resp == KeyIssued(IssueOutcome(old(b.slot), faults, req, upstream))
  {
    match q
    case WriteConfig(fields, faults) =>
      var err := b.UpdateConfiguration(fields, faults);
      resp := Updated(err);
    case ReadConfig(faults) =>
      var r := b.ReadConfiguration(faults);
      resp := ConfigRead(r);
    case IssueKey(req, faults, upstream) =>
      var r := b.GenerateKey(req, faults, upstream);
      resp := KeyIssued(r);
  }

  /** The entry after handling `qs` in order, starting from `slot`. */
  function Run(slot: Option<Config>, qs: seq<Request>): Option<Config>
    decreases |qs|
  {
    if qs == [] then slot else Run(Apply(slot, qs[0]), qs[1..])
  }

  /** The record stored by the last request of `qs` that stores one. */
  function LastWritten(qs: seq<Request>): Option<Config>
    decreases |qs|
  {
    if qs == [] then None
    else if Written(qs[|qs| - 1]).Some? then Written(qs[|qs| - 1])
    else LastWritten(qs[..|qs| - 1])
  }

  /** Handling one more request continues from where `qs` left the entry. */
  lemma {:induction false} RunAppend(slot: Option<Config>, qs: seq<Request>, q: Request)
    ensures Run(slot, qs + [q]) == Apply(Run(slot, qs), q)
    decreases |qs|
  {
    if qs == [] {
      assert [] + [q] == [q];
      assert [q][1..] == [];
    } else {
      assert (qs + [q])[0] == qs[0];
      assert (qs + [q])[1..] == qs[1..] + [q];
      RunAppend(Apply(slot, qs[0]), qs[1..], q);
    }
  }

  /** Last writer wins: after any sequence of requests the entry is the
      record of the last successful update, with nothing merged from earlier
      records, or the starting entry if no update succeeded. */
  lemma {:induction false} EntryIsLastWrite(slot: Option<Config>, qs: seq<Request>)
    ensures Run(slot, qs) == if LastWritten(qs).Some? then LastWritten(qs) else slot
    decreases |qs|
  {
    if qs != [] {
      var init, q := qs[..|qs| - 1], qs[|qs| - 1];
      assert qs == init + [q];
      RunAppend(slot, init, q);
      EntryIsLastWrite(slot, init);
    }
  }

  /** Once set, the entry is never removed. */
  lemma {:induction false} SetStaysSet(slot: Option<Config>, qs: seq<Request>)
    requires slot.Some?
    ensures Run(slot, qs).Some?
  {
    EntryIsLastWrite(slot, qs);
  }

  /** A request stores nothing unless it is an update that succeeds. */
  lemma {:induction false} NoStoreNoLastWrite(qs: seq<Request>)
    requires forall i :: 0 <= i < |qs| ==> Written(qs[i]).None?
    ensures LastWritten(qs).None?
    decreases |qs|
  {
    if qs != [] {
      NoStoreNoLastWrite(qs[..|qs| - 1]);
    }
  }

  /** Reads and key issuance never write the entry: a sequence without
      updates leaves it as it was. */
  lemma {:induction false} OnlyUpdatesWrite(slot: Option<Config>, qs: seq<Request>)
    requires forall i :: 0 <= i < |qs| ==> !qs[i].WriteConfig?
    ensures Run(slot, qs) == slot
  {
    NoStoreNoLastWrite(qs);
    EntryIsLastWrite(slot, qs);
  }

  /** A failed update leaves the entry exactly as it was. */
  lemma FailedUpdateKeepsEntry(slot: Option<Config>, fields: ConfigFields, faults: WriteFaults)
    requires UpdateOutcome(fields, faults).Failure?
    ensures Apply(slot, WriteConfig(fields, faults)) == slot
  {
  }

  /** Read after write: a successful update is read back in all six fields,
      api_url defaulted if it was omitted, whatever the entry held before. */
  lemma ReadAfterUpdate(slot: Option<Config>, fields: ConfigFields)
    requires Complete(WithDefaults(fields))
    ensures ReadOutcome(Apply(slot, WriteConfig(fields, NoWriteFaults)), NoReadFaults) == Success(WithDefaults(fields))
    ensures fields.apiUrl.None? ==>
              ReadOutcome(Apply(slot, WriteConfig(fields, NoWriteFaults)), NoReadFaults).value.apiUrl == DefaultApiUrl
  {
  }

  /** Repeating an update is the same as making it once. */
  lemma UpdateIdempotent(slot: Option<Config>, fields: ConfigFields, faults: WriteFaults)
    ensures Run(slot, [WriteConfig(fields, faults), WriteConfig(fields, faults)]) == Run(slot, [WriteConfig(fields, faults)])
  {
  }

  /** Until an update succeeds, key issuance and reads report `NotConfigured`. */
  lemma {:induction false} IssueBeforeConfiguration(qs: seq<Request>, req: KeyRequest, upstream: Upstream)
    requires forall i :: 0 <= i < |qs| ==> Written(qs[i]).None?
    ensures IssueOutcome(Run(None, qs), NoReadFaults, req, upstream) == Failure(NotConfigured)
    ensures ReadOutcome(Run(None, qs), NoReadFaults) == Failure(NotConfigured)
  {
    NoStoreNoLastWrite(qs);
    EntryIsLastWrite(None, qs);
  }
}
