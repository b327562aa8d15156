/** The behaviour the backend's own tests describe, stated for concrete
    requests over the model. */
module Scenarios {
  import opened Wrappers
  import opened Errors
  import opened Configuration
  import opened Keys
  import opened Backend
  import opened Lifecycle

  /** An upstream that accepts every client and answers every capability set
      with key "12345", secret "test", no expiry and no capabilities. */
  function FixedUpstream(): Upstream {
    Upstream(
      (s: ClientSettings) => None,
      (s: ClientSettings, caps: Capabilities) =>
        Success(Key("12345", "test", ZeroTime, Capabilities(false, false, false, []))))
  }

  /** A key request with no options, served by the fixed upstream, is
      answered with that key's fields and all capabilities off. */
  lemma GenerateKeyScenario()
    ensures IssueOutcome(Some(Config("example", "", "http://localhost:1337", "", "", [])),
                         NoReadFaults, KeyRequest([], false, false), FixedUpstream())
            == Success(KeyResponse("12345", "test", ZeroTime, [], false, false, false))
  {
  }

  /** Updating with only a tailnet and an API key stores them with the
      default API URL and empty OAuth fields. */
  lemma UpdateScenario(slot: Option<Config>)
    ensures Run(slot, [WriteConfig(ConfigFields("example.com", "12345", None, "", "", []), NoWriteFaults)])
            == Some(Config("example.com", "12345", DefaultApiUrl, "", "", []))
  {
  }

  /** An update without any credential fails and the entry stays as it was. */
  lemma MissingCredentialScenario(slot: Option<Config>)
    ensures UpdateOutcome(ConfigFields("example.com", "", None, "", "", []), NoWriteFaults) == Failure(MissingCredential)
    ensures Run(slot, [WriteConfig(ConfigFields("example.com", "", None, "", "", []), NoWriteFaults)]) == slot
  {
  }

  /** An update without a tailnet fails and the entry stays as it was. */
  lemma MissingTailnetScenario(slot: Option<Config>)
    ensures UpdateOutcome(ConfigFields("", "12345", None, "", "", []), NoWriteFaults) == Failure(EmptyTailnet)
    ensures Run(slot, [WriteConfig(ConfigFields("", "12345", None, "", "", []), NoWriteFaults)]) == slot
  {
  }

  /** Reading a backend that was never configured reports that it was not. */
  lemma ReadUnsetScenario()
    ensures ReadOutcome(None, NoReadFaults) == Failure(NotConfigured)
    ensures Message(ReadOutcome(None, NoReadFaults).error) == "configuration has not been set"
  {
  }
}
