/** The errors the backend's handlers return. */
module Errors {

  datatype Error =
      /** the update supplied an empty tailnet */
    | EmptyTailnet
      /** the update supplied neither an API key nor an OAuth client ID */
    | MissingCredential
      /** the update supplied an empty API URL */
    | EmptyApiUrl
      /** there is no entry under the configuration key */
    | NotConfigured
      /** the storage collaborator failed to read, write, encode or decode the entry */
    | StorageFault(cause: string)
      /** the upstream client could not be constructed */
    | ClientFault(cause: string)
      /** the upstream key-creation call failed */
    | UpstreamFault(cause: string)
  {
    /** Errors raised by a collaborator and handed back unchanged. */
    predicate IsCollaboratorFault() {
      StorageFault? || ClientFault? || UpstreamFault?
    }
  }

  /** `word` occurs in `text` starting at position `i`. */
  predicate NamesAt(text: string, word: string, i: nat) {
    i + |word| <= |text| && text[i..i + |word|] == word
  }

  /** `word` occurs somewhere in `text`. */
  predicate Names(text: string, word: string) {
    exists i: nat :: i <= |text| && NamesAt(text, word, i)
  }

  lemma NamesMiddle(before: string, word: string, after: string)
    ensures Names(before + word + after, word)
  {
    assert NamesAt(before + word + after, word, |before|);
  }

  /** The text the caller sees: fixed wording for the backend's own errors,
      each naming the field or entry at fault, and the collaborator's own
      wording for everything else. */
  function Message(e: Error): (m: string)
    ensures e == EmptyTailnet ==> Names(m, "tailnet")
    ensures e == MissingCredential ==> Names(m, "api_key") && Names(m, "oauth_client_id")
    ensures e == EmptyApiUrl ==> Names(m, "api_url")
    ensures e == NotConfigured ==> Names(m, "configuration")
    ensures e.IsCollaboratorFault() ==> m == e.cause
  {
    match e
    case EmptyTailnet =>
      NamesMiddle("provided ", "tailnet", " cannot be empty");
      "provided " + "tailnet" + " cannot be empty"
    case MissingCredential =>
      var m := "one of " + "api_key" + " or " + "oauth_client_id" + " cannot be empty";
      NamesMiddle("one of ", "api_key", " or " + "oauth_client_id" + " cannot be empty");
      NamesMiddle("one of " + "api_key" + " or ", "oauth_client_id", " cannot be empty");
      assert m == "one of " + "api_key" + (" or " + "oauth_client_id" + " cannot be empty");
      m
    case EmptyApiUrl =>
      NamesMiddle("provided ", "api_url", " cannot be empty");
      "provided " + "api_url" + " cannot be empty"
    case NotConfigured =>
      NamesMiddle("", "configuration", " has not been set");
      assert "" + "configuration" == "configuration";
      "configuration" + " has not been set"
    case StorageFault(cause) => cause
    case ClientFault(cause) => cause
    case UpstreamFault(cause) => cause
  }

  /** The backend's own errors can be told apart by their text alone. */
  lemma MessagesIdentifyErrors(e1: Error, e2: Error)
    requires !e1.IsCollaboratorFault() && !e2.IsCollaboratorFault()
    ensures Message(e1) == Message(e2) <==> e1 == e2
  {
    if e1 != e2 {
      // The four fixed texts differ in their first or their tenth character.
      var m1, m2 := Message(e1), Message(e2);
      assert m1[0] != m2[0] || m1[9] != m2[9];
    }
  }
}
