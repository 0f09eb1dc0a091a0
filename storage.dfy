/**
 * The device's durable key-value storage (AsyncStorage), shared by the token
 * store and the onboarding scratch store. Values are kept as the records they
 * encode; JSON encoding is not modelled.
 */
module Storage {
  import opened Wrappers
  import opened ApiTypes

  /** The onboarding scratch record: identifiers produced mid-signup, each optional. */
  datatype OnboardingData = OnboardingData(idDocumentId: Option<string>, selfieId: Option<string>, email: Option<string>)

  /** A stored value, as decoded from its JSON text. */
  datatype Entry = TokensEntry(tokens: Tokens) | OnboardingEntry(data: OnboardingData)

  /**
   * The storage itself. `readFails` and `writeFails` describe the device:
   * when set, every read (respectively write or removal) rejects, and the
   * callers swallow the error. A failure is thus a fixed condition of the
   * device, not of a single call.
   */
  class KeyValueStore {
    const readFails: bool
    const writeFails: bool
    var entries: map<string, Entry>

    constructor (entries: map<string, Entry>, readFails: bool, writeFails: bool)
      ensures this.entries == entries && this.readFails == readFails && this.writeFails == writeFails
    {
      this.entries := entries;
      this.readFails := readFails;
      this.writeFails := writeFails;
    }
  }
}
