/**
 * The onboarding scratch store: identifiers produced mid-signup, kept under
 * one fixed key and merged field by field on every write.
 */
module OnboardingStorage {
  import opened Wrappers
  import opened Storage

  const OnboardingDataKey := "@lustless:onboarding-data"

  /** What `getOnboardingData` yields for storage `s`: null when absent or unreadable. */
  function ReadOnboarding(s: map<string, Entry>, readFails: bool): Option<OnboardingData> {
    if readFails || OnboardingDataKey !in s then None
    else match s[OnboardingDataKey]
      case OnboardingEntry(d) => Some(d)
      case TokensEntry(_) => None
  }

  /** One field of the object spread `{ ...existing, ...data }`: a present field of `data` wins. */
  function Override(existing: Option<string>, update: Option<string>): Option<string> {
    if update.Some? then update else existing
  }

  /** `{ ...existing, ...data }`, where spreading a null `existing` contributes nothing. */
  function Merge(existing: Option<OnboardingData>, data: OnboardingData): (r: OnboardingData)
    ensures data.idDocumentId.Some? ==> r.idDocumentId == data.idDocumentId
    ensures data.selfieId.Some? ==> r.selfieId == data.selfieId
    ensures data.email.Some? ==> r.email == data.email
    ensures data.idDocumentId.None? ==> r.idDocumentId == (if existing.Some? then existing.value.idDocumentId else None)
    ensures data.selfieId.None? ==> r.selfieId == (if existing.Some? then existing.value.selfieId else None)
    ensures data.email.None? ==> r.email == (if existing.Some? then existing.value.email else None)
  {
    var base := existing.GetOr(OnboardingData(None, None, None));
    OnboardingData(
      Override(base.idDocumentId, data.idDocumentId),
      Override(base.selfieId, data.selfieId),
      Override(base.email, data.email))
  }

  /** The storage after `setOnboardingData(data)`: read, merge, write back. */
  function StoreAfterSet(s: map<string, Entry>, readFails: bool, writeFails: bool, data: OnboardingData): map<string, Entry> {
    if writeFails then s
    else s[OnboardingDataKey := OnboardingEntry(Merge(ReadOnboarding(s, readFails), data))]
  }

  method GetOnboardingData(store: KeyValueStore) returns (data: Option<OnboardingData>)
    ensures data == ReadOnboarding(store.entries, store.readFails)
    ensures data.Some? ==> OnboardingDataKey in store.entries && store.entries[OnboardingDataKey] == OnboardingEntry(data.value)
  {
    if store.readFails {
      return None;
    }
    if OnboardingDataKey in store.entries && store.entries[OnboardingDataKey].OnboardingEntry? {
      data := Some(store.entries[OnboardingDataKey].data);
    } else {
      data := None;
    }
  }

  method SetOnboardingData(store: KeyValueStore, data: OnboardingData)
    modifies store
    ensures store.entries == StoreAfterSet(old(store.entries), store.readFails, store.writeFails, data)
  {
    var existing := GetOnboardingData(store);
    var merged := Merge(existing, data);
    if !store.writeFails {
      store.entries := store.entries[OnboardingDataKey := OnboardingEntry(merged)];
    }
  }

  method ClearOnboardingData(store: KeyValueStore)
    modifies store
    ensures store.entries == if store.writeFails then old(store.entries) else old(store.entries) - {OnboardingDataKey}
  {
    if !store.writeFails {
      store.entries := store.entries - {OnboardingDataKey};
    }
  }

  /** Writing into an empty store stores exactly the given record. */
  lemma MergeIntoEmpty(data: OnboardingData)
    ensures Merge(None, data) == data
  {
  }

  /** Merging the same record twice is the same as merging it once. */
  lemma MergeIdempotent(existing: Option<OnboardingData>, data: OnboardingData)
    ensures Merge(Some(Merge(existing, data)), data) == Merge(existing, data)
  {
  }

  /** set(d) on a store without the key, then get(), yields d. */
  lemma SetOnEmptyThenGet(s: map<string, Entry>, data: OnboardingData)
    requires OnboardingDataKey !in s
    ensures ReadOnboarding(StoreAfterSet(s, false, false, data), false) == Some(data)
  {
  }

  /** Repeating set(d) leaves the same storage as doing it once, whether or not reads fail. */
  lemma SetIdempotent(s: map<string, Entry>, readFails: bool, writeFails: bool, data: OnboardingData)
    ensures StoreAfterSet(StoreAfterSet(s, readFails, writeFails, data), readFails, writeFails, data)
         == StoreAfterSet(s, readFails, writeFails, data)
  {
    if !writeFails && !readFails {
      MergeIdempotent(ReadOnboarding(s, readFails), data);
    }
  }

  /** After clear, get() returns null, and no other key changes. */
  lemma ClearThenGet(s: map<string, Entry>, readFails: bool, k: string)
    requires k != OnboardingDataKey
    ensures ReadOnboarding(s - {OnboardingDataKey}, readFails) == None
    ensures k in s - {OnboardingDataKey} <==> k in s
  {
  }

  /** A failing read yields null whatever is stored. */
  lemma ReadFailureIsAbsent(s: map<string, Entry>)
    ensures ReadOnboarding(s, true) == None
  {
  }
}
