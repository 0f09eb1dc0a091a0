/**
 * The token store: the session's token triple under one fixed storage key.
 * Reads fail closed (a failure reads as "no tokens"), writes never raise.
 */
module TokenStore {
  import opened Wrappers
  import opened ApiTypes
  import opened Storage

  const AuthTokenKey := "@lustless:auth-tokens"

  /** What `getTokensInfo` yields for storage `s`. */
  function ReadTokens(s: map<string, Entry>, readFails: bool): Option<Tokens> {
    if readFails || AuthTokenKey !in s then None
    else match s[AuthTokenKey]
      case TokensEntry(t) => Some(t)
      case OnboardingEntry(_) => None
  }

  /** The storage after `setTokensInfo(tokens)`: a record is written, `null` deletes the key. */
  function WriteTokens(s: map<string, Entry>, tokens: Option<Tokens>, writeFails: bool): map<string, Entry> {
    if writeFails then s
    else if tokens.Some? then s[AuthTokenKey := TokensEntry(tokens.value)]
    else s - {AuthTokenKey}
  }

  method GetTokensInfo(store: KeyValueStore) returns (tokens: Option<Tokens>)
    ensures tokens == ReadTokens(store.entries, store.readFails)
    ensures tokens.Some? ==> AuthTokenKey in store.entries && store.entries[AuthTokenKey] == TokensEntry(tokens.value)
  {
    if store.readFails {
      return None;
    }
    if AuthTokenKey in store.entries && store.entries[AuthTokenKey].TokensEntry? {
      tokens := Some(store.entries[AuthTokenKey].tokens);
    } else {
      tokens := None;
    }
  }

  method SetTokensInfo(store: KeyValueStore, tokens: Option<Tokens>)
    modifies store
    ensures store.entries == WriteTokens(old(store.entries), tokens, store.writeFails)
  {
    if store.writeFails {
      return;
    }
    if tokens.Some? {
      store.entries := store.entries[AuthTokenKey := TokensEntry(tokens.value)];
    } else {
      store.entries := store.entries - {AuthTokenKey};
    }
  }

  /** set(t) then get() returns t. */
  lemma SetThenGet(s: map<string, Entry>, t: Tokens)
    ensures ReadTokens(WriteTokens(s, Some(t), false), false) == Some(t)
  {
  }

  /** set(null) deletes the key rather than storing an empty value, so get() returns null. */
  lemma ClearDeletesKey(s: map<string, Entry>, readFails: bool)
    ensures AuthTokenKey !in WriteTokens(s, None, false)
    ensures ReadTokens(WriteTokens(s, None, false), readFails) == None
  {
  }

  /** A failing read yields null whatever is stored: fail closed to logged-out. */
  lemma ReadFailureIsLoggedOut(s: map<string, Entry>)
    ensures ReadTokens(s, true) == None
  {
  }

  /** A failing write is swallowed and leaves the storage as it was. */
  lemma WriteFailureKeepsStorage(s: map<string, Entry>, tokens: Option<Tokens>)
    ensures WriteTokens(s, tokens, true) == s
  {
  }

  /** Only the token key is ever touched. */
  lemma OnlyTokenKeyTouched(s: map<string, Entry>, tokens: Option<Tokens>, writeFails: bool, k: string)
    requires k != AuthTokenKey
    ensures k in WriteTokens(s, tokens, writeFails) <==> k in s
    ensures k in s ==> WriteTokens(s, tokens, writeFails)[k] == s[k]
  {
  }

  /** The last write wins: a write followed by another leaves only the second's effect. */
  lemma LastWriteWins(s: map<string, Entry>, first: Option<Tokens>, second: Option<Tokens>, writeFails: bool)
    ensures WriteTokens(WriteTokens(s, first, writeFails), second, writeFails) == WriteTokens(s, second, writeFails)
  {
    if !writeFails && second.None? {
      assert WriteTokens(WriteTokens(s, first, writeFails), second, writeFails).Keys == WriteTokens(s, second, writeFails).Keys;
    }
  }
}
