/**
 * The whitelist filter the services apply to a client-supplied update map
 * (`UpdateChatSession`, `UpdateProfile`, `UpdateUserPreference`): a loop
 * over the entries that copies those whose key is allowed.
 */
module UpdateMaps {

  /** The entries of `updates` whose key is in `allowed`, with their values. */
  function Whitelisted<V>(updates: map<string, V>, allowed: set<string>): map<string, V> {
    map k | k in updates.Keys * allowed :: updates[k]
  }

  /**
   * The filtering loop. Go visits the entries in an unspecified order; the
   * loop here picks any remaining key, so every order is covered.
   */
  method FilterUpdates<V>(updates: map<string, V>, allowed: set<string>) returns (filtered: map<string, V>)
    ensures filtered == Whitelisted(updates, allowed)
  {
    filtered := map[];
    var pending := updates.Keys;
    while pending != {}
      invariant pending <= updates.Keys
      invariant filtered.Keys == (updates.Keys - pending) * allowed
      invariant forall k :: k in filtered ==> filtered[k] == updates[k]
      decreases pending
    {
      var key :| key in pending;
      if key in allowed {
        filtered := filtered[key := updates[key]];
      }
      pending := pending - {key};
    }
  }

  /** The filtered map is empty exactly when no key of `updates` is allowed. */
  lemma WhitelistedEmptyIff<V>(updates: map<string, V>, allowed: set<string>)
    ensures Whitelisted(updates, allowed) == map[] <==> updates.Keys * allowed == {}
  {
    if updates.Keys * allowed != {} {
      var k :| k in updates.Keys * allowed;
      assert k in Whitelisted(updates, allowed);
    }
  }

  /** Filtering keeps exactly the allowed keys, each with its original value. */
  lemma WhitelistedEntries<V>(updates: map<string, V>, allowed: set<string>, k: string)
    ensures k in Whitelisted(updates, allowed) <==> k in updates && k in allowed
    ensures k in Whitelisted(updates, allowed) ==> Whitelisted(updates, allowed)[k] == updates[k]
  {
  }

  /** Filtering twice with the same whitelist changes nothing more. */
  lemma WhitelistedIdempotent<V>(updates: map<string, V>, allowed: set<string>)
    ensures Whitelisted(Whitelisted(updates, allowed), allowed) == Whitelisted(updates, allowed)
  {
  }
}
