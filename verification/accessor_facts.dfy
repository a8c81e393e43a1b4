/** Facts relating two or more calls on the provider: what is memoized, what
    is rebuilt on every call, what a failure leaves behind, and how Reset and
    SetFCMServerKey relate to New. */
module AccessorFacts {
  import opened Wrappers
  import opened Collaborators
  import opened Provider

  /** Once `Account` has succeeded, asking again gives the identical manager and
      leaves the provider as it is, whatever the node manager would now say. */
  lemma AccountMemoized(p: ServiceProvider, first: Result<GethNode, Error>, later: Result<GethNode, Error>)
    requires Account(p, first).result.Ok?
    ensures Account(Account(p, first).provider, later) == Account(p, first)
  {
  }

  /** A failing `Account` does not poison the slot: once the node is running
      the next call succeeds and caches the node's accounts manager. */
  lemma AccountFailureNotCached(p: ServiceProvider, e: Error, n: GethNode)
    requires p.account.None?
    ensures Account(p, Err(e)) == Reply(Err(e), p)
    ensures Account(Account(p, Err(e)).provider, Ok(n)).result == Ok(n.accountManager)
    ensures Account(Account(p, Err(e)).provider, Ok(n)).provider.account == Some(n.accountManager)
  {
  }

  /** As written, `Whisper` caches a non-nil service even when the node manager
      returned it together with an error; every later call then reports that
      service with no error. */
  lemma WhisperCachesHandleReturnedWithError(p: ServiceProvider, w: WhisperHandle, e: Error, later: Returned<WhisperHandle>)
    requires p.whisper.None?
    ensures Whisper(p, Returned(Some(w), Some(e))).result == Returned(Some(w), Some(e))
    ensures Whisper(Whisper(p, Returned(Some(w), Some(e))).provider, later).result == Returned(Some(w), None)
  {
  }

  /** A nil service returned with an error leaves the slot empty, so a later
      successful answer is taken and cached. */
  lemma WhisperRetriesAfterNilError(p: ServiceProvider, e: Error, w: WhisperHandle)
    requires p.whisper.None?
    ensures Whisper(p, Returned(None, Some(e))).provider == p
    ensures Whisper(p, Returned(None, Some(e))).result == Returned(None, Some(e))
    ensures Whisper(Whisper(p, Returned(None, Some(e))).provider, Returned(Some(w), None)).provider.whisper == Some(w)
  {
  }

  /** `AccountManager` builds at most one instance: a second call returns the
      first call's manager, constructs nothing and changes nothing. */
  lemma AccountManagerMemoized(p: ServiceProvider, next: nat)
    ensures var s := AccountManager(p, next);
      AccountManager(s.provider, s.next) == s
  {
  }

  /** `JailManager` on an empty slot hands out a new jail on every call: two
      calls in a row give distinct instances and leave the provider unchanged. */
  lemma JailManagerNeverMemoized(p: ServiceProvider, next: nat)
    requires p.jailManager.None?
    ensures var s1 := JailManager(p, next);
      var s2 := JailManager(s1.provider, s1.next);
      && s1.provider == p && s2.provider == p
      && s1.result != s2.result
  {
  }

  /** `TxQueueManager` on an empty slot hands out a new transaction manager on
      every call, while both share the one memoized account manager. */
  lemma TxQueueManagerNeverMemoized(p: ServiceProvider, next: nat)
    requires p.txQueueManager.None?
    ensures var s1 := TxQueueManager(p, next);
      var s2 := TxQueueManager(s1.provider, s1.next);
      && s2.provider == s1.provider
      && s1.result.value != s2.result.value
      && s1.result.value.accountManager == s2.result.value.accountManager
  {
  }

  /** `Reset` brings the provider back to what `New` builds, except that the
      configured key is kept. */
  lemma ResetIsNewWithKey(p: ServiceProvider)
    ensures Reset(p) == SetFCMServerKey(New(p.nodeManager), p.fcmServerKey)
  {
  }

  /** After `Reset`, `Account` and `Whisper` ask the node manager again instead
      of answering from the slots filled before. */
  lemma ResetForcesFreshLookups(p: ServiceProvider, node: Result<GethNode, Error>, answer: Returned<WhisperHandle>)
    ensures node.Ok? ==> Account(Reset(p), node).result == Ok(node.value.accountManager)
    ensures node.Err? ==> Account(Reset(p), node).result == Err(node.error)
    ensures Whisper(Reset(p), answer).result == answer
  {
  }

  /** Resetting twice is resetting once, and a new provider has nothing to reset. */
  lemma ResetIdempotent(p: ServiceProvider, nm: NodeManagerRef)
    ensures Reset(Reset(p)) == Reset(p)
    ensures Reset(New(nm)) == New(nm)
  {
  }

  /** Setting the key twice with the same value is setting it once; of two
      settings the last wins. */
  lemma SetFCMServerKeyIdempotent(p: ServiceProvider, k1: string, k2: string)
    ensures SetFCMServerKey(SetFCMServerKey(p, k1), k1) == SetFCMServerKey(p, k1)
    ensures SetFCMServerKey(SetFCMServerKey(p, k1), k2) == SetFCMServerKey(p, k2)
  {
  }

  /** The key and the lazy slots are independent: setting the key commutes with
      `Reset`. */
  lemma SetFCMServerKeyCommutesWithReset(p: ServiceProvider, key: string)
    ensures Reset(SetFCMServerKey(p, key)) == SetFCMServerKey(Reset(p), key)
  {
  }
}
