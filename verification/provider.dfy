/** The service provider of geth/provider/provider.go: one fixed node-manager
    reference, one configuration string and five lazily filled cache slots.
    Each Go method becomes a pure function from the provider (plus whatever the
    collaborators answer during the call, plus the next unused instance id) to
    its result and the provider afterwards. */
module Provider {
  import opened Wrappers
  import opened Collaborators

  /** The Go struct, with every nil-able pointer slot as an `Option`. */
  datatype ServiceProvider = ServiceProvider(
    fcmServerKey: string,
    nodeManager: NodeManagerRef,
    accountManager: Option<AccountManagerRef>,
    jailManager: Option<JailRef>,
    txQueueManager: Option<TxQueueRef>,
    account: Option<AccountsHandle>,
    whisper: Option<WhisperHandle>)

  /** What an accessor that constructs nothing hands back: its Go return value
      and the provider after the call. */
  datatype Reply<+R> = Reply(result: R, provider: ServiceProvider)

  /** What an accessor that may construct a new instance hands back; `next` is
      the first instance id not yet used after the call. */
  datatype Step<+R> = Step(result: R, provider: ServiceProvider, next: nat)

  /** The mutable fields of the provider (the node manager is never written). */
  datatype Field =
    | FcmServerKey
    | AccountManagerSlot
    | JailManagerSlot
    | TxQueueManagerSlot
    | AccountSlot
    | WhisperSlot

  /** The five lazily filled slots, which Reset clears. */
  const LazySlots: set<Field> :=
    {AccountManagerSlot, JailManagerSlot, TxQueueManagerSlot, AccountSlot, WhisperSlot}

  /** `q` differs from `p` at most in the fields listed in `changed`; the node
      manager is always the same. */
  predicate AgreeOutside(p: ServiceProvider, q: ServiceProvider, changed: set<Field>)
  {
    && p.nodeManager == q.nodeManager
    && (FcmServerKey !in changed ==> p.fcmServerKey == q.fcmServerKey)
    && (AccountManagerSlot !in changed ==> p.accountManager == q.accountManager)
    && (JailManagerSlot !in changed ==> p.jailManager == q.jailManager)
    && (TxQueueManagerSlot !in changed ==> p.txQueueManager == q.txQueueManager)
    && (AccountSlot !in changed ==> p.account == q.account)
    && (WhisperSlot !in changed ==> p.whisper == q.whisper)
  }

  /** Every lazy slot is absent. */
  predicate AllSlotsEmpty(p: ServiceProvider)
  {
    && p.accountManager.None?
    && p.jailManager.None?
    && p.txQueueManager.None?
    && p.account.None?
    && p.whisper.None?
  }

  /** `New`: only the node manager is set; the key is Go's zero string. */
  function New(nodeManager: NodeManagerRef): (p: ServiceProvider)
    ensures p.nodeManager == nodeManager
    ensures p.fcmServerKey == ""
    ensures AllSlotsEmpty(p)
  {
    ServiceProvider("", nodeManager, None, None, None, None, None)
  }

  /** `SetFCMServerKey`: overwrites the key and nothing else. */
  function SetFCMServerKey(p: ServiceProvider, key: string): (q: ServiceProvider)
    ensures q.fcmServerKey == key
    ensures AgreeOutside(p, q, {FcmServerKey})
  {
    p.(fcmServerKey := key)
  }

  /** `Node`: forwards whatever the node manager answers at the time of the
      call (`answer`); the provider is neither read nor written. */
  function Node(p: ServiceProvider, answer: Result<GethNode, Error>): (r: Result<GethNode, Error>)
    ensures r.Ok? <==> answer.Ok?
    ensures r.Ok? ==> r.value == answer.value
    ensures r.Err? ==> r.error == answer.error
  {
    answer
  }

  /** `Account`: the accounts manager of the running node, memoized on success.
      `node` is what the node manager's `Node()` answers if it is asked. */
  function Account(p: ServiceProvider, node: Result<GethNode, Error>): (r: Reply<Result<AccountsHandle, Error>>)
    // a filled slot is returned as is, whatever the node manager would say
    ensures p.account.Some? ==> r == Reply(Ok(p.account.value), p)
    // a success is always what the slot now holds
    ensures r.result.Ok? ==> r.provider.account == Some(r.result.value)
    ensures p.account.None? && node.Ok? ==> r.result == Ok(node.value.accountManager)
    // a failure is the node manager's own error, and nothing is cached
    ensures r.result.Err? ==> p.account.None? && node.Err? && r.result.error == node.error && r.provider == p
    ensures p.account.None? && node.Err? ==> r == Reply(Err(node.error), p)
    ensures AgreeOutside(p, r.provider, {AccountSlot})
  {
    if p.account.Some? then
      Reply(Ok(p.account.value), p)
    else
      match node
      case Err(e) => Reply(Err(e), p)
      case Ok(n) =>
        var q := p.(account := Some(n.accountManager));
        Reply(Ok(n.accountManager), q)
  }

  /** `AccountKeyStore`: the first keystore backend of the accounts manager.
      `backends` is what `Backends(keystore.KeyStoreType)` reports for a given
      accounts manager at the time of the call. */
  function AccountKeyStore(p: ServiceProvider, node: Result<GethNode, Error>,
                           backends: AccountsHandle -> seq<Backend>): (r: Reply<Result<KeyStoreHandle, Error>>)
    // the only effect on the provider is the one Account has
    ensures r.provider == Account(p, node).provider
    ensures Account(p, node).result.Err? ==> r.result == Err(ErrInvalidAccountManager)
    ensures Account(p, node).result.Ok? ==>
      var bs := backends(Account(p, node).result.value);
      && (r.result.Ok? <==> |bs| > 0 && bs[0].KeyStore?)
      && (r.result.Ok? ==> r.result.value == bs[0].store)
      && (r.result.Err? ==> r.result.error == ErrAccountKeyStoreMissing)
    // node manager errors are never passed through
    ensures r.result.Err? ==> r.result.error == ErrInvalidAccountManager || r.result.error == ErrAccountKeyStoreMissing
  {
    var acct := Account(p, node);
    match acct.result
    case Err(_) => Reply(Err(ErrInvalidAccountManager), acct.provider)
    case Ok(am) =>
      var bs := backends(am);
      if |bs| == 0 then
        Reply(Err(ErrAccountKeyStoreMissing), acct.provider)
      else
        match bs[0]
        case OtherBackend(_) => Reply(Err(ErrAccountKeyStoreMissing), acct.provider)
        case KeyStore(ks) => Reply(Ok(ks), acct.provider)
  }

  /** `Whisper`: `answer` is what `WhisperService()` returns if it is asked. The
      returned pointer is stored whether or not an error came with it. */
  function Whisper(p: ServiceProvider, answer: Returned<WhisperHandle>): (r: Reply<Returned<WhisperHandle>>)
    // whatever pointer is handed back is exactly what the slot holds afterwards
    ensures r.provider.whisper == r.result.handle
    ensures p.whisper.Some? ==> r == Reply(Returned(p.whisper, None), p)
    ensures p.whisper.None? ==> r.result == answer
    ensures AgreeOutside(p, r.provider, {WhisperSlot})
  {
    if p.whisper.Some? then
      Reply(Returned(p.whisper, None), p)
    else
      var q := p.(whisper := answer.handle);
      Reply(Returned(q.whisper, answer.err), q)
  }

  /** `NodeManager`: the reference fixed by `New`. */
  function NodeManager(p: ServiceProvider): (r: NodeManagerRef)
    // a reset provider answers the same reference
    ensures r == Reset(p).nodeManager
  {
    p.nodeManager
  }

  /** `AccountManager`: memoized and infallible; the first call on an empty slot
      builds a new manager with id `next`. */
  function AccountManager(p: ServiceProvider, next: nat): (r: Step<Result<AccountManagerRef, Error>>)
    ensures r.result.Ok?
    ensures r.provider.accountManager == Some(r.result.value)
    ensures p.accountManager.Some? ==> r == Step(Ok(p.accountManager.value), p, next)
    ensures p.accountManager.None? ==> r.result.value.id == next && r.next == next + 1
    ensures AgreeOutside(p, r.provider, {AccountManagerSlot})
  {
    if p.accountManager.Some? then
      Step(Ok(p.accountManager.value), p, next)
    else
      var m := AccountManagerRef(next);
      Step(Ok(m), p.(accountManager := Some(m)), next + 1)
  }

  /** `JailManager`: returns a filled slot, but never fills it: on an empty slot
      every call builds a new jail bound to the node manager. */
  function JailManager(p: ServiceProvider, next: nat): (r: Step<JailRef>)
    ensures r.provider == p
    ensures p.jailManager.Some? ==> r.result == p.jailManager.value && r.next == next
    ensures p.jailManager.None? ==>
      && r.result.id == next && r.next == next + 1
      && r.result.nodeManager == p.nodeManager
  {
    if p.jailManager.Some? then
      Step(p.jailManager.value, p, next)
    else
      Step(JailRef(next, p.nodeManager), p, next + 1)
  }

  /** `TxQueueManager`: like `JailManager` it never fills its own slot; on an
      empty slot it goes through `AccountManager` (which may fill that slot) and
      builds a new transaction manager. Since `AccountManager` cannot fail, the
      nil return is never produced. */
  function TxQueueManager(p: ServiceProvider, next: nat): (r: Step<Option<TxQueueRef>>)
    ensures r.result.Some?
    ensures r.provider.txQueueManager == p.txQueueManager
    ensures AgreeOutside(p, r.provider, {AccountManagerSlot})
    ensures p.txQueueManager.Some? ==> r == Step(p.txQueueManager, p, next)
    ensures p.txQueueManager.None? ==>
      && r.provider.accountManager.Some?
      && r.result.value.accountManager == r.provider.accountManager.value
      && r.result.value.nodeManager == p.nodeManager
      && next <= r.result.value.id && r.next == r.result.value.id + 1
    // the new transaction manager is bound to the account manager that
    // AccountManager hands out, which keeps one that is already cached
    ensures p.txQueueManager.None? ==>
      var am := AccountManager(p, next);
      && r.provider == am.provider
      && r.result == Some(TxQueueRef(am.next, p.nodeManager, am.result.value))
      && r.next == am.next + 1
  {
    if p.txQueueManager.Some? then
      Step(p.txQueueManager, p, next)
    else
      var am := AccountManager(p, next);
      match am.result
      case Err(_) => Step(None, am.provider, am.next)
      case Ok(m) => Step(Some(TxQueueRef(am.next, p.nodeManager, m)), am.provider, am.next + 1)
  }

  /** `Reset`: empties the five lazy slots; the node manager and the key stay. */
  function Reset(p: ServiceProvider): (q: ServiceProvider)
    ensures AllSlotsEmpty(q)
    ensures AgreeOutside(p, q, LazySlots)
  {
    p.(accountManager := None, jailManager := None, txQueueManager := None, account := None, whisper := None)
  }
}
