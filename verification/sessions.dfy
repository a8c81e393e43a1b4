/** Sequences of calls on one provider. A `World` is the provider together with
    the next unused instance id of the process; a `Call` is one Go method call
    together with what the collaborators answer during it. The lemmas here are
    about every sequence of calls: what is never touched, what a cached slot
    keeps, and what Reset forces to be rebuilt. */
module Sessions {
  import opened Wrappers
  import opened Collaborators
  import P = Provider

  /** The provider methods a caller can invoke. */
  datatype Request =
    | SetKey(key: string)
    | GetNode
    | GetAccount
    | GetAccountKeyStore
    | GetWhisper
    | GetNodeManager
    | GetAccountManager
    | GetJailManager
    | GetTxQueueManager
    | ResetAll

  /** What the collaborators answer during one call, if they are asked: the node
      manager's `Node()` and `WhisperService()`, and `Backends(KeyStoreType)` of
      an accounts manager. */
  datatype Env = Env(
    node: Result<GethNode, Error>,
    whisper: Returned<WhisperHandle>,
    backends: AccountsHandle -> seq<Backend>)

  datatype Call = Call(request: Request, env: Env)

  datatype World = World(provider: P.ServiceProvider, next: nat)

  /** One call's effect on the world. */
  function Exec(w: World, c: Call): (r: World)
    ensures w.next <= r.next
  {
    var p := w.provider;
    match c.request
    case SetKey(k) => World(P.SetFCMServerKey(p, k), w.next)
    case GetNode => w
    case GetAccount => World(P.Account(p, c.env.node).provider, w.next)
    case GetAccountKeyStore => World(P.AccountKeyStore(p, c.env.node, c.env.backends).provider, w.next)
    case GetWhisper => World(P.Whisper(p, c.env.whisper).provider, w.next)
    case GetNodeManager => w
    case GetAccountManager =>
      var s := P.AccountManager(p, w.next);
      World(s.provider, s.next)
    case GetJailManager =>
      var s := P.JailManager(p, w.next);
      World(s.provider, s.next)
    case GetTxQueueManager =>
      var s := P.TxQueueManager(p, w.next);
      World(s.provider, s.next)
    case ResetAll => World(P.Reset(p), w.next)
  }

  /** A sequence of calls, first call first. */
  function Run(w: World, cs: seq<Call>): World
    decreases |cs|
  {
    if |cs| == 0 then w else Run(Exec(w, cs[0]), cs[1..])
  }

  predicate NoReset(cs: seq<Call>)
  {
    forall i :: 0 <= i < |cs| ==> !cs[i].request.ResetAll?
  }

  /** Every instance the provider built and still caches has an id below `next`,
      so whatever is built next is distinct from it. */
  predicate Fresh(w: World)
  {
    && (w.provider.accountManager.Some? ==> w.provider.accountManager.value.id < w.next)
    && (w.provider.jailManager.Some? ==> w.provider.jailManager.value.id < w.next)
    && (w.provider.txQueueManager.Some? ==> w.provider.txQueueManager.value.id < w.next)
  }

  /** The invariant of every world reachable from `New`: instances are fresh, and
      the jail and transaction slots, which no method writes, are empty. */
  predicate Invariant(w: World)
  {
    && Fresh(w)
    && w.provider.jailManager.None?
    && w.provider.txQueueManager.None?
  }

  /** Every slot filled in `p` is filled with the same value in `q`. */
  predicate Extends(p: P.ServiceProvider, q: P.ServiceProvider)
  {
    && (p.accountManager.Some? ==> q.accountManager == p.accountManager)
    && (p.jailManager.Some? ==> q.jailManager == p.jailManager)
    && (p.txQueueManager.Some? ==> q.txQueueManager == p.txQueueManager)
    && (p.account.Some? ==> q.account == p.account)
    && (p.whisper.Some? ==> q.whisper == p.whisper)
  }

  /** The life of one lazy slot: it keeps its value, goes from absent to
      present, or (on Reset only) becomes absent. */
  predicate SlotStep<T(==)>(before: Option<T>, after: Option<T>, reset: bool)
  {
    || after == before
    || (before.None? && after.Some?)
    || (reset && after.None?)
  }

  /** The most recent key set in `cs`, or `initial` if `cs` sets none. */
  function LastKey(initial: string, cs: seq<Call>): string
    decreases |cs|
  {
    if |cs| == 0 then initial
    else if cs[|cs| - 1].request.SetKey? then cs[|cs| - 1].request.key
    else LastKey(initial, cs[..|cs| - 1])
  }

  lemma NewSatisfiesInvariant(nm: NodeManagerRef, next: nat)
    ensures Invariant(World(P.New(nm), next))
  {
  }

  /** Every method call keeps the invariant. */
  lemma ExecPreservesInvariant(w: World, c: Call)
    requires Invariant(w)
    ensures Invariant(Exec(w, c))
  {
  }

  lemma {:induction false} RunPreservesInvariant(w: World, cs: seq<Call>)
    requires Invariant(w)
    ensures Invariant(Run(w, cs))
    decreases |cs|
  {
    if |cs| > 0 {
      ExecPreservesInvariant(w, cs[0]);
      RunPreservesInvariant(Exec(w, cs[0]), cs[1..]);
    }
  }

  /** In particular a provider built by `New` never has a cached jail or
      transaction manager, whatever is called on it. */
  lemma {:induction false} JailAndTxQueueSlotsStayEmpty(nm: NodeManagerRef, next: nat, cs: seq<Call>)
    ensures Run(World(P.New(nm), next), cs).provider.jailManager.None?
    ensures Run(World(P.New(nm), next), cs).provider.txQueueManager.None?
  {
    NewSatisfiesInvariant(nm, next);
    RunPreservesInvariant(World(P.New(nm), next), cs);
  }

  /** `NodeManager()` answers the same reference after any sequence of calls,
      any number of Resets included. */
  lemma {:induction false} NodeManagerStable(w: World, cs: seq<Call>)
    ensures P.NodeManager(Run(w, cs).provider) == P.NodeManager(w.provider)
    decreases |cs|
  {
    if |cs| > 0 {
      NodeManagerStable(Exec(w, cs[0]), cs[1..]);
    }
  }

  /** Each lazy slot follows its life cycle in every call. */
  lemma ExecFollowsSlotLifecycle(w: World, c: Call)
    ensures var q := Exec(w, c).provider; var p := w.provider; var reset := c.request.ResetAll?;
      && SlotStep(p.accountManager, q.accountManager, reset)
      && SlotStep(p.jailManager, q.jailManager, reset)
      && SlotStep(p.txQueueManager, q.txQueueManager, reset)
      && SlotStep(p.account, q.account, reset)
      && SlotStep(p.whisper, q.whisper, reset)
  {
  }

  /** No call other than Reset empties or replaces a filled slot. */
  lemma ExecExtends(w: World, c: Call)
    requires !c.request.ResetAll?
    ensures Extends(w.provider, Exec(w, c).provider)
  {
  }

  /** Hence, until the next Reset, every cached instance stays cached. */
  lemma {:induction false} RunExtends(w: World, cs: seq<Call>)
    requires NoReset(cs)
    ensures Extends(w.provider, Run(w, cs).provider)
    decreases |cs|
  {
    if |cs| > 0 {
      ExecExtends(w, cs[0]);
      RunExtends(Exec(w, cs[0]), cs[1..]);
    }
  }

  /** The account manager handed out once is the one handed out after any
      Reset-free sequence of calls. */
  lemma AccountManagerSameUntilReset(w: World, cs: seq<Call>)
    requires NoReset(cs)
    ensures var s := P.AccountManager(w.provider, w.next);
      var after := Run(World(s.provider, s.next), cs);
      P.AccountManager(after.provider, after.next).result == s.result
  {
    var s := P.AccountManager(w.provider, w.next);
    RunExtends(World(s.provider, s.next), cs);
  }

  /** After a Reset, the next `AccountManager` call builds a new instance,
      distinct from the one cached before. */
  lemma ResetForcesNewAccountManager(w: World, env: Env)
    requires Fresh(w)
    ensures var after := Exec(w, Call(ResetAll, env));
      var m := P.AccountManager(after.provider, after.next).result.value;
      && m.id == w.next
      && (w.provider.accountManager.Some? ==> m != w.provider.accountManager.value)
  {
  }

  lemma {:induction false} RunSnoc(w: World, cs: seq<Call>, c: Call)
    ensures Run(w, cs + [c]) == Exec(Run(w, cs), c)
    decreases |cs|
  {
    if |cs| == 0 {
      assert cs + [c] == [c];
    } else {
      assert (cs + [c])[1..] == cs[1..] + [c];
      RunSnoc(Exec(w, cs[0]), cs[1..], c);
    }
  }

  /** The configured key after any sequence of calls is the last one set, or
      the initial one: no accessor and no Reset touches it. */
  lemma {:induction false} RunKeepsLastKey(w: World, cs: seq<Call>)
    ensures Run(w, cs).provider.fcmServerKey == LastKey(w.provider.fcmServerKey, cs)
    decreases |cs|
  {
    if |cs| > 0 {
      var init := cs[..|cs| - 1];
      var c := cs[|cs| - 1];
      assert cs == init + [c];
      RunSnoc(w, init, c);
      RunKeepsLastKey(w, init);
    }
  }
}
