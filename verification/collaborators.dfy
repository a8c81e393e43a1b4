/** The collaborators the service provider talks to, reduced to opaque handles.
    Their internals (go-ethereum's node, accounts, keystore and whisper packages,
    status-go's account, jail, transactions and node packages) are not modelled:
    only the identity of each instance and the answers the provider consumes. */
module Collaborators {
  import opened Wrappers

  /** The status-go node manager the provider is built around. */
  datatype NodeManagerRef = NodeManagerRef(id: nat)

  /** go-ethereum's accounts.Manager, owned by a running node. */
  datatype AccountsHandle = AccountsHandle(id: nat)

  /** A running go-ethereum node; `node.AccountManager()` is fixed when the node is built. */
  datatype GethNode = GethNode(id: nat, accountManager: AccountsHandle)

  /** The whisper (v6) messaging service. */
  datatype WhisperHandle = WhisperHandle(id: nat)

  /** go-ethereum's keystore.KeyStore. */
  datatype KeyStoreHandle = KeyStoreHandle(id: nat)

  /** One wallet backend reported by `accounts.Manager.Backends`: either a
      `*keystore.KeyStore` or a backend of some other concrete type. */
  datatype Backend = KeyStore(store: KeyStoreHandle) | OtherBackend(id: nat)

  /** status-go's account.Manager. It holds a back-reference to the provider that
      built it; the model keeps only its instance identity. */
  datatype AccountManagerRef = AccountManagerRef(id: nat)

  /** status-go's jail.Jail, bound to the node manager it was built with. */
  datatype JailRef = JailRef(id: nat, nodeManager: NodeManagerRef)

  /** status-go's transactions.Manager, bound to a node manager and an account manager. */
  datatype TxQueueRef = TxQueueRef(id: nat, nodeManager: NodeManagerRef, accountManager: AccountManagerRef)

  /** Errors the provider returns. The two account errors are status-go's
      `account.ErrInvalidAccountManager` and `account.ErrAccountKeyStoreMissing`;
      anything the node manager reports is carried through as `NodeManagerError`. */
  datatype Error =
    | ErrInvalidAccountManager
    | ErrAccountKeyStoreMissing
    | NodeManagerError(reason: string)

  /** A Go `(pointer, error)` return taken literally: both halves are independent,
      so a non-nil pointer may come back together with a non-nil error. */
  datatype Returned<+T> = Returned(handle: Option<T>, err: Option<Error>)
}
