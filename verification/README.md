# status-go service provider, modelled in Dafny

This project models `ServiceProvider` from status-go (`geth/provider/provider.go`).
It is the registry through which status-go's managers reach each other and go-ethereum.
A provider holds:

- one node-manager reference, fixed by `New`;
- one configuration string, the FCM server key;
- five lazily filled cache slots: the status-go account manager, the jail, the transaction queue manager, go-ethereum's accounts manager and the whisper service.

Every Go method is a pure Dafny function. It takes the provider, plus what the collaborators answer during the call. Constructors also take `next`, the first unused instance id. It returns the Go return value and the provider after the call.
Collaborators are opaque handles:

- the node manager's `Node()` is a `Result` argument;
- `WhisperService()` is a literal Go `(pointer, error)` pair (`Returned`), because the provider stores the pointer without looking at the error;
- `node.AccountManager()` is a field of the node handle;
- `Backends(keystore.KeyStoreType)` is a function argument from accounts manager to backend list;
- `account.NewManager`, `jail.New` and `transactions.NewManager` mint a handle whose id is `next` and advance `next`.

Files:

- `wrappers.dfy`: `Option` and `Result`.
- `collaborators.dfy`: the handles and the error kinds.
- `provider.dfy`: the provider state and its eleven operations.
- `accessor_facts.dfy`: facts relating two or three calls.
- `sessions.dfy`: arbitrary sequences of calls (`Exec`, `Run`), their invariant, and what survives until a Reset.

Three behaviours of the code as written:

- `JailManager` and `TxQueueManager` never write their own slots. On an empty slot each call builds a new instance, and a provider built by `New` never has either slot filled.
- `AccountManager` cannot fail, so `TxQueueManager` never returns nil.
- `Whisper` caches whatever pointer `WhisperService()` returned, even one returned together with an error. A nil pointer with an error leaves the slot empty, so the next call asks again.

## Model

| member | source | states |
|---|---|---|
| Provider.New | geth/provider/provider.go:27-32 | the new provider holds the given node manager, an empty key and five empty slots |
| Provider.SetFCMServerKey | geth/provider/provider.go:34-37 | the key becomes the argument and every other field, node manager included, is unchanged |
| Provider.Node | geth/provider/provider.go:39-42 | the node manager's answer is returned as is, success or error, without consulting any slot |
| Provider.Account | geth/provider/provider.go:44-57 | a filled slot is returned without asking the node manager; on an empty slot a node failure is returned unchanged and the provider is left as it was; a success is the running node's accounts manager and is what the slot holds afterwards; no other field changes |
| Provider.AccountKeyStore | geth/provider/provider.go:59-77 | the provider afterwards is what `Account` leaves; any `Account` failure becomes ErrInvalidAccountManager; an empty backend list or a first backend that is not a keystore gives ErrAccountKeyStoreMissing; otherwise the first backend's keystore is returned; node errors never escape |
| Provider.Whisper | geth/provider/provider.go:79-89 | a filled slot is returned with no error; otherwise the node manager's pointer and error are both returned unchanged; in every case the returned pointer is exactly what the slot holds afterwards |
| Provider.NodeManager | geth/provider/provider.go:91-94 | returns the node-manager reference stored by `New`, and a reset provider returns the same one; that it stays the same after any sequence of calls and resets is stated by `Sessions.NodeManagerStable` |
| Provider.AccountManager | geth/provider/provider.go:96-105 | never fails; the returned manager is what the slot holds afterwards; a filled slot is returned with nothing built; an empty slot gets a new manager with the next unused id |
| Provider.JailManager | geth/provider/provider.go:107-114 | the provider is never changed; a filled slot is returned; otherwise a new jail with the next unused id, bound to the provider's node manager, is returned |
| Provider.TxQueueManager | geth/provider/provider.go:116-126 | never nil; its own slot is never written; only the account-manager slot may change; on an empty slot the provider afterwards is what `AccountManager` leaves (a cached account manager is kept), and the new transaction manager has the next id after that call and is bound to the node manager and to the account manager `AccountManager` handed out |
| Provider.Reset | geth/provider/provider.go:128-135 | all five lazy slots are empty afterwards; the node manager and the key are unchanged |
| AccessorFacts.AccountMemoized | geth/provider/provider.go:45-57 | after a successful `Account`, a second call returns the identical result and provider whatever the node manager now answers |
| AccessorFacts.AccountFailureNotCached | geth/provider/provider.go:50-54 | a failing `Account` returns the error and leaves the provider as it was, so a later call with a running node succeeds and caches |
| AccessorFacts.WhisperCachesHandleReturnedWithError | geth/provider/provider.go:83-88 | a service returned together with an error is cached, and every later call returns it with no error |
| AccessorFacts.WhisperRetriesAfterNilError | geth/provider/provider.go:83-88 | a nil service returned with an error leaves the slot empty, and a later successful answer is cached |
| AccessorFacts.AccountManagerMemoized | geth/provider/provider.go:97-105 | a second `AccountManager` call returns the same instance, builds nothing and changes nothing |
| AccessorFacts.JailManagerNeverMemoized | geth/provider/provider.go:108-114 | on an empty slot two calls return distinct jails and leave the provider unchanged |
| AccessorFacts.TxQueueManagerNeverMemoized | geth/provider/provider.go:117-126 | on an empty slot two calls return distinct transaction managers sharing one memoized account manager |
| AccessorFacts.ResetIsNewWithKey | geth/provider/provider.go:28-37 | a reset provider equals a new provider on the same node manager with the same key set |
| AccessorFacts.ResetForcesFreshLookups | geth/provider/provider.go:128-135 | after a reset, `Account` answers from the node manager's current answer and `Whisper` returns the node manager's current answer, not the values cached before |
| AccessorFacts.ResetIdempotent | geth/provider/provider.go:129-135 | resetting twice is resetting once, and resetting a new provider changes nothing |
| AccessorFacts.SetFCMServerKeyIdempotent | geth/provider/provider.go:35-37 | setting the same key twice equals setting it once, and the last of two settings wins |
| AccessorFacts.SetFCMServerKeyCommutesWithReset | geth/provider/provider.go:35-37 | setting the key and resetting commute, so the key and the lazy slots are independent |
| Sessions.Exec | geth/provider/provider.go:35-135 | one call of any provider method never decreases the next unused instance id |
| Sessions.NewSatisfiesInvariant | geth/provider/provider.go:28-32 | a new provider satisfies the invariant: no cached instance and empty jail and transaction slots |
| Sessions.ExecPreservesInvariant | geth/provider/provider.go:35-135 | every method call keeps cached instances older than the next id and keeps the jail and transaction slots empty |
| Sessions.RunPreservesInvariant | geth/provider/provider.go:35-135 | the invariant holds after any sequence of calls |
| Sessions.JailAndTxQueueSlotsStayEmpty | geth/provider/provider.go:108-126 | from `New`, no sequence of calls ever fills the jail or transaction slot |
| Sessions.NodeManagerStable | geth/provider/provider.go:92-94 | `NodeManager()` returns the same reference after any sequence of calls, any number of resets included |
| Sessions.ExecFollowsSlotLifecycle | geth/provider/provider.go:45-135 | in every call each lazy slot keeps its value or goes from absent to present; only Reset makes a slot absent |
| Sessions.ExecExtends | geth/provider/provider.go:45-126 | no call other than Reset empties or replaces a filled slot |
| Sessions.RunExtends | geth/provider/provider.go:45-126 | across any Reset-free sequence of calls every filled slot keeps its value |
| Sessions.AccountManagerSameUntilReset | geth/provider/provider.go:97-105 | the account manager handed out once is handed out again after any Reset-free sequence of calls |
| Sessions.ResetForcesNewAccountManager | geth/provider/provider.go:97-105 | after a reset, the next `AccountManager` call builds an instance distinct from the one cached before |
| Sessions.RunKeepsLastKey | geth/provider/provider.go:35-37 | after any sequence of calls the key is the last one set, or the initial key if none was set |

## Left out

- Provider.Node: a `(nil, nil)` answer from the node manager is not modelled. `Account` would dereference the nil node.
- Provider.Account: a running node whose accounts manager is nil is not modelled. go-ethereum's node always has one.
- The internals of go-ethereum's node, accounts, keystore and whisper packages are not modelled, nor those of status-go's account, jail, transactions and node packages. They are opaque handles and answers passed in as arguments.
- `account.NewManager(p)` keeps a back-reference to the provider. The model keeps only the instance identity.
- Concurrency is not modelled. The Go code has no locking around its check-then-create sequences, and every call here is sequential.
- The RPC services in `cmd/api/services.go` are not modelled. Each method only forwards to `net.InterfaceAddrs`, `params.LoadNodeConfig` or the status API, none of which is part of this model.
