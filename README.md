# Creation registry, modelled in Dafny

This model covers the creation registry of a decentralised intellectual-property registry. The registry is a ledger
that maps a caller-chosen creation id to a record. The record holds the creator, title, description, content hash,
registration block height and category. The repository's logic is the mock registry contract in
`tests/creation-registry.test.ts`. That contract keeps two dictionaries in its storage:

- `creations`: creation id to record;
- `creationIdsByCreator`: creator to the ids they registered, in registration order.

It offers three operations:

- `register-creation` enforces first-write uniqueness. It fails with error 101 when the id is already taken.
- `get-creation` is a pure lookup. It answers `null` when the id is absent.
- `update-creation-details` checks "not found" (102) first and then "not authorised" (100). On success it rewrites
  only the title, description and category.

The project has two modules:

- `RegistrySpec` (`registry_spec.dfy`) models the storage as a value and each operation as a transition function.
  Its lemmas state what the contract guarantees. A registration succeeds at most once per id. Only the creator can
  update a record. The creator, content hash and timestamp never change. A failed call changes nothing. The reverse
  index lists each record exactly once, under its creator, and lists nothing else. The lemmas about single calls
  extend to any sequence of calls (`Run`).
- `CreationRegistryContract` (`creation_registry.dfy`) models the contract as a class. Its two map fields are updated
  in place the way the mock writes into its storage: insert the record, create the creator's empty list when it is
  missing, then append the id. Each method is proved equal to its transition function and keeps the invariant
  `Valid()`. `Scenarios` is one scenario, with its own values, that covers each of the test suite's cases against the object.

The ambient transaction sender and block height are explicit parameters (`txSender`, `blockHeight`). The content hash
is an opaque byte string (`seq<bv8>`) compared only by equality. Errors are the enum `Error`. `Code` maps each error
to the contract's numeric code (100, 101, 102).

## Model

| member | source | states |
|---|---|---|
| `RegistrySpec.Register` | tests/creation-registry.test.ts:16-39 | If the id is already stored, the result is `Err(AlreadyRegistered)` and the storage is unchanged. Otherwise the result is `Ok(id)`. The new record has the caller as creator, the block height as timestamp and the supplied title, description, hash and category. The key set grows by exactly that id, and every other record is unchanged. The caller's id list is the old list (empty if absent) plus `[id]`, and every other creator's list is unchanged. |
| `RegistrySpec.Get` | tests/creation-registry.test.ts:41-43 | Returns `Some` exactly when the id is stored, carrying the stored record; otherwise `None`. |
| `RegistrySpec.Update` | tests/creation-registry.test.ts:45-67 | An absent id gives `Err(NotFound)`, for any caller, with unchanged storage. A caller who is not the stored creator gives `Err(NotAuthorized)` with unchanged storage. Otherwise the result is `Ok(true)`. The record's title, description and category become the arguments, while its creator, content hash and timestamp keep their values. The key set is unchanged, no other record changes and the reverse index is untouched. |
| `RegistrySpec.Code` | tests/creation-registry.test.ts:19-55 | Maps each error to the contract's code, and each code back to exactly one error: NotAuthorized is 100, AlreadyRegistered is 101 and NotFound is 102. |
| `RegistrySpec.EmptyConsistent` | tests/creation-registry.test.ts:8-11 | The initial empty storage satisfies the reverse-index invariant. |
| `RegistrySpec.RegisterPreservesConsistent` | tests/creation-registry.test.ts:18-36 | Register preserves the invariant: every listed id is a record by that creator, and every record is listed exactly once under its creator. |
| `RegistrySpec.UpdatePreservesConsistent` | tests/creation-registry.test.ts:45-67 | Update preserves the same invariant. |
| `RegistrySpec.IndexExactlyOnce` | tests/creation-registry.test.ts:33-36 | Under the invariant, an id occurs in creator `c`'s list once if `c` registered it and zero times otherwise. It is in `c`'s list if and only if it is stored with creator `c`. |
| `RegistrySpec.RegisterTwiceFails` | tests/creation-registry.test.ts:97-115 | A second registration of an id, with any arguments and from any caller, returns `Err(AlreadyRegistered)`. It leaves the storage unchanged, and `Get` still returns the first record's fields. |
| `RegistrySpec.GetAfterRegister` | tests/creation-registry.test.ts:119-138 | Right after a successful registration, `Get` returns the record with exactly the supplied fields, the caller as creator and the block height as timestamp. |
| `RegistrySpec.UpdateByOtherFails` | tests/creation-registry.test.ts:187-212 | An update from any identity other than the stored creator returns `Err(NotAuthorized)`, and `Get` still returns the same record. |
| `RegistrySpec.UpdateAbsentFails` | tests/creation-registry.test.ts:179-185 | An update of an absent id returns `Err(NotFound)` and leaves the storage unchanged, and `Get` returns `None` for that id. |
| `RegistrySpec.StepPreservesConsistent` | tests/creation-registry.test.ts:15-68 | Each of the three operations preserves the reverse-index invariant. |
| `RegistrySpec.RunPreservesConsistent` | tests/creation-registry.test.ts:15-68 | Every sequence of calls preserves the reverse-index invariant. |
| `RegistrySpec.RunKeepsFixedFields` | tests/creation-registry.test.ts:59-64 | A stored id stays stored through any sequence of calls, so no key is ever removed. Its creator, content hash and timestamp keep their values. |
| `RegistrySpec.OnlyCreatorChangesRecord` | tests/creation-registry.test.ts:54-56 | Over a sequence of calls that has no update of the id sent by its stored creator, the record stays stored and comes out exactly as it was. So only the creator can change a record. |
| `RegistrySpec.RegisteredStaysTaken` | tests/creation-registry.test.ts:18-20 | After any calls, registering an id that was already stored fails with `Err(AlreadyRegistered)` and changes nothing. So at most one registration of an id succeeds. |
| `RegistrySpec.NeverRegisteredIsAbsent` | tests/creation-registry.test.ts:23-30 | An id absent at the start and not named by any register call in a sequence is still absent afterwards. |
| `RegistrySpec.NeverRegisteredNotFound` | tests/creation-registry.test.ts:140-143 | For such an id, `Get` returns `None` and `Update` returns `Err(NotFound)`. |
| `CreationRegistryContract.CreationRegistry.constructor` | tests/creation-registry.test.ts:71-74 | A fresh registry holds the empty storage and satisfies `Valid()`. |
| `CreationRegistryContract.CreationRegistry.RegisterCreation` | tests/creation-registry.test.ts:16-39 | The in-place insert, list creation and append give the result and the new storage of `Register` on the old storage, and keep `Valid()`. |
| `CreationRegistryContract.CreationRegistry.GetCreation` | tests/creation-registry.test.ts:41-43 | Returns `Get` of the current storage and modifies nothing. |
| `CreationRegistryContract.CreationRegistry.UpdateCreationDetails` | tests/creation-registry.test.ts:45-67 | The in-place overwrite gives the result and the new storage of `Update` on the old storage, and keeps `Valid()`. |

## Left out

- The test harness (`describe`, `it`, `expect`, `beforeEach`) is scaffolding. Its cases are covered by the `Scenarios` method and the lemmas above.
- The global VM object is left out. Its mutable `txSender` and `blockHeight` are parameters of each operation instead, and its unused `contractCalls` field is dropped.
- The string-keyed dispatch table is left out. The three operations are typed methods.
- `Buffer.from` and the byte layout of content hashes are foreign library details. The hash is an opaque byte string compared by equality.
- Membership in `creations` is modelled as map membership, not JavaScript truthiness. On the plain object the mock uses, inherited keys such as `constructor` or `toString` read as truthy. So `register-creation` with such an id answers 101 without registering anything, `get-creation` returns a non-record, and `update-creation-details` answers 100 rather than 102. The same quirk applies to the sender in `creationIdsByCreator`. For a sender such as `constructor` or `__proto__`, line 33 creates no `{ ids: [] }` entry, and the `push` at line 36 then throws. By then line 23 has already stored the record, so the record ends up listed under no creator. The model treats every id and every sender as an ordinary key, so its `Register` never throws and never writes only part of its update.
- Object aliasing is left out. `get-creation` hands back the stored object itself, so a caller who mutates it would change storage. The model returns a record value.
- The `{ ids: [...] }` wrapper around each creator's list is modelled as a plain sequence.
- The on-chain contract that the mock imitates is not part of this model.
