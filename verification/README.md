# Asset ownership chaincode, modelled in Dafny

This project models the asset chaincode in `asset.go`, a ledger program that
records who owns each asset and transfers ownership when an auction on the
asset ends. The ledger is a key-value store. Each asset is kept under the key
`"assets_" + ID`. The chaincode mutates it in three ways:

- `addAsset` upserts a record.
- `setAuction` binds an auction id to an existing asset by setting its `PendingAuction`.
- `endAuction` settles the binding. It asks the auction-result service for the
  outcome. If the auction has ended, the highest bidder becomes owner and the
  binding is cleared, in one write.

The one read-only query, `getAsset`, returns the stored value unchanged.

Files:

- `wrappers.dfy`: `Option` and `Result`.
- `assets.dfy` (module `Assets`): the records, the key layout, and the two field-update rules.
- `registry.dfy` (module `Registry`): every handler as a pure function from the ledger before the invocation to the error it returns and the ledger after it.
- `chaincode.dfy` (module `Chaincode`): the chaincode object. `Invoke` and `Query` store the stub and the arguments in fields. The handlers read and write the stub's state in place. Each handler is proved equal to its `Registry` function.
- `safety.dfy` (module `Safety`): properties over one invocation and over arbitrary sequences of invocations.

Modelling choices:

- The ledger holds decoded `Asset` values, not their JSON bytes. The chaincode only ever writes what `json.Marshal` produced, and that always decodes back to the same record.
- A Go `[]byte` is a `seq<byte>`. A nil `PendingAuction` is `None`, and an empty non-nil one is `Some([])`, so `Some([])` still counts as a pending auction. A nil and an empty `ID` or `Owner` both print as nothing in the key, and the model does not tell them apart.
- `setAuction` copies `AuctionID` as it is. A JSON `null` or a missing `AuctionID` therefore clears the binding instead of setting one.
- An argument string is a `Payload`: what each of the three decoders makes of it. The decoders are JSON into `Asset`, JSON into `SetAuctionArgs`, and base64 into an id. A decoder that fails gives `None`, and the model reports it as `Malformed`.
- Reading `cc.args[0]` from an empty argument list panics in Go. The model reports this as the error `MissingArgument`. No write has happened at that point.
- `getAuctionResult` is replaced by a `Resolver` parameter. A `Resolver` maps an auction id to a result, or to `None` for any failure of the HTTP lookup.

Things the chaincode does not do, as written:

- It keeps no auction records in the ledger and has no `updateAuction`. The auction outcome always comes from the resolver.
- It does not check a claimed result against the binding. After a second binding, the resolver is simply asked about the new auction id (`RebindingReplacesBinding`).
- It does not refuse a binding while another one is pending; the new one overwrites it.

## Model

| member | source | states |
|---|---|---|
| `Assets.MakeAssetKey` | asset.go:193-195 | the key is "assets", then '_', then the id's bytes; the id can be read back from the key |
| `Assets.MakeAssetKeyInjective` | asset.go:14-16 | two ids give the same asset key exactly when they are equal |
| `Assets.BindAuction` | asset.go:104 | the field rule of `setAuction`: ID and Owner are kept and the pending auction becomes exactly the given id (also stated by `Registry.SetAuction`) |
| `Assets.Settle` | asset.go:130-131 | the field rule of `endAuction`: ID is kept, the highest bidder becomes Owner and the pending auction is cleared, together (also stated by `Registry.EndAuction`) |
| `Registry.AddAsset` | asset.go:80-86 | the record `addAsset` stores is exactly the decoded argument; an empty argument list fails with MissingArgument and an undecodable one with Malformed |
| `Registry.Commit` | asset.go:86 | a handler's error is returned with the ledger unchanged; a handler's record is written at the key of its own ID, read back by `getAsset`, and no other key changes |
| `Registry.GetAsset` | asset.go:172-183 | fails with AssetNotFound exactly when the key is absent; otherwise returns the stored record, whose ID is the requested id on a well-keyed ledger |
| `Registry.SetAsset` | asset.go:185-191 | afterwards `getAsset(ID)` returns the record; every other key is unchanged; the key invariant is preserved |
| `Registry.SetAuction` | asset.go:94-107 | succeeds exactly when the binding argument decodes and names a stored asset; a decode failure is returned as is; a missing asset fails with AssetNotFound; the new record keeps ID and Owner and carries exactly the given auction id, replacing any earlier binding |
| `Registry.EndAuction` | asset.go:109-133 | succeeds exactly when the id decodes, the asset exists, it has a pending auction (nil versus empty kept apart), the lookup answers, and the auction has ended; the written record keeps ID, has the highest bidder as Owner and no pending auction |
| `Registry.Invoke` | asset.go:42-62 | a failing invocation leaves the ledger unchanged; only the three named methods succeed and any other name fails with MethodNotFound; at most one key changes, and it holds a record whose ID matches it; the key invariant is preserved |
| `Registry.GetAssetRaw` | asset.go:164-170 | fails only when the id argument fails to decode; returns absence exactly when `getAsset` would report AssetNotFound, and otherwise the same record as `getAsset` |
| `Registry.Query` | asset.go:64-78 | any name but "getAsset" fails with MethodNotFound; "getAsset" is exactly `getAssetRaw`, so a result is the record `getAsset` reads, or absence when there is none |
| `Chaincode.Stub.constructor` | asset.go:42-45 | a ledger handle as the runtime passes it in, holding the given state |
| `Chaincode.Stub.GetState` | asset.go:174 | returns the value at the key, or absence when the key is not stored |
| `Chaincode.Stub.PutState` | asset.go:190 | the key now holds the value and no other key changes |
| `Chaincode.AssetChaincode.constructor` | asset.go:31-34 | a new chaincode object has no stub and no arguments |
| `Chaincode.AssetChaincode.Invoke` | asset.go:42-62 | stores the stub and the arguments in the fields, then its error and the ledger afterwards are those of `Registry.Invoke` |
| `Chaincode.AssetChaincode.Query` | asset.go:64-78 | stores the stub and the arguments, leaves the ledger untouched, and returns `Registry.Query` |
| `Chaincode.AssetChaincode.AddAsset` | asset.go:80-87 | in-place upsert with no existence check: error and new ledger as `Registry.AddAsset` committed; nothing written on a decode failure |
| `Chaincode.AssetChaincode.SetAuction` | asset.go:94-107 | read-modify-write equal to `Registry.SetAuction` committed; nothing written on any failure |
| `Chaincode.AssetChaincode.EndAuction` | asset.go:109-133 | read-modify-write equal to `Registry.EndAuction` committed: every guard precedes the single write |
| `Chaincode.AssetChaincode.GetAssetRaw` | asset.go:164-170 | reads without writing and returns `Registry.GetAssetRaw` of the current ledger |
| `Chaincode.AssetChaincode.GetAsset` | asset.go:172-183 | reads without writing and returns `Registry.GetAsset` of the current ledger |
| `Chaincode.AssetChaincode.SetAsset` | asset.go:185-191 | the ledger afterwards is the record written at the key of its own ID |
| `Safety.RunKeepsWellKeyed` | asset.go:185-191 | after any sequence of invocations, every stored record still sits at the key of its own ID |
| `Safety.InvokeWritesOnlyNamedAsset` | asset.go:100-106 | on a well-keyed ledger a successful invocation changes only the key of the asset its argument names |
| `Safety.AddAssetThenGetAsset` | asset.go:80-87 | `addAsset` succeeds for every decodable record, and a `getAsset` query afterwards returns that record, whatever was stored before |
| `Safety.SetAuctionOnMissingAsset` | asset.go:100-103 | `setAuction` on an absent asset fails with AssetNotFound and writes nothing |
| `Safety.EndAuctionRefusals` | asset.go:114-128 | missing asset, no pending auction, failed lookup and unended auction each fail with their own error and write nothing |
| `Safety.EndAuctionTransfersOnce` | asset.go:118-132 | a successful settlement stores ID, the highest bidder as Owner and no binding; a second `endAuction` right after it fails with NoPendingAuction whatever the service answers |
| `Safety.SettlementNotReplayable` | asset.go:118-120 | after a settlement of an asset, every later `endAuction` of it fails with NoPendingAuction until an `addAsset` or `setAuction` names it again, whatever other invocations come in between |
| `Safety.OwnerChangesOnlyBySettlement` | asset.go:129-131 | an invocation other than `addAsset` that changes an asset's owner is an `endAuction` of that asset whose auction has ended, and the new owner is its highest bidder |
| `Safety.RebindingReplacesBinding` | asset.go:104 | after two `setAuction` calls the asset is bound to the second auction id, and settling depends only on the service's answer about that auction |
| `Safety.EmptyAuctionIdIsPending` | asset.go:118-120 | an asset bound to an empty but non-nil auction id counts as pending and is settled when that auction has ended |
| `Safety.NullAuctionIdUnbinds` | asset.go:104 | a `setAuction` whose AuctionID is null clears the binding, after which `endAuction` fails with NoPendingAuction |
| `Safety.ReplayOnMisKeyedLedger` | asset.go:114-132 | on a ledger where a record sits under another asset's key, the same asset can be settled twice, so the key invariant is what makes settlement single-shot |
| `Safety.SettlementScenario` | asset.go:80-133 | adding "A1" owned by "alice", binding it to "X1", then settling while "X1" has ended with "bob" highest, leaves "A1" owned by "bob" with no pending auction |

## Left out

- `getAuctionResult` (HTTP POST to the local auction service, JSON encoding and decoding): replaced by the `Resolver` parameter. Every way the lookup can fail is the single error `AuctionResultUnavailable`.
- JSON `Marshal`/`Unmarshal` and base64 decoding: library codecs. Argument decoding is the `Payload` abstraction, and the ledger holds decoded records.
- Failures of `json.Marshal`, of `GetState` and of `PutState`, and stored bytes that do not decode: the in-memory ledger never fails, and the chaincode writes only encodable records.
- `main`, `shim.Start`, `Init` and `log.Fatalf`: runtime start-up, with no state.
- Transaction atomicity and concurrent invocations: the ledger runtime provides them. `Safety.Run` applies invocations one after another.
- The auction's `HighestBid` and the `AuctionResultRequest` type: neither takes part in settlement.
- Exact error-message strings: each failure is a distinct `Error` constructor.
