/**
 * Properties of the asset chaincode over one invocation and over arbitrary
 * sequences of invocations on one ledger.
 */
module Safety {
  import opened Wrappers
  import opened Assets
  import opened Registry

  /** One invocation as the runtime presents it, with the answer the auction service gives during it. */
  datatype Call = Call(name: string, args: seq<Payload>, resolve: Resolver)

  function Exec(s: Store, c: Call): Step
  {
    Invoke(s, c.name, c.args, c.resolve)
  }

  /** The ledger after running the calls one after another (each commits before the next starts). */
  function Run(s: Store, calls: seq<Call>): Store
    decreases |calls|
  {
    if calls == [] then s else Run(Exec(s, calls[0]).store, calls[1..])
  }

  /** The chaincode's own writes keep every record at the key of its own ID, whatever the calls. */
  lemma {:induction false} RunKeepsWellKeyed(s: Store, calls: seq<Call>)
    requires WellKeyed(s)
    ensures WellKeyed(Run(s, calls))
    decreases |calls|
  {
    if calls != [] {
      RunKeepsWellKeyed(Exec(s, calls[0]).store, calls[1..]);
    }
  }

  /** On a well-keyed ledger a successful invocation writes the key of the asset its argument names, and no other. */
  lemma InvokeWritesOnlyNamedAsset(s: Store, c: Call)
    requires WellKeyed(s)
    requires Exec(s, c).err.None?
    ensures c.name == "addAsset" ==> Exec(s, c).store == SetAsset(s, AddAsset(c.args).value)
    ensures c.name == "setAuction" ==>
      forall k :: k != MakeAssetKey(BindingArg(c.args).value.assetId) ==> Lookup(Exec(s, c).store, k) == Lookup(s, k)
    ensures c.name == "endAuction" ==>
      forall k :: k != MakeAssetKey(IdArg(c.args).value) ==> Lookup(Exec(s, c).store, k) == Lookup(s, k)
  {
  }

  /** `addAsset` then `getAsset` gives back the record just added, whatever was stored under that id before. */
  lemma AddAssetThenGetAsset(s: Store, a: Asset, addArgs: seq<Payload>, getArgs: seq<Payload>, resolve: Resolver)
    requires AddAsset(addArgs) == Ok(a)
    requires IdArg(getArgs) == Ok(a.id)
    ensures Invoke(s, "addAsset", addArgs, resolve).err == None
    ensures Query(Invoke(s, "addAsset", addArgs, resolve).store, "getAsset", getArgs) == Ok(Some(a))
  {
  }

  /** `setAuction` on an asset that is not stored fails with AssetNotFound and writes nothing. */
  lemma SetAuctionOnMissingAsset(s: Store, args: seq<Payload>, resolve: Resolver)
    requires BindingArg(args).Ok? && MakeAssetKey(BindingArg(args).value.assetId) !in s
    ensures Invoke(s, "setAuction", args, resolve) == Step(Some(AssetNotFound), s)
  {
  }

  /**
   * Every way `endAuction` is refused, each with its own error and no write:
   * missing asset, no binding, failed lookup, auction not ended.
   */
  lemma EndAuctionRefusals(s: Store, args: seq<Payload>, resolve: Resolver, id: Bytes)
    requires IdArg(args) == Ok(id)
    ensures var r := Invoke(s, "endAuction", args, resolve);
      && (MakeAssetKey(id) !in s ==> r == Step(Some(AssetNotFound), s))
      && (MakeAssetKey(id) in s && s[MakeAssetKey(id)].pendingAuction.None? ==> r == Step(Some(NoPendingAuction), s))
      && (MakeAssetKey(id) in s && s[MakeAssetKey(id)].pendingAuction.Some? ==>
            var result := resolve(s[MakeAssetKey(id)].pendingAuction.value);
            && (result.None? ==> r == Step(Some(AuctionResultUnavailable), s))
            && (result.Some? && !result.value.ended ==> r == Step(Some(AuctionNotEnded), s)))
  {
  }

  /**
   * A successful `endAuction` hands the asset to the highest bidder and clears
   * the binding in one write; an immediate second `endAuction` of the same
   * asset fails with NoPendingAuction, whatever the auction service says then.
   */
  lemma EndAuctionTransfersOnce(s: Store, args: seq<Payload>, id: Bytes, resolve: Resolver, resolveAgain: Resolver)
    requires WellKeyed(s)
    requires IdArg(args) == Ok(id)
    requires Invoke(s, "endAuction", args, resolve).err.None?
    ensures var prev := s[MakeAssetKey(id)];
      var after := Invoke(s, "endAuction", args, resolve).store;
      && MakeAssetKey(id) in after
      && after[MakeAssetKey(id)] == Asset(id, resolve(prev.pendingAuction.value).value.highestBidder, None)
      && Invoke(after, "endAuction", args, resolveAgain) == Step(Some(NoPendingAuction), after)
  {
  }

  /** The asset id a call names: the record's ID, the binding's AssetID, or the decoded id. */
  function Target(c: Call): Option<Bytes>
  {
    if c.name == "addAsset" && AddAsset(c.args).Ok? then Some(AddAsset(c.args).value.id)
    else if c.name == "setAuction" && BindingArg(c.args).Ok? then Some(BindingArg(c.args).value.assetId)
    else if c.name == "endAuction" && IdArg(c.args).Ok? then Some(IdArg(c.args).value)
    else None
  }

  /** A call that may give asset x a binding again: an `addAsset` or `setAuction` naming x. */
  predicate Rebinds(c: Call, x: Bytes)
  {
    (c.name == "addAsset" || c.name == "setAuction") && Target(c) == Some(x)
  }

  /** Asset x is stored and has no pending auction. */
  ghost predicate Settled(s: Store, x: Bytes)
  {
    MakeAssetKey(x) in s && s[MakeAssetKey(x)].pendingAuction.None?
  }

  /** A call that does not rebind x leaves x settled. */
  lemma ExecKeepsSettled(s: Store, c: Call, x: Bytes)
    requires WellKeyed(s) && Settled(s, x) && !Rebinds(c, x)
    ensures Settled(Exec(s, c).store, x)
  {
  }

  lemma {:induction false} RunKeepsSettled(s: Store, calls: seq<Call>, x: Bytes)
    requires WellKeyed(s) && Settled(s, x)
    requires forall i :: 0 <= i < |calls| ==> !Rebinds(calls[i], x)
    ensures WellKeyed(Run(s, calls)) && Settled(Run(s, calls), x)
    decreases |calls|
  {
    if calls != [] {
      ExecKeepsSettled(s, calls[0], x);
      RunKeepsSettled(Exec(s, calls[0]).store, calls[1..], x);
    }
  }

  /**
   * Settlement cannot be replayed: after a successful `endAuction` of x, any
   * interleaving of other invocations that neither adds x again nor binds it
   * again leaves every further `endAuction` of x failing with NoPendingAuction.
   */
  lemma {:induction false} SettlementNotReplayable(s: Store, x: Bytes, first: Call, between: seq<Call>, again: Call)
    requires WellKeyed(s)
    requires first.name == "endAuction" && IdArg(first.args) == Ok(x) && Exec(s, first).err.None?
    requires forall i :: 0 <= i < |between| ==> !Rebinds(between[i], x)
    requires again.name == "endAuction" && IdArg(again.args) == Ok(x)
    ensures var later := Run(Exec(s, first).store, between);
      Exec(later, again) == Step(Some(NoPendingAuction), later)
  {
    assert Settled(Exec(s, first).store, x);
    RunKeepsSettled(Exec(s, first).store, between, x);
  }

  /**
   * Ownership moves only through settlement or a re-add: any invocation other
   * than `addAsset` that changes the owner recorded for x is an `endAuction` of
   * x whose bound auction the service reports as ended, and the new owner is
   * its highest bidder.
   */
  lemma OwnerChangesOnlyBySettlement(s: Store, c: Call, x: Bytes)
    requires WellKeyed(s) && c.name != "addAsset"
    requires MakeAssetKey(x) in s
    requires Exec(s, c).store[MakeAssetKey(x)].owner != s[MakeAssetKey(x)].owner
    ensures c.name == "endAuction" && IdArg(c.args) == Ok(x)
    ensures var prev := s[MakeAssetKey(x)];
      && prev.pendingAuction.Some?
      && c.resolve(prev.pendingAuction.value).Some?
      && c.resolve(prev.pendingAuction.value).value.ended
      && Exec(s, c).store[MakeAssetKey(x)].owner == c.resolve(prev.pendingAuction.value).value.highestBidder
  {
  }

  /**
   * Binding twice keeps only the second binding: the stored asset is bound to
   * the second auction id, and settling it afterwards depends on what the
   * service says about that auction alone.
   */
  lemma RebindingReplacesBinding(s: Store, x: Bytes, first: seq<Payload>, second: seq<Payload>, auction: Bytes,
                                 endArgs: seq<Payload>, resolve: Resolver, resolve': Resolver)
    requires WellKeyed(s) && MakeAssetKey(x) in s
    requires BindingArg(first).Ok? && BindingArg(first).value.assetId == x
    requires BindingArg(second) == Ok(SetAuctionArgs(x, Some(auction)))
    requires IdArg(endArgs) == Ok(x)
    requires resolve(auction) == resolve'(auction)
    ensures var bound := Invoke(Invoke(s, "setAuction", first, resolve).store, "setAuction", second, resolve).store;
      && bound[MakeAssetKey(x)].pendingAuction == Some(auction)
      && Invoke(bound, "endAuction", endArgs, resolve) == Invoke(bound, "endAuction", endArgs, resolve')
  {
  }

  /**
   * Without the key invariant a settlement could be replayed: a record for
   * asset "b" stored under the key of "a" is settled twice, because the first
   * settlement is written under the key of "b" and leaves the key of "a" bound.
   * The chaincode's own writes never create such a ledger (RunKeepsWellKeyed).
   */
  lemma ReplayOnMisKeyedLedger()
    ensures var stray := Asset([0x62], [0x6F], Some([0x78]));
      var s := map[MakeAssetKey([0x61]) := stray];
      var args := [Payload(None, None, Some([0x61]))];
      var resolve := (auction: Bytes) => Some(AuctionResult(true, [0x77]));
      && !WellKeyed(s)
      && Invoke(s, "endAuction", args, resolve).err.None?
      && Invoke(Invoke(s, "endAuction", args, resolve).store, "endAuction", args, resolve).err.None?
  {
    var stray := Asset([0x62], [0x6F], Some([0x78]));
    MakeAssetKeyInjective([0x61], [0x62]);
    var s := map[MakeAssetKey([0x61]) := stray];
    var args := [Payload(None, None, Some([0x61]))];
    var resolve := (auction: Bytes) => Some(AuctionResult(true, [0x77]));
    assert MakeAssetKey([0x61]) in s && MakeAssetKey([0x61]) != MakeAssetKey(s[MakeAssetKey([0x61])].id);
    var once := Invoke(s, "endAuction", args, resolve);
    assert once.store == s[MakeAssetKey([0x62]) := Settle(stray, AuctionResult(true, [0x77]))];
    assert once.store[MakeAssetKey([0x61])] == stray;
  }

  /**
   * A full cycle on an empty ledger: add asset "A1" owned by "alice", bind it to
   * auction "X1", settle it while the service reports "X1" ended with "bob"
   * highest; "A1" is then owned by "bob" with no pending auction.
   */
  lemma SettlementScenario()
    ensures var a1: Bytes := [0x41, 0x31];
      var x1: Bytes := [0x58, 0x31];
      var bob: Bytes := [0x62, 0x6F, 0x62];
      var resolve := (auction: Bytes) => if auction == x1 then Some(AuctionResult(true, bob)) else None;
      var calls := [
        Call("addAsset", [Payload(Some(Asset(a1, [0x61, 0x6C, 0x69, 0x63, 0x65], None)), None, None)], resolve),
        Call("setAuction", [Payload(None, Some(SetAuctionArgs(a1, Some(x1))), None)], resolve),
        Call("endAuction", [Payload(None, None, Some(a1))], resolve)];
      Query(Run(map[], calls), "getAsset", [Payload(None, None, Some(a1))]) == Ok(Some(Asset(a1, bob, None)))
  {
    var a1: Bytes := [0x41, 0x31];
    var x1: Bytes := [0x58, 0x31];
    var bob: Bytes := [0x62, 0x6F, 0x62];
    var resolve := (auction: Bytes) => if auction == x1 then Some(AuctionResult(true, bob)) else None;
    var calls := [
      Call("addAsset", [Payload(Some(Asset(a1, [0x61, 0x6C, 0x69, 0x63, 0x65], None)), None, None)], resolve),
      Call("setAuction", [Payload(None, Some(SetAuctionArgs(a1, Some(x1))), None)], resolve),
      Call("endAuction", [Payload(None, None, Some(a1))], resolve)];
    var s1 := Exec(map[], calls[0]).store;
    assert s1 == map[MakeAssetKey(a1) := Asset(a1, [0x61, 0x6C, 0x69, 0x63, 0x65], None)];
    var s2 := Exec(s1, calls[1]).store;
    assert s2 == map[MakeAssetKey(a1) := Asset(a1, [0x61, 0x6C, 0x69, 0x63, 0x65], Some(x1))];
    var s3 := Exec(s2, calls[2]).store;
    assert s3 == map[MakeAssetKey(a1) := Asset(a1, bob, None)];
    assert Run(map[], calls) == Run(s1, calls[1..]);
    assert Run(s1, calls[1..]) == Run(s2, calls[2..]);
    assert Run(s2, calls[2..]) == Run(s3, []);
  }

  /**
   * An empty but non-nil auction id is a pending auction: an asset bound to it
   * is settled like any other.
   */
  lemma EmptyAuctionIdIsPending(s: Store, id: Bytes, args: seq<Payload>, resolve: Resolver)
    requires MakeAssetKey(id) in s && s[MakeAssetKey(id)].pendingAuction == Some([])
    requires IdArg(args) == Ok(id)
    requires resolve([]).Some? && resolve([]).value.ended
    ensures Invoke(s, "endAuction", args, resolve).err.None?
  {
  }

  /**
   * `setAuction` with a null AuctionID stores a nil binding, so it unbinds the
   * asset: a following `endAuction` fails with NoPendingAuction.
   */
  lemma NullAuctionIdUnbinds(s: Store, x: Bytes, bindArgs: seq<Payload>, endArgs: seq<Payload>, resolve: Resolver)
    requires WellKeyed(s) && MakeAssetKey(x) in s
    requires BindingArg(bindArgs) == Ok(SetAuctionArgs(x, None))
    requires IdArg(endArgs) == Ok(x)
    ensures var unbound := Invoke(s, "setAuction", bindArgs, resolve).store;
      Invoke(unbound, "endAuction", endArgs, resolve) == Step(Some(NoPendingAuction), unbound)
  {
  }
}
