/** The API-layer transaction methods (src/api/methods/transactions.ts):
    dispatch of the past-activity slice to the chain adapters, the outcome
    branching of `submitTransfer`, and the synthesis of local (optimistic)
    activities, from transfer parameters or from emulation results. The
    chain adapters and the helpers whose bodies are not part of this model
    are parameters. */
module Transactions {
  import opened Types

  // ---------------------------------------------------------------------
  // Collaborators
  // ---------------------------------------------------------------------

  /** Parameters of a local transaction (`ApiLocalTransactionParams`). */
  datatype LocalTransactionParams = LocalTransactionParams(
    txId: string,
    amount: int,
    fromAddress: string,
    toAddress: string,
    comment: Option<string>,
    encryptedComment: Option<string>,
    fee: int,
    slug: string,
    externalMsgHashNorm: Option<string>,
    normalizedAddress: Option<string>,
    withW5Gasless: Option<bool>)

  /** `buildLocalTransaction(params, normalizedAddress, index)`: its body is
      not part of this model; its declared result is a transaction activity. */
  type TransactionBuilder = f: (LocalTransactionParams, string, nat) -> Activity
    | forall p, a, i :: f(p, a, i).TransactionActivity?
    witness (p: LocalTransactionParams, a: string, i: nat) =>
      TransactionActivity("", 0, Local, false, p.externalMsgHashNorm, p.txId, p.fromAddress, p.toAddress,
                          Some(a), p.amount, p.fee, p.slug, p.comment, p.encryptedComment)

  /** Helpers the methods call and whose bodies are not part of this model. */
  datatype Helpers = Helpers(
    networkOf: string -> Network,              // parseAccountId(accountId).network
    normalizeAddress: (string, Network) -> string, // ton.normalizeAddress
    build: TransactionBuilder,                 // buildLocalTransaction
    localTxId: (string, nat) -> string,        // buildLocalTxId
    tokenSlug: (Chain, string) -> string,      // buildTokenSlug
    nativeSlug: Chain -> string)               // getChainConfig(chain).nativeToken.slug

  // ---------------------------------------------------------------------
  // createLocalTransactions (lines 225-256)
  // ---------------------------------------------------------------------

  /** The normalized address a local transaction is built with. */
  function ChooseNormalizedAddress(p: LocalTransactionParams, chain: Chain, network: Network, h: Helpers): (addr: string)
    ensures Truthy(p.normalizedAddress) ==> addr == p.normalizedAddress.value
    ensures !Truthy(p.normalizedAddress) && chain == Ton ==> addr == h.normalizeAddress(p.toAddress, network)
    ensures !Truthy(p.normalizedAddress) && chain != Ton ==> addr == p.toAddress
  {
    if Truthy(p.normalizedAddress) then p.normalizedAddress.value
    else if chain == Ton then h.normalizeAddress(p.toAddress, network)
    else p.toAddress
  }

  /** `params.map(...)`: one record per parameter, built with its own position. */
  function BuildLocalTransactions(params: seq<LocalTransactionParams>, chain: Chain, network: Network, h: Helpers)
    : (r: seq<Activity>)
    ensures |r| == |params|
    ensures forall i :: 0 <= i < |params| ==>
              r[i] == h.build(params[i], ChooseNormalizedAddress(params[i], chain, network, h), i)
    ensures forall i :: 0 <= i < |r| ==> r[i].TransactionActivity?
  {
    if params == [] then []
    else
      var n := |params| - 1;
      BuildLocalTransactions(params[..n], chain, network, h)
        + [h.build(params[n], ChooseNormalizedAddress(params[n], chain, network, h), n)]
  }

  /** The records `createLocalTransactions` returns, with the events it publishes. */
  datatype LocalBatch = LocalBatch(activities: seq<Activity>, updates: seq<ApiUpdate>)

  /** The `newLocalActivities` event for a batch, published only when the batch is non-empty. */
  function Announce(accountId: string, activities: seq<Activity>): (u: seq<ApiUpdate>)
    ensures |u| <= 1
    ensures u == [] <==> activities == []
    ensures u != [] ==> u[0] == NewLocalActivities(accountId, activities)
  {
    if |activities| > 0 then [NewLocalActivities(accountId, activities)] else []
  }

  /** `createLocalTransactions`: exactly one record per parameter, in input
      order, each built with its own position and the address chosen for
      it; the event is published exactly when there was at least one
      parameter. */
  function CreateLocalTransactions(accountId: string, chain: Chain, params: seq<LocalTransactionParams>, h: Helpers)
    : (r: LocalBatch)
    ensures |r.activities| == |params|
    ensures forall i :: 0 <= i < |params| ==>
              r.activities[i] == h.build(params[i], ChooseNormalizedAddress(params[i], chain, h.networkOf(accountId), h), i)
    ensures r.updates == [] <==> params == []
    ensures params != [] ==> r.updates == [NewLocalActivities(accountId, r.activities)]
  {
    var activities := BuildLocalTransactions(params, chain, h.networkOf(accountId), h);
    LocalBatch(activities, Announce(accountId, activities))
  }

  // ---------------------------------------------------------------------
  // convertEmulationActivityToLocal (lines 311-348)
  // ---------------------------------------------------------------------

  /** The fields the conversion does not stamp are those of the source activity. */
  predicate KeepsUnstampedFields(a: Activity, r: Activity) {
    match a
    case TransactionActivity(_, _, _, shouldHide, _, _, fromAddress, toAddress, _, amount, fee, slug, comment, encryptedComment) =>
      && r.TransactionActivity?
      && r.shouldHide == shouldHide && r.fromAddress == fromAddress && r.toAddress == toAddress
      && r.amount == amount && r.fee == fee && r.slug == slug
      && r.comment == comment && r.encryptedComment == encryptedComment
    case SwapActivity(_, _, _, shouldHide, _, from, to, fromAmount, toAmount) =>
      && r.SwapActivity?
      && r.shouldHide == shouldHide && r.from == from && r.to == to
      && r.fromAmount == fromAmount && r.toAmount == toAmount
  }

  /** The address a converted transaction carries: the source's when truthy;
      otherwise, on TON with an account given, the normalized destination
      when that is non-empty; otherwise the source's own (falsy) value. */
  function EmulatedNormalizedAddress(a: Activity, chain: Chain, accountId: string, h: Helpers): (addr: Option<string>)
    requires a.TransactionActivity?
    ensures Truthy(a.normalizedAddress) ==> addr == a.normalizedAddress
    ensures !Truthy(a.normalizedAddress) && (chain != Ton || accountId == "") ==> addr == a.normalizedAddress
    ensures !Truthy(a.normalizedAddress) && chain == Ton && accountId != "" ==>
              var computed := h.normalizeAddress(a.toAddress, h.networkOf(accountId));
              addr == if computed != "" then Some(computed) else a.normalizedAddress
  {
    var normalized :=
      if !Truthy(a.normalizedAddress) && chain == Ton && accountId != ""
      then Some(h.normalizeAddress(a.toAddress, h.networkOf(accountId)))
      else a.normalizedAddress;
    // `normalizedAddress || activity.normalizedAddress`
    if Truthy(normalized) then normalized else a.normalizedAddress
  }

  /** `convertEmulationActivityToLocal`; `now` is the clock reading of this call. */
  function ConvertEmulationActivityToLocal(a: Activity, msgHashNormalized: string, index: nat, chain: Chain,
                                           accountId: string, now: int, h: Helpers): (r: Activity)
    ensures r.id == h.localTxId(msgHashNormalized, index)
    ensures r.timestamp == now && r.status == Pending
    ensures r.externalMsgHashNorm == Some(msgHashNormalized)
    ensures r.TransactionActivity? <==> a.TransactionActivity?
    ensures r.TransactionActivity? ==> r.txId == r.id
    ensures r.TransactionActivity? ==> r.normalizedAddress == EmulatedNormalizedAddress(a, chain, accountId, h)
    ensures KeepsUnstampedFields(a, r)
  {
    var id := h.localTxId(msgHashNormalized, index);
    var stamped := a.(id := id, timestamp := now, externalMsgHashNorm := Some(msgHashNormalized), status := Pending);
    if a.TransactionActivity? then
      stamped.(txId := id, normalizedAddress := EmulatedNormalizedAddress(a, chain, accountId, h))
    else
      stamped
  }

  // ---------------------------------------------------------------------
  // createLocalActivitiesFromEmulation (lines 269-309)
  // ---------------------------------------------------------------------

  /** An emulation item survives unless it is hidden or the placeholder `FAKE_TX_ID`. */
  predicate Survives(a: Activity, fakeTxId: string) {
    !a.shouldHide && a.id != fakeTxId
  }

  /** The positions of the surviving items, in order. */
  function SurvivorPositions(s: seq<Activity>, fakeTxId: string): (pos: seq<nat>)
    ensures |pos| <= |s|
    ensures forall j :: 0 <= j < |pos| ==> pos[j] < |s| && Survives(s[pos[j]], fakeTxId)
    ensures forall j, k :: 0 <= j < k < |pos| ==> pos[j] < pos[k]
  {
    if s == [] then []
    else
      var n := |s| - 1;
      var prefix := SurvivorPositions(s[..n], fakeTxId);
      assert forall j :: 0 <= j < |prefix| ==> s[prefix[j]] == s[..n][prefix[j]];
      if Survives(s[n], fakeTxId) then prefix + [n] else prefix
  }

  /** Exactly the surviving items are listed: dropped items are exactly the
      hidden and placeholder ones. */
  lemma {:induction false} SurvivorPositionsComplete(s: seq<Activity>, fakeTxId: string, i: nat)
    ensures i in SurvivorPositions(s, fakeTxId) <==> i < |s| && Survives(s[i], fakeTxId)
  {
    if s != [] {
      var n := |s| - 1;
      SurvivorPositionsComplete(s[..n], fakeTxId, i);
      if i < n {
        assert s[..n][i] == s[i];
      }
    }
  }

  lemma SurvivorPositionsSnoc(s: seq<Activity>, i: nat, fakeTxId: string)
    requires i < |s|
    ensures SurvivorPositions(s[..i + 1], fakeTxId)
              == SurvivorPositions(s[..i], fakeTxId) + (if Survives(s[i], fakeTxId) then [i] else [])
  {
    assert s[..i + 1][..i] == s[..i];
  }

  /** `local[j]` is the conversion of the item at `pos[j]`, numbered `j`. */
  ghost predicate ConvertedAt(local: seq<Activity>, emulation: seq<Activity>, pos: seq<nat>, msgHashNormalized: string,
                              chain: Chain, accountId: string, clock: nat -> int, h: Helpers) {
    |local| == |pos|
    && forall j :: 0 <= j < |local| ==>
         pos[j] < |emulation|
         && local[j] == ConvertEmulationActivityToLocal(emulation[pos[j]], msgHashNormalized, j, chain, accountId, clock(j), h)
  }

  lemma ConvertedAtSnoc(local: seq<Activity>, emulation: seq<Activity>, pos: seq<nat>, i: nat, msgHashNormalized: string,
                        chain: Chain, accountId: string, clock: nat -> int, h: Helpers)
    requires ConvertedAt(local, emulation, pos, msgHashNormalized, chain, accountId, clock, h) && i < |emulation|
    ensures ConvertedAt(local + [ConvertEmulationActivityToLocal(emulation[i], msgHashNormalized, |local|, chain,
                                                                 accountId, clock(|local|), h)],
                        emulation, pos + [i], msgHashNormalized, chain, accountId, clock, h)
  {
  }

  /** `createLocalActivitiesFromEmulation`. The survivors are numbered by a
      counter that advances only on kept items; `clock(j)` is the reading of
      `Date.now()` taken while converting the j-th survivor. */
  method CreateLocalActivitiesFromEmulation(accountId: string, chain: Chain, msgHashNormalized: string,
                                            emulation: seq<Activity>, fakeTxId: string,
                                            clock: nat -> int, h: Helpers)
    returns (local: seq<Activity>, updates: seq<ApiUpdate>)
    ensures |local| == |SurvivorPositions(emulation, fakeTxId)|
    ensures forall j :: 0 <= j < |local| ==>
              local[j] == ConvertEmulationActivityToLocal(emulation[SurvivorPositions(emulation, fakeTxId)[j]],
                                                          msgHashNormalized, j, chain, accountId, clock(j), h)
    ensures updates == Announce(accountId, local)
  {
    local := [];
    var localActivityIndex: nat := 0;
    var i := 0;
    while i < |emulation|
      invariant 0 <= i <= |emulation|
      invariant localActivityIndex == |local|
      invariant ConvertedAt(local, emulation, SurvivorPositions(emulation[..i], fakeTxId),
                            msgHashNormalized, chain, accountId, clock, h)
    {
      SurvivorPositionsSnoc(emulation, i, fakeTxId);
      var activity := emulation[i];
      if Survives(activity, fakeTxId) {
        ConvertedAtSnoc(local, emulation, SurvivorPositions(emulation[..i], fakeTxId), i,
                        msgHashNormalized, chain, accountId, clock, h);
        var converted := ConvertEmulationActivityToLocal(activity, msgHashNormalized, localActivityIndex, chain,
                                                         accountId, clock(localActivityIndex), h);
        local := local + [converted];
        localActivityIndex := localActivityIndex + 1;
      }
      i := i + 1;
    }
    assert emulation[..i] == emulation;
    updates := Announce(accountId, local);
  }

  /** Every local activity is a survivor, stamped with the message hash and
      the index it was given, in the order of the emulation. */
  lemma EmulationSurvivorsStamped(local: seq<Activity>, emulation: seq<Activity>, msgHashNormalized: string,
                                  chain: Chain, accountId: string, fakeTxId: string, clock: nat -> int, h: Helpers)
    requires |local| == |SurvivorPositions(emulation, fakeTxId)|
    requires forall j :: 0 <= j < |local| ==>
              local[j] == ConvertEmulationActivityToLocal(emulation[SurvivorPositions(emulation, fakeTxId)[j]],
                                                          msgHashNormalized, j, chain, accountId, clock(j), h)
    ensures forall j :: 0 <= j < |local| ==>
              && local[j].id == h.localTxId(msgHashNormalized, j)
              && local[j].status == Pending
              && local[j].externalMsgHashNorm == Some(msgHashNormalized)
              && !local[j].shouldHide
    ensures forall i :: 0 <= i < |emulation| && Survives(emulation[i], fakeTxId) ==>
              exists j :: 0 <= j < |local| && SurvivorPositions(emulation, fakeTxId)[j] == i
  {
    var pos := SurvivorPositions(emulation, fakeTxId);
    forall i | 0 <= i < |emulation| && Survives(emulation[i], fakeTxId)
      ensures exists j :: 0 <= j < |local| && pos[j] == i
    {
      SurvivorPositionsComplete(emulation, fakeTxId, i);
      var j :| 0 <= j < |pos| && pos[j] == i;
    }
  }

  // ---------------------------------------------------------------------
  // submitTransfer (lines 85-190)
  // ---------------------------------------------------------------------

  /** What `submitTransfer` reads from its options; the rest is handed to
      the chain adapter unchanged. */
  datatype TransferOptions = TransferOptions(
    accountId: string,
    toAddress: string,
    amount: int,
    tokenAddress: Option<string>,
    comment: Option<string>,
    realFee: Option<int>,
    shouldEncrypt: bool,
    withDiesel: bool)

  /** The adapter the transfer goes through. */
  datatype Adapter = DieselAdapter | PlainAdapter(chain: Chain)

  /** The adapter's answer: an error, a TON answer carrying the message hash,
      or an answer carrying a transaction id. */
  datatype SubmitResult =
    | SubmitError(error: string)
    | MsgHashResult(msgHash: string, msgHashNormalized: string, encryptedComment: Option<string>,
                    withW5Gasless: Option<bool>, paymentLink: Option<string>)
    | TxIdResult(txId: string)

  /** The returned value is the adapter's answer with `txId` overridden when
      a local record was created (`returnedTxId`); `local` is that record,
      built from `localParams`. */
  datatype SubmitOutcome = SubmitOutcome(
    adapter: Adapter,
    result: SubmitResult,
    returnedTxId: Option<string>,
    localParams: Option<LocalTransactionParams>,
    local: Option<Activity>,
    updates: seq<ApiUpdate>)

  function ChooseAdapter(chain: Chain, withDiesel: bool): (a: Adapter)
    ensures a == DieselAdapter <==> withDiesel && chain == Ton
    ensures a.PlainAdapter? ==> a.chain == chain
  {
    if withDiesel && chain == Ton then DieselAdapter else PlainAdapter(chain)
  }

  /** The slug of the transferred token: that of the token address when one is
      given, else the chain's native token. */
  function TransferSlug(chain: Chain, tokenAddress: Option<string>, h: Helpers): (slug: string)
    ensures Truthy(tokenAddress) ==> slug == h.tokenSlug(chain, tokenAddress.value)
    ensures !Truthy(tokenAddress) ==> slug == h.nativeSlug(chain)
  {
    if Truthy(tokenAddress) then h.tokenSlug(chain, tokenAddress.value) else h.nativeSlug(chain)
  }

  /** The parameters of the local record of a successful submission. */
  function LocalParamsFor(chain: Chain, o: TransferOptions, fromAddress: string, result: SubmitResult, h: Helpers)
    : (p: LocalTransactionParams)
    requires !result.SubmitError?
    ensures p.amount == o.amount && p.fromAddress == fromAddress && p.toAddress == o.toAddress
    ensures p.fee == o.realFee.GetOr(0) && p.slug == TransferSlug(chain, o.tokenAddress, h)
    ensures p.normalizedAddress == None
    ensures result.MsgHashResult? ==>
              && p.txId == result.msgHashNormalized
              && p.externalMsgHashNorm == Some(result.msgHashNormalized)
              && p.comment == (if o.shouldEncrypt then None else o.comment)
              && p.encryptedComment == result.encryptedComment
              && p.withW5Gasless == result.withW5Gasless
    ensures result.TxIdResult? ==>
              && p.txId == result.txId && p.externalMsgHashNorm == None
              && p.comment == o.comment && p.encryptedComment == None && p.withW5Gasless == None
  {
    var slug := TransferSlug(chain, o.tokenAddress, h);
    var fee := o.realFee.GetOr(0);
    match result
    case MsgHashResult(_, msgHashNormalized, encryptedComment, withW5Gasless, _) =>
      LocalTransactionParams(msgHashNormalized, o.amount, fromAddress, o.toAddress,
                             if o.shouldEncrypt then None else o.comment, encryptedComment, fee, slug,
                             Some(msgHashNormalized), None, withW5Gasless)
    case TxIdResult(txId) =>
      LocalTransactionParams(txId, o.amount, fromAddress, o.toAddress, o.comment, None, fee, slug, None, None, None)
  }

  /** `submitTransfer`. `fromAddress` is the stored address of the account and
      `submit` the adapter call. */
  function SubmitTransfer(chain: Chain, o: TransferOptions, shouldCreateLocalActivity: bool, fromAddress: string,
                          submit: Adapter -> SubmitResult, h: Helpers): (r: SubmitOutcome)
    ensures r.adapter == ChooseAdapter(chain, o.withDiesel) && r.result == submit(r.adapter)
    // an error, or a caller that wants no local record: the answer goes back unchanged
    ensures r.result.SubmitError? || !shouldCreateLocalActivity ==>
              r.returnedTxId == None && r.localParams == None && r.local == None && r.updates == []
    ensures !r.result.SubmitError? && shouldCreateLocalActivity ==>
              && r.localParams == Some(LocalParamsFor(chain, o, fromAddress, r.result, h))
              && r.local == Some(CreateLocalTransactions(o.accountId, chain, [r.localParams.value], h).activities[0])
              && r.local.value.TransactionActivity?
              // the returned id is the local record's
              && r.returnedTxId == Some(r.local.value.txId)
    // events: the new local record, then the payment link when there is one
    ensures !r.result.SubmitError? && shouldCreateLocalActivity ==>
              r.updates == [NewLocalActivities(o.accountId, [r.local.value])]
                           + (if r.result.MsgHashResult? && Truthy(r.result.paymentLink)
                              then [OpenUrl(r.result.paymentLink.value, true)] else [])
  {
    var adapter := ChooseAdapter(chain, o.withDiesel);
    var result := submit(adapter);
    if result.SubmitError? || !shouldCreateLocalActivity then
      SubmitOutcome(adapter, result, None, None, None, [])
    else
      var params := LocalParamsFor(chain, o, fromAddress, result, h);
      var batch := CreateLocalTransactions(o.accountId, chain, [params], h);
      var local := batch.activities[0];
      assert batch.activities == [local];
      var linkUpdates :=
        if result.MsgHashResult? && Truthy(result.paymentLink) then [OpenUrl(result.paymentLink.value, true)] else [];
      SubmitOutcome(adapter, result, Some(local.txId), Some(params), Some(local), batch.updates + linkUpdates)
  }

  /** `buildLocalTransaction` takes the record's `txId` from its parameters. */
  ghost predicate BuilderKeepsTxId(h: Helpers) {
    forall p, a, i :: h.build(p, a, i).txId == p.txId
  }

  /** With a builder that keeps the `txId` of its parameters, a successful
      submission returns (and records) the normalized message hash when the
      adapter reported one, and the adapter's transaction id otherwise. */
  lemma SubmitTransferReturnedId(chain: Chain, o: TransferOptions, fromAddress: string,
                                 submit: Adapter -> SubmitResult, h: Helpers)
    requires BuilderKeepsTxId(h)
    ensures var r := SubmitTransfer(chain, o, true, fromAddress, submit, h);
            && (r.result.MsgHashResult? ==> r.returnedTxId == Some(r.result.msgHashNormalized))
            && (r.result.TxIdResult? ==> r.returnedTxId == Some(r.result.txId))
            && (r.result.SubmitError? ==> r.returnedTxId == None)
  {
    var r := SubmitTransfer(chain, o, true, fromAddress, submit, h);
    if !r.result.SubmitError? {
      var p := r.localParams.value;
      var network := h.networkOf(o.accountId);
      assert r.local.value == h.build(p, ChooseNormalizedAddress(p, chain, network, h), 0);
    }
  }

  // ---------------------------------------------------------------------
  // sendSignedTransferMessage (lines 199-213)
  // ---------------------------------------------------------------------

  /** `sendSignedTransferMessage`: `msgHashNormalized` is the hash the chain
      answered with; the local record is built from the message's own
      parameters with that hash as id. */
  function SendSignedTransferMessage(accountId: string, localParams: LocalTransactionParams, msgHashNormalized: string,
                                     h: Helpers): (r: (string, seq<ApiUpdate>))
    ensures var p := localParams.(txId := msgHashNormalized, externalMsgHashNorm := Some(msgHashNormalized));
            var local := h.build(p, ChooseNormalizedAddress(p, Ton, h.networkOf(accountId), h), 0);
            r.0 == local.txId && r.1 == [NewLocalActivities(accountId, [local])]
    ensures BuilderKeepsTxId(h) ==> r.0 == msgHashNormalized
  {
    var p := localParams.(txId := msgHashNormalized, externalMsgHashNorm := Some(msgHashNormalized));
    var batch := CreateLocalTransactions(accountId, Ton, [p], h);
    assert batch.activities == [h.build(p, ChooseNormalizedAddress(p, Ton, h.networkOf(accountId), h), 0)];
    (batch.activities[0].txId, batch.updates)
  }

  // ---------------------------------------------------------------------
  // fetchPastActivities dispatch (lines 35-79)
  // ---------------------------------------------------------------------

  /** Which chain accounts a stored account has. */
  datatype StoredAccount = StoredAccount(hasTon: bool, hasTron: bool)

  /** The adapter calls a slice request makes. */
  datatype SliceCall =
    | TonActivitySlice(tonSlug: Option<string>)
    | TronTokenTransactionSlice(tronSlug: string)
    | TronAllTransactionSlice

  /** The chain adapters and unseen helpers of the slice dispatch; `None`
      stands for a call that throws. */
  datatype SliceAdapters = SliceAdapters(
    chainBySlug: string -> Chain,
    storedAccount: string -> Option<StoredAccount>,
    call: SliceCall -> Option<seq<Activity>>,
    merge: (seq<Activity>, seq<Activity>) -> seq<Activity>,
    enrich: (seq<Activity>, Option<string>) -> Option<seq<Activity>>)

  datatype SliceOutcome = SliceOutcome(calls: seq<SliceCall>, result: Option<seq<Activity>>)

  /** The calls of `fetchAllActivitySlice`: one per chain the account has. */
  function AllSliceCalls(account: StoredAccount): (calls: seq<SliceCall>)
    ensures TonActivitySlice(None) in calls <==> account.hasTon
    ensures TronAllTransactionSlice in calls <==> account.hasTron
    ensures forall c :: c in calls ==> c == TonActivitySlice(None) || c == TronAllTransactionSlice
  {
    (if account.hasTon then [TonActivitySlice(None)] else [])
      + (if account.hasTron then [TronAllTransactionSlice] else [])
  }

  /** The answer of one chain inside `Promise.all`: `[]` for a chain the
      account does not have. */
  function ChainPart(present: bool, c: SliceCall, ad: SliceAdapters): (part: Option<seq<Activity>>)
    ensures !present ==> part == Some([])
    ensures present ==> part == ad.call(c)
  {
    if present then ad.call(c) else Some([])
  }

  function FetchAllActivitySlice(accountId: string, ad: SliceAdapters): (r: SliceOutcome)
    ensures ad.storedAccount(accountId).None? ==> r == SliceOutcome([], None)
    ensures ad.storedAccount(accountId).Some? ==>
              var acc := ad.storedAccount(accountId).value;
              var ton := ChainPart(acc.hasTon, TonActivitySlice(None), ad);
              var tron := ChainPart(acc.hasTron, TronAllTransactionSlice, ad);
              && r.calls == AllSliceCalls(acc)
              && (r.result.Some? <==> ton.Some? && tron.Some?)
              && (r.result.Some? ==> r.result.value == ad.merge(ton.value, tron.value))
  {
    var account := ad.storedAccount(accountId);
    if account.None? then SliceOutcome([], None)
    else
      var acc := account.value;
      var ton := ChainPart(acc.hasTon, TonActivitySlice(None), ad);
      var tron := ChainPart(acc.hasTron, TronAllTransactionSlice, ad);
      SliceOutcome(AllSliceCalls(acc), if ton.Some? && tron.Some? then Some(ad.merge(ton.value, tron.value)) else None)
  }

  /** `fetchTokenActivitySlice`: the adapter of the chain the slug belongs to. */
  function TokenSliceCall(slug: string, ad: SliceAdapters): (c: SliceCall)
    ensures ad.chainBySlug(slug) == Ton ==> c == TonActivitySlice(Some(slug))
    ensures ad.chainBySlug(slug) != Ton ==> c == TronTokenTransactionSlice(slug)
  {
    if ad.chainBySlug(slug) == Ton then TonActivitySlice(Some(slug)) else TronTokenTransactionSlice(slug)
  }

  /** The API method `fetchPastActivities`: a token stream (truthy slug) goes
      to one chain adapter, the main stream to every chain of the account;
      the slice is then enriched, and any failure answers `undefined`.
      The paging arguments (`limit`, `toTimestamp`) are passed to the
      adapters unchanged and are folded into `call`. */
  function FetchPastActivitiesSlice(accountId: string, tokenSlug: Option<string>, ad: SliceAdapters): (r: SliceOutcome)
    ensures Truthy(tokenSlug) ==> r.calls == [TokenSliceCall(tokenSlug.value, ad)]
    ensures !Truthy(tokenSlug) ==> r.calls == FetchAllActivitySlice(accountId, ad).calls
    ensures var slice := if Truthy(tokenSlug) then ad.call(TokenSliceCall(tokenSlug.value, ad))
                         else FetchAllActivitySlice(accountId, ad).result;
            && (r.result.Some? <==> slice.Some? && ad.enrich(slice.value, tokenSlug).Some?)
            && (r.result.Some? ==> r.result == ad.enrich(slice.value, tokenSlug))
    ensures forall c :: c in r.calls && c.TronTokenTransactionSlice? ==> Truthy(tokenSlug) && ad.chainBySlug(c.tronSlug) == Tron
  {
    var slice :=
      if Truthy(tokenSlug) then SliceOutcome([TokenSliceCall(tokenSlug.value, ad)], ad.call(TokenSliceCall(tokenSlug.value, ad)))
      else FetchAllActivitySlice(accountId, ad);
    SliceOutcome(slice.calls, if slice.result.Some? then ad.enrich(slice.result.value, tokenSlug) else None)
  }
}
