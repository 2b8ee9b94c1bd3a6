/** The deterministic helpers of the wallet action handlers
    (src/global/actions/api/wallet.ts): the per-stream throttle key and its
    registry, the readiness condition of the initial-load gate and its
    registry, and the state updates of `addToken`, `addSwapToken` and
    `apiUpdateWalletVersions`. */
module WalletActions {
  import opened Types

  // ---------------------------------------------------------------------
  // Throttle key of a past-activity stream (line 44)
  // ---------------------------------------------------------------------

  /** Name of the stream inside the key: the token slug, or `__main__` for
      the all-activities stream (`slug ?? '__main__'`, so "" stays ""). */
  function StreamName(slug: Option<string>): string {
    if slug.Some? then slug.value else "__main__"
  }

  /** `${accountId} ${slug ?? '__main__'}` */
  function ThrottleKey(accountId: string, slug: Option<string>): (key: string)
    ensures |key| == |accountId| + 1 + |StreamName(slug)|
    ensures key[..|accountId|] == accountId && key[|accountId|] == ' '
    ensures key[|accountId| + 1..] == StreamName(slug)
  {
    accountId + " " + StreamName(slug)
  }

  /** Index of the first space of `s`, or |s| when there is none. */
  function FirstSpace(s: string): (i: nat)
    ensures i <= |s|
    ensures forall j :: 0 <= j < i ==> s[j] != ' '
    ensures i < |s| ==> s[i] == ' '
  {
    if s == [] then 0
    else if s[0] == ' ' then 0
    else 1 + FirstSpace(s[1..])
  }

  /** Splits a throttle key back into the account id and the stream name. */
  function ParseThrottleKey(key: string): (parts: (string, string))
  {
    var i := FirstSpace(key);
    if i < |key| then (key[..i], key[i + 1..]) else (key, "")
  }

  /** For account ids without a space the key is a lossless encoding of
      the account and the stream name. */
  lemma {:induction false} ParseThrottleKeyInverse(accountId: string, slug: Option<string>)
    requires ' ' !in accountId
    ensures ParseThrottleKey(ThrottleKey(accountId, slug)) == (accountId, StreamName(slug))
  {
    var key := ThrottleKey(accountId, slug);
    var i := FirstSpace(key);
    assert forall j :: 0 <= j < |accountId| ==> key[j] == accountId[j];
    assert i == |accountId|;
  }

  /** Two streams share a throttle (and so never load concurrently) exactly
      when they belong to the same account and have the same stream name. */
  lemma ThrottleKeyInjective(a1: string, s1: Option<string>, a2: string, s2: Option<string>)
    requires ' ' !in a1 && ' ' !in a2
    ensures ThrottleKey(a1, s1) == ThrottleKey(a2, s2) <==> a1 == a2 && StreamName(s1) == StreamName(s2)
  {
    ParseThrottleKeyInverse(a1, s1);
    ParseThrottleKeyInverse(a2, s2);
  }

  /** The stream a throttled fetch function is bound to (`fetchPastActivities.bind(undefined, accountId, slug)`). */
  datatype StreamRef = StreamRef(accountId: string, slug: Option<string>)

  /** The module-level `pastActivityThrottle` record and the calls made to
      the throttled functions it holds. The timing of `throttle` is not part
      of this model: `invocations` logs the calls handed to the throttle,
      not the executions it lets through. */
  class PastActivityThrottles {
    var throttles: map<string, StreamRef>
    var invocations: seq<StreamRef>

    /** Every throttle sits under the key of the stream it is bound to. */
    ghost predicate Valid()
      reads this
    {
      forall key :: key in throttles ==> ThrottleKey(throttles[key].accountId, throttles[key].slug) == key
    }

    constructor ()
      ensures Valid() && throttles == map[] && invocations == []
    {
      throttles := map[];
      invocations := [];
    }

    /** The `fetchPastActivities` action handler (lines 42-57): creates the
        throttle of the stream on first use (`||=`) and calls it once, or
        twice when loading with budget. */
    method Trigger(accountId: string, slug: Option<string>, shouldLoadWithBudget: bool)
      requires Valid()
      modifies this
      ensures Valid()
      ensures var key := ThrottleKey(accountId, slug);
              && key in throttles
              && (key in old(throttles) ==> throttles == old(throttles))
              && (key !in old(throttles) ==> throttles == old(throttles)[key := StreamRef(accountId, slug)])
              && ThrottleKey(throttles[key].accountId, throttles[key].slug) == key
              && invocations == old(invocations) + (if shouldLoadWithBudget then [throttles[key], throttles[key]]
                                                     else [throttles[key]])
    {
      var key := ThrottleKey(accountId, slug);
      if key !in throttles {
        throttles := throttles[key := StreamRef(accountId, slug)];
      }
      invocations := invocations + [throttles[key]];
      if shouldLoadWithBudget {
        invocations := invocations + [throttles[key]];
      }
    }
  }

  // ---------------------------------------------------------------------
  // Global state read and written by the handlers
  // ---------------------------------------------------------------------

  datatype TokenInfo = TokenInfo(
    name: string,
    symbol: string,
    slug: string,
    decimals: nat,
    chain: Chain,
    image: Option<string>,
    keywords: seq<string>,
    price: real,
    priceUsd: real,
    percentChange24h: real)

  datatype SwapAsset = SwapAsset(
    name: string,
    symbol: string,
    chain: Chain,
    slug: string,
    decimals: nat,
    image: Option<string>,
    tokenAddress: Option<string>,
    keywords: seq<string>,
    isPopular: bool,
    price: real,
    priceUsd: real)

  /** Per-account state: the balances record (`balances.bySlug`, absent
      when the account has none yet) and the main activity id list. */
  datatype AccountState = AccountState(balances: Option<map<string, int>>, idsMain: Option<seq<string>>)

  /** Per-account token-list settings; every list may be absent. */
  datatype AccountSettings = AccountSettings(
    importedSlugs: Option<seq<string>>,
    orderedSlugs: Option<seq<string>>,
    alwaysShownSlugs: Option<seq<string>>,
    alwaysHiddenSlugs: Option<seq<string>>,
    deletedSlugs: Option<seq<string>>)

  const NoSettings := AccountSettings(None, None, None, None, None)

  datatype WalletVersion = WalletVersion(version: string, address: string)

  datatype WalletVersions = WalletVersions(currentVersion: string, byId: map<string, seq<WalletVersion>>)

  datatype GlobalState = GlobalState(
    currentAccountId: string,
    accounts: set<string>,
    accountStates: map<string, AccountState>,
    accountSettings: map<string, AccountSettings>,
    tokenInfo: map<string, TokenInfo>,
    swapTokenInfo: map<string, SwapAsset>,
    walletVersions: Option<WalletVersions>)

  // ---------------------------------------------------------------------
  // Initial-load gate (lines 343-352)
  // ---------------------------------------------------------------------

  /** The condition `waitFor` polls: the account has been removed, or its
      main activity list has been loaded. A removed account never holds the
      gate; an existing one holds it until its main list is defined. */
  function InitialActivitiesReady(g: GlobalState, accountId: string): (ready: bool)
    ensures accountId !in g.accounts ==> ready
    ensures accountId in g.accounts && accountId !in g.accountStates ==> !ready
    ensures accountId in g.accounts && accountId in g.accountStates ==>
              (ready <==> g.accountStates[accountId].idsMain.Some?)
  {
    accountId !in g.accounts
    || (accountId in g.accountStates && g.accountStates[accountId].idsMain.Some?)
  }

  /** The wait the gate hands out; it polls `InitialActivitiesReady` for its account. */
  datatype InitialLoadWait = InitialLoadWait(accountId: string)

  /** The module-level `initialActivityWaitingByAccountId` record. */
  class InitialLoadGate {
    var waits: map<string, InitialLoadWait>

    ghost predicate Valid()
      reads this
    {
      forall id :: id in waits ==> waits[id].accountId == id
    }

    constructor ()
      ensures Valid() && waits == map[]
    {
      waits := map[];
    }

    /** `waitInitialActivityLoading`: every caller for one account shares the
        wait created by the first one (`||=`). */
    method WaitInitialActivityLoading(accountId: string) returns (w: InitialLoadWait)
      requires Valid()
      modifies this
      ensures Valid()
      ensures w.accountId == accountId && accountId in waits && w == waits[accountId]
      ensures accountId in old(waits) ==> waits == old(waits)
      ensures accountId !in old(waits) ==> waits == old(waits)[accountId := w]
    {
      if accountId !in waits {
        waits := waits[accountId := InitialLoadWait(accountId)];
      }
      w := waits[accountId];
    }
  }

  // ---------------------------------------------------------------------
  // List helpers: `unique` and `filter(slug => slug !== token.slug)`
  // ---------------------------------------------------------------------

  predicate NoDuplicates(s: seq<string>) {
    forall i, j :: 0 <= i < j < |s| ==> s[i] != s[j]
  }

  /** `unique`: every element of the list, once. */
  function Unique(s: seq<string>): (r: seq<string>)
    ensures NoDuplicates(r)
    ensures forall x :: x in r <==> x in s
    ensures |r| <= |s|
  {
    if s == [] then []
    else
      var u := Unique(s[..|s| - 1]);
      assert forall x :: x in s <==> x in s[..|s| - 1] || x == s[|s| - 1];
      if s[|s| - 1] in u then u else u + [s[|s| - 1]]
  }

  /** `list?.filter(x => x !== slug)`: an absent list stays absent. */
  function Without(list: Option<seq<string>>, slug: string): (r: Option<seq<string>>)
    ensures r.Some? == list.Some?
    ensures r.Some? ==> (forall x :: x in r.value <==> x in list.value && x != slug) && |r.value| <= |list.value|
  {
    if list.None? then None
    else Some(Remove(list.value, slug))
  }

  /** `s.filter(x => x !== slug)`. */
  function Remove(s: seq<string>, slug: string): (r: seq<string>)
    ensures forall x :: x in r <==> x in s && x != slug
    ensures |r| <= |s|
  {
    if s == [] then []
    else
      var rest := Remove(s[1..], slug);
      assert forall x :: x in s <==> x == s[0] || x in s[1..];
      if s[0] == slug then rest else [s[0]] + rest
  }

  /** Every other element keeps all its occurrences; the slug keeps none. */
  lemma {:induction false} RemoveCounts(s: seq<string>, slug: string, x: string)
    ensures multiset(Remove(s, slug))[x] == if x == slug then 0 else multiset(s)[x]
  {
    if s != [] {
      assert s == [s[0]] + s[1..];
      RemoveCounts(s[1..], slug, x);
    }
  }

  /** Filtering keeps order: it distributes over concatenation. */
  lemma {:induction false} RemoveAppend(s: seq<string>, t: seq<string>, slug: string)
    ensures Remove(s + t, slug) == Remove(s, slug) + Remove(t, slug)
  {
    if s == [] {
      assert s + t == t;
    } else {
      assert (s + t)[0] == s[0];
      assert (s + t)[1..] == s[1..] + t;
      RemoveAppend(s[1..], t, slug);
    }
  }

  // ---------------------------------------------------------------------
  // addToken (lines 152-199)
  // ---------------------------------------------------------------------

  /** The token-info entry `addToken` writes for an unknown slug; missing
      prices default to 0. */
  function NewTokenInfo(token: UserToken): TokenInfo {
    TokenInfo(token.name, token.symbol, token.slug, token.decimals, token.chain, token.image, token.keywords,
              token.price.GetOr(0.0), token.priceUsd.GetOr(0.0), token.change24h.GetOr(0.0))
  }

  function CurrentBalances(g: GlobalState): Option<map<string, int>> {
    if g.currentAccountId in g.accountStates then g.accountStates[g.currentAccountId].balances else None
  }

  function CurrentSettings(g: GlobalState): AccountSettings {
    if g.currentAccountId in g.accountSettings then g.accountSettings[g.currentAccountId] else NoSettings
  }

  /** `updateCurrentAccountState(global, { balances })`: the other fields of
      the account state are kept. */
  function WithCurrentBalances(g: GlobalState, balances: map<string, int>): GlobalState {
    var id := g.currentAccountId;
    var prev := if id in g.accountStates then g.accountStates[id] else AccountState(None, None);
    g.(accountStates := g.accountStates[id := prev.(balances := Some(balances))])
  }

  /** First step of `addToken`: token info is written only for an unknown slug. */
  function WithTokenInfo(g: GlobalState, token: UserToken): (r: GlobalState)
    ensures token.slug in g.tokenInfo ==> r.tokenInfo == g.tokenInfo
    ensures token.slug !in g.tokenInfo ==> r.tokenInfo == g.tokenInfo[token.slug := NewTokenInfo(token)]
    ensures r.(tokenInfo := g.tokenInfo) == g
  {
    if token.slug in g.tokenInfo then g
    else g.(tokenInfo := g.tokenInfo[token.slug := NewTokenInfo(token)])
  }

  /** Second step of `addToken`: the current account gets a balance for the
      slug, 0 unless it already holds a non-zero one (`!balances?.bySlug[slug]`
      is also true for an entry holding 0n); every other balance, the main
      activity list and the other accounts are kept. */
  function WithZeroBalance(g: GlobalState, slug: string): (r: GlobalState)
    ensures CurrentBalances(r).Some? && slug in CurrentBalances(r).value
    ensures CurrentBalances(r).value[slug] ==
              if CurrentBalances(g).Some? && slug in CurrentBalances(g).value
              then CurrentBalances(g).value[slug] else 0
    ensures forall s :: s != slug && CurrentBalances(g).Some? && s in CurrentBalances(g).value ==>
              s in CurrentBalances(r).value && CurrentBalances(r).value[s] == CurrentBalances(g).value[s]
    ensures forall s :: s in CurrentBalances(r).value && s != slug ==>
              CurrentBalances(g).Some? && s in CurrentBalances(g).value
    ensures g.currentAccountId in r.accountStates
    ensures r.accountStates[g.currentAccountId].idsMain ==
              if g.currentAccountId in g.accountStates then g.accountStates[g.currentAccountId].idsMain else None
    ensures forall id :: id != g.currentAccountId ==>
              (id in r.accountStates <==> id in g.accountStates)
              && (id in g.accountStates ==> r.accountStates[id] == g.accountStates[id])
    ensures r.(accountStates := g.accountStates) == g
  {
    var balances := CurrentBalances(g);
    if balances.None? || slug !in balances.value || balances.value[slug] == 0
    then WithCurrentBalances(g, balances.GetOr(map[])[slug := 0])
    else g
  }

  /** Third step of `addToken`: the slug is appended to the imported and
      ordered lists, merged into the always-shown list without duplicates,
      and filtered out of the always-hidden and deleted lists. */
  function SettingsWithToken(before: AccountSettings, slug: string): (after: AccountSettings)
    ensures after.importedSlugs == Some(before.importedSlugs.GetOr([]) + [slug])
    ensures after.orderedSlugs == Some(before.orderedSlugs.GetOr([]) + [slug])
    ensures after.alwaysShownSlugs.Some?
    ensures NoDuplicates(after.alwaysShownSlugs.value)
    ensures forall x :: x in after.alwaysShownSlugs.value <==> x in before.alwaysShownSlugs.GetOr([]) || x == slug
    ensures after.alwaysHiddenSlugs == Without(before.alwaysHiddenSlugs, slug)
    ensures after.deletedSlugs == Without(before.deletedSlugs, slug)
    ensures after.alwaysHiddenSlugs.Some? ==> slug !in after.alwaysHiddenSlugs.value
    ensures after.deletedSlugs.Some? ==> slug !in after.deletedSlugs.value
  {
    var s1 := before.(importedSlugs := Some(before.importedSlugs.GetOr([]) + [slug]));
    s1.(
      orderedSlugs := Some(s1.orderedSlugs.GetOr([]) + [slug]),
      alwaysShownSlugs := Some(Unique(s1.alwaysShownSlugs.GetOr([]) + [slug])),
      alwaysHiddenSlugs := Without(s1.alwaysHiddenSlugs, slug),
      deletedSlugs := Without(s1.deletedSlugs, slug))
  }

  /** The `addToken` action handler. */
  function AddToken(g: GlobalState, token: UserToken): (r: GlobalState)
    // token info is written only for an unknown slug
    ensures token.slug in g.tokenInfo ==> r.tokenInfo == g.tokenInfo
    ensures token.slug !in g.tokenInfo ==> r.tokenInfo == g.tokenInfo[token.slug := NewTokenInfo(token)]
    // the balance: 0 for a new entry, an existing entry keeps its value, others untouched
    ensures CurrentBalances(r).Some? && token.slug in CurrentBalances(r).value
    ensures CurrentBalances(r).value[token.slug] ==
              if CurrentBalances(g).Some? && token.slug in CurrentBalances(g).value
              then CurrentBalances(g).value[token.slug] else 0
    ensures forall s :: s != token.slug && CurrentBalances(g).Some? && s in CurrentBalances(g).value ==>
              s in CurrentBalances(r).value && CurrentBalances(r).value[s] == CurrentBalances(g).value[s]
    ensures forall s :: s in CurrentBalances(r).value && s != token.slug ==>
              CurrentBalances(g).Some? && s in CurrentBalances(g).value
    // the settings lists
    ensures var before, after := CurrentSettings(g), CurrentSettings(r);
            && after.importedSlugs == Some(before.importedSlugs.GetOr([]) + [token.slug])
            && after.orderedSlugs == Some(before.orderedSlugs.GetOr([]) + [token.slug])
            && after.alwaysShownSlugs.Some?
            && NoDuplicates(after.alwaysShownSlugs.value)
            && (forall x :: x in after.alwaysShownSlugs.value <==>
                              x in before.alwaysShownSlugs.GetOr([]) || x == token.slug)
            && after.alwaysHiddenSlugs == Without(before.alwaysHiddenSlugs, token.slug)
            && after.deletedSlugs == Without(before.deletedSlugs, token.slug)
            && (after.alwaysHiddenSlugs.Some? ==> token.slug !in after.alwaysHiddenSlugs.value)
            && (after.deletedSlugs.Some? ==> token.slug !in after.deletedSlugs.value)
    // the rest of the current account's state is kept
    ensures g.currentAccountId in r.accountStates
    ensures r.accountStates[g.currentAccountId].idsMain ==
              if g.currentAccountId in g.accountStates then g.accountStates[g.currentAccountId].idsMain else None
    // nothing else changes
    ensures r.currentAccountId == g.currentAccountId && r.accounts == g.accounts
    ensures r.swapTokenInfo == g.swapTokenInfo && r.walletVersions == g.walletVersions
    ensures forall id :: id != g.currentAccountId ==>
              (id in r.accountStates <==> id in g.accountStates)
              && (id in g.accountStates ==> r.accountStates[id] == g.accountStates[id])
              && (id in r.accountSettings <==> id in g.accountSettings)
              && (id in g.accountSettings ==> r.accountSettings[id] == g.accountSettings[id])
  {
    var g1 := WithTokenInfo(g, token);
    var g2 := WithZeroBalance(g1, token.slug);
    assert CurrentBalances(g1) == CurrentBalances(g) && CurrentSettings(g2) == CurrentSettings(g);
    var r := g2.(accountSettings := g2.accountSettings[g2.currentAccountId := SettingsWithToken(CurrentSettings(g2), token.slug)]);
    assert CurrentBalances(r) == CurrentBalances(g2);
    r
  }

  // ---------------------------------------------------------------------
  // addSwapToken (lines 294-325)
  // ---------------------------------------------------------------------

  /** The asset `addSwapToken` lists: the token's own descriptive fields,
      not popular, with both prices 0. */
  function NewSwapAsset(token: UserToken): (a: SwapAsset)
    ensures a.name == token.name && a.symbol == token.symbol && a.chain == token.chain
    ensures a.slug == token.slug && a.decimals == token.decimals && a.image == token.image
    ensures a.tokenAddress == token.tokenAddress && a.keywords == token.keywords
    ensures !a.isPopular && a.price == 0.0 && a.priceUsd == 0.0
  {
    SwapAsset(token.name, token.symbol, token.chain, token.slug, token.decimals, token.image,
              token.tokenAddress, token.keywords, false, 0.0, 0.0)
  }

  /** The `addSwapToken` action handler: a known slug leaves the state as it is. */
  function AddSwapToken(g: GlobalState, token: UserToken): (r: GlobalState)
    ensures token.slug in g.swapTokenInfo ==> r == g
    ensures token.slug in r.swapTokenInfo
    ensures token.slug !in g.swapTokenInfo ==> r.swapTokenInfo[token.slug] == NewSwapAsset(token)
    ensures forall s :: s != token.slug ==>
              (s in r.swapTokenInfo <==> s in g.swapTokenInfo)
              && (s in g.swapTokenInfo ==> r.swapTokenInfo[s] == g.swapTokenInfo[s])
    ensures r.(swapTokenInfo := g.swapTokenInfo) == g
  {
    if token.slug in g.swapTokenInfo then g
    else g.(swapTokenInfo := g.swapTokenInfo[token.slug := NewSwapAsset(token)])
  }

  // ---------------------------------------------------------------------
  // apiUpdateWalletVersions (lines 327-341)
  // ---------------------------------------------------------------------

  /** The `apiUpdateWalletVersions` handler: sets the current version and
      the version list of one account. */
  function UpdateWalletVersions(g: GlobalState, accountId: string, versions: seq<WalletVersion>, currentVersion: string)
    : (r: GlobalState)
    ensures r.walletVersions.Some?
    ensures r.walletVersions.value.currentVersion == currentVersion
    ensures accountId in r.walletVersions.value.byId && r.walletVersions.value.byId[accountId] == versions
    ensures forall id :: id != accountId ==>
              (id in r.walletVersions.value.byId <==> g.walletVersions.Some? && id in g.walletVersions.value.byId)
              && (id in r.walletVersions.value.byId ==> r.walletVersions.value.byId[id] == g.walletVersions.value.byId[id])
    ensures r.(walletVersions := g.walletVersions) == g
  {
    var byId := if g.walletVersions.Some? then g.walletVersions.value.byId else map[];
    g.(walletVersions := Some(WalletVersions(currentVersion, byId[accountId := versions])))
  }

  // ---------------------------------------------------------------------
  // The handlers and the initial-load gate
  // ---------------------------------------------------------------------

  /** None of the three handlers removes an account or unloads a main
      activity list, so an account that passed the gate still passes it. */
  lemma HandlersKeepReadiness(g: GlobalState, accountId: string, token: UserToken,
                              versionsOf: string, versions: seq<WalletVersion>, currentVersion: string)
    requires InitialActivitiesReady(g, accountId)
    ensures InitialActivitiesReady(AddToken(g, token), accountId)
    ensures InitialActivitiesReady(AddSwapToken(g, token), accountId)
    ensures InitialActivitiesReady(UpdateWalletVersions(g, versionsOf, versions, currentVersion), accountId)
  {
  }
}
