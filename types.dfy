/** Shared vocabulary of the wallet model: the optional-value wrapper,
    chains, networks, activity records, the events published to the UI and
    the user's token records. */
module Types {

  datatype Option<+T> = None | Some(value: T) {
    function GetOr(default: T): T {
      match this
      case Some(v) => v
      case None => default
    }
  }

  /** JavaScript truthiness of an optional string: absent and "" are falsy. */
  predicate Truthy(o: Option<string>) {
    o.Some? && o.value != ""
  }

  datatype Chain = Ton | Tron

  datatype Network = Mainnet | Testnet

  datatype Status = Local | Pending | Confirmed | Failed

  /** An activity of an account's history: either a transfer or a swap.
      Fields that both kinds carry have the same name in both constructors. */
  datatype Activity =
    | TransactionActivity(
        id: string,
        timestamp: int,
        status: Status,
        shouldHide: bool,
        externalMsgHashNorm: Option<string>,
        txId: string,
        fromAddress: string,
        toAddress: string,
        normalizedAddress: Option<string>,
        amount: int,
        fee: int,
        slug: string,
        comment: Option<string>,
        encryptedComment: Option<string>)
    | SwapActivity(
        id: string,
        timestamp: int,
        status: Status,
        shouldHide: bool,
        externalMsgHashNorm: Option<string>,
        from: string,
        to: string,
        fromAmount: int,
        toAmount: int)

  /** Events handed to the `onUpdate` callback of the API layer. */
  datatype ApiUpdate =
    | NewLocalActivities(accountId: string, activities: seq<Activity>)
    | OpenUrl(url: string, isExternal: bool)

  /** A token as the wallet lists it for the current account (`UserToken`);
      `amount` is the balance in the token's smallest unit. */
  datatype UserToken = UserToken(
    name: string,
    symbol: string,
    slug: string,
    decimals: nat,
    chain: Chain,
    image: Option<string>,
    keywords: seq<string>,
    tokenAddress: Option<string>,
    price: Option<real>,
    priceUsd: Option<real>,
    change24h: Option<real>,
    amount: int)
}
