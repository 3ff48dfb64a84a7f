/** The endpoint methods of `API`: each is a fixed triple of URL path, HTTP
    method and whether it is private (checks credentials before sending).
    Every method forwards its keyword arguments unchanged as the params.
 */
module Endpoints {
  import opened Codecs
  import opened Signing

  datatype Endpoint =
    | Markets
    | Board
    | Ticker
    | Executions
    | GetBoardState
    | GetHealth
    | GetChats
    | GetPermissions
    | GetBalance
    | GetCollateral
    | GetCollateralAccounts
    | GetAddresses
    | GetCoinIns
    | GetCoinOuts
    | GetBankAccounts
    | GetDeposits
    | Withdraw
    | GetWithdrawals
    | SendChildOrder
    | CancelChildOrder
    | SendParentOrder
    | CancelParentOrder
    | CancelAllChildOrders
    | GetChildOrders
    | GetParentOrders
    | GetParentOrder
    | GetExecutions
    | GetBalanceHistory
    | GetPositions
    | GetCollateralHistory
    | GetTradingCommission

  /** The URL path of each endpoint method; all lie under version 1 of the API. */
  function Path(e: Endpoint): (p: string)
    ensures "/v1/" <= p
  {
    match e
    case Markets => "/v1/markets"
    case Board => "/v1/board"
    case Ticker => "/v1/ticker"
    case Executions => "/v1/executions"
    case GetBoardState => "/v1/getboardstate"
    case GetHealth => "/v1/gethealth"
    case GetChats => "/v1/getchats"
    case GetPermissions => "/v1/me/getpermissions"
    case GetBalance => "/v1/me/getbalance"
    case GetCollateral => "/v1/me/getcollateral"
    case GetCollateralAccounts => "/v1/me/getcollateralaccounts"
    case GetAddresses => "/v1/me/getaddresses"
    case GetCoinIns => "/v1/me/getcoinins"
    case GetCoinOuts => "/v1/me/getcoinouts"
    case GetBankAccounts => "/v1/me/getbankaccounts"
    case GetDeposits => "/v1/me/getdeposits"
    case Withdraw => "/v1/me/withdraw"
    case GetWithdrawals => "/v1/me/getwithdrawals"
    case SendChildOrder => "/v1/me/sendchildorder"
    case CancelChildOrder => "/v1/me/cancelchildorder"
    case SendParentOrder => "/v1/me/sendparentorder"
    case CancelParentOrder => "/v1/me/cancelparentorder"
    case CancelAllChildOrders => "/v1/me/cancelallchildorders"
    case GetChildOrders => "/v1/me/getchildorders"
    case GetParentOrders => "/v1/me/getparentorders"
    case GetParentOrder => "/v1/me/getparentorder"
    case GetExecutions => "/v1/me/getexecutions"
    case GetBalanceHistory => "/v1/me/getbalancehistory"
    case GetPositions => "/v1/me/getpositions"
    case GetCollateralHistory => "/v1/me/getcollateralhistory"
    case GetTradingCommission => "/v1/me/gettradingcommission"
  }

  /** The six endpoints that pass "POST"; every other method relies on the
      default "GET". */
  const PostEndpoints: set<Endpoint> :=
    {Withdraw, SendChildOrder, CancelChildOrder, SendParentOrder, CancelParentOrder, CancelAllChildOrders}

  function MethodOf(e: Endpoint): (m: Method)
    ensures m == POST <==> e in PostEndpoints
  {
    match e
    case Withdraw | SendChildOrder | CancelChildOrder
       | SendParentOrder | CancelParentOrder | CancelAllChildOrders => POST
    case _ => GET
  }

  /** The methods under "HTTP Public API" never look at the credentials; all
      the others begin with the credential check. */
  predicate IsPrivate(e: Endpoint)
    // every endpoint that writes (POST) checks the credentials
    ensures MethodOf(e) == POST ==> IsPrivate(e)
  {
    match e
    case Markets | Board | Ticker | Executions | GetBoardState | GetHealth | GetChats => false
    case _ => true
  }

  /** Exactly six endpoints use POST. */
  lemma ExactlySixPost()
    ensures forall e :: MethodOf(e) == POST <==> e in PostEndpoints
    ensures |PostEndpoints| == 6
  {
  }

  /** No public path lies under "/v1/me/". */
  lemma PublicNotUnderMe(e: Endpoint)
    requires !IsPrivate(e)
    ensures !("/v1/me/" <= Path(e))
  {
    match e
    case Markets => assert Path(e)[5] != "/v1/me/"[5];
    case Board => assert Path(e)[4] != "/v1/me/"[4];
    case Ticker => assert Path(e)[4] != "/v1/me/"[4];
    case Executions => assert Path(e)[4] != "/v1/me/"[4];
    case GetBoardState => assert Path(e)[4] != "/v1/me/"[4];
    case GetHealth => assert Path(e)[4] != "/v1/me/"[4];
    case GetChats => assert Path(e)[4] != "/v1/me/"[4];
  }

  /** Every private path lies under "/v1/me/". */
  lemma PrivateUnderMe(e: Endpoint)
    requires IsPrivate(e)
    ensures "/v1/me/" <= Path(e)
  {
  }

  /** An endpoint is private exactly when its path lies under "/v1/me/". */
  lemma PrivateIffUnderMe(e: Endpoint)
    ensures IsPrivate(e) <==> "/v1/me/" <= Path(e)
  {
    if IsPrivate(e) {
      PrivateUnderMe(e);
    } else {
      PublicNotUnderMe(e);
    }
  }
}
