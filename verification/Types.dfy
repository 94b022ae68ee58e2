/** Tables, enums and constants shared by the wallet, betting, market and settlement models. */
module Types {

  /** A uuid column. The services only compare uuids for equality. */
  type Id = nat

  /** Largest value of a Postgres `integer` column; storing more makes the statement fail. */
  const INT4_MAX: nat := 2147483647

  datatype Option<+T> = None | Some(value: T)

  datatype TransactionType = DEPOSIT | DEBIT | CREDIT

  /** One immutable row of walletTransactions. */
  datatype Row = Row(user: Id, kind: TransactionType, amount: nat, balanceAfter: int, ref: Id)

  datatype BetStatus = PENDING | ACCEPTED | SETTLED | VOID | CANCELLED

  const TERMINAL_STATES: set<BetStatus> := {BetStatus.SETTLED, VOID, CANCELLED}

  function AllowedTransitions(from: BetStatus): set<BetStatus>
  {
    match from
    case PENDING => {ACCEPTED, VOID, CANCELLED}
    case ACCEPTED => {BetStatus.SETTLED, VOID, CANCELLED}
    case _ => {}
  }

  datatype Bet = Bet(user: Id, market: Id, odds: nat, stake: nat, payout: nat, status: BetStatus, ref: Id)

  datatype MarketStatus = OPEN | SUSPENDED | SETTLED

  datatype MarketResult = WIN | LOSS

  datatype Market = Market(odds: nat, status: MarketStatus)

  /** BetPlacementPayload, the body of a bet_placement message. */
  datatype Payload = Payload(betId: Id, user: Id, market: Id, odds: nat, stake: nat, payout: nat)

  /** A published message; `tag` tells two messages with equal payloads apart. */
  datatype Message = Message(tag: nat, payload: Payload)

  /** Everything that survives a crash of the API process: Postgres, Redis and the broker. */
  datatype DB = DB(
    wallets: map<Id, int>,
    ledger: seq<Row>,
    markets: map<Id, Market>,
    bets: map<Id, Bet>,
    cache: map<(Id, Id), Id>,
    queue: seq<Message>,
    inflight: Option<Message>,
    acked: seq<Message>,
    dead: seq<Message>,
    nextTag: nat)

  const EMPTY_DB: DB := DB(map[], [], map[], map[], map[], [], None, [], [], 0)

  /** What a client asks for under one clientMutationId. */
  datatype Request =
    | DepositRequest(user: Id, amount: nat)
    | BetRequest(user: Id, admin: bool, market: Id, stake: nat)
  {
    /** The DTO bounds checked before the services run. */
    predicate Valid() {
      match this
      case DepositRequest(_, amount) => 100 <= amount <= 1_000_000
      case BetRequest(_, _, _, stake) => 100 <= stake <= 1_000_000
    }
  }

  /** floor(stakeCents * oddsInt / 100), exactly. Module Doubles relates it to the floating-point code. */
  function Payout(stake: nat, odds: nat): nat
  {
    stake * odds / 100
  }

  function PayloadOf(id: Id, bet: Bet): Payload
  {
    Payload(id, bet.user, bet.market, bet.odds, bet.stake, bet.payout)
  }

  /** There is always an id that is not in use. */
  lemma FreshId(ids: set<Id>) returns (id: Id)
    ensures id !in ids
  {
    id := 0;
    var rest := ids;
    while id in rest
      invariant rest <= ids && forall x <- ids :: x >= id ==> x in rest
      decreases rest
    {
      rest := rest - {id};
      id := id + 1;
    }
  }
}
