/**
 * The exchange-history table (database/models/history_exchange_card.py):
 * one row per submitted card, created `pending` and resolved by the
 * status sweep.
 */
module Records {
  import opened Wrappers

  /** The column's enum: "success", "failed", "wrong_amount", "pending". */
  datatype Status = Success | Failed | WrongAmount | Pending

  predicate IsTerminal(s: Status) {
    s != Pending
  }

  /** The string stored in the enum column. */
  function StatusName(s: Status): string {
    match s
    case Success => "success"
    case Failed => "failed"
    case WrongAmount => "wrong_amount"
    case Pending => "pending"
  }

  /** Reading the enum column back; any other text is not a legal value. */
  function ParseStatus(name: string): (r: Option<Status>)
    ensures r.Some? ==> StatusName(r.value) == name
    ensures (exists s :: StatusName(s) == name) ==> r.Some?
  {
    if name == "success" then Some(Success)
    else if name == "failed" then Some(Failed)
    else if name == "wrong_amount" then Some(WrongAmount)
    else if name == "pending" then Some(Pending)
    else None
  }

  lemma StatusNameRoundTrip(s: Status)
    ensures ParseStatus(StatusName(s)) == Some(s)
  {
  }

  /**
   * A row. Non-nullable columns are plain values, nullable ones Options.
   * The autoincrement id and the two timestamps are not modelled; a row's
   * identity is its position in the table.
   */
  datatype ExchangeRecord = ExchangeRecord(
    telco: string,
    value: int,
    code: string,
    serial: string,
    userId: string,
    messageId: string,
    channelId: Option<string>,
    cardValue: int,
    server: Option<string>,
    requestId: string,
    transactionId: Option<string>,
    status: Status)

  /**
   * Constructing a row the way the ORM does: `value` and `card_value`
   * default to 0 and `status` to "pending" when the caller leaves them out.
   */
  function NewRecord(
    telco: string, value: Option<int>, code: string, serial: string,
    userId: string, messageId: string, channelId: Option<string>,
    cardValue: Option<int>, server: Option<string>, requestId: string,
    transactionId: Option<string>, status: Option<Status>): (r: ExchangeRecord)
    ensures value.None? ==> r.value == 0
    ensures value.Some? ==> r.value == value.value
    ensures cardValue.None? ==> r.cardValue == 0
    ensures cardValue.Some? ==> r.cardValue == cardValue.value
    ensures status.None? ==> r.status == Pending
    ensures status.Some? ==> r.status == status.value
    ensures r.telco == telco && r.code == code && r.serial == serial
    ensures r.userId == userId && r.messageId == messageId && r.requestId == requestId
    ensures r.channelId == channelId && r.server == server && r.transactionId == transactionId
  {
    ExchangeRecord(telco, value.GetOr(0), code, serial, userId, messageId, channelId,
                   cardValue.GetOr(0), server, requestId, transactionId, status.GetOr(Pending))
  }

  /**
   * A row of the partner-credential table (`card2k`): both columns are
   * non-nullable strings of at most 255 characters.
   */
  datatype Credential = Credential(partnerId: string, partnerKey: string)
}
