/**
 * The settlement-provider client (api/card2k/exchange_card.py): URLs, the
 * request signature and the JSON payloads, and the reading of the
 * health-check reply. The HTTP transport is an oracle (a reply or None) and
 * the MD5 hex digest is a function parameter `md5`.
 */
module Provider {
  import opened Wrappers
  import Config

  const DefaultProvider: string := "https://card2k.com"

  /** The decoded JSON reply of a submit or check call; absent keys are None. */
  datatype Reply = Reply(
    status: Option<int>,
    message: Option<string>,
    declaredValue: Option<int>,
    requestId: Option<string>,
    transId: Option<string>)

  /** The card fields a caller passes in (`data` in the source). */
  datatype CardData = CardData(telco: string, code: string, serial: string, amount: int, requestId: string)

  /** The JSON body of /chargingws/v2. */
  datatype Payload = Payload(
    telco: string, code: string, serial: string, amount: int,
    requestId: string, partnerId: string, sign: string, command: string)

  /** The client's configuration, fixed when it is constructed. */
  datatype Client = Client(partnerId: string, partnerKey: string, provider: string)

  /** The constructor: the provider comes from configuration, defaulting to card2k.com. */
  function NewClient(partnerId: string, partnerKey: string, configuredProvider: Option<string>): (c: Client)
    ensures configuredProvider.None? ==> c.provider == DefaultProvider
    ensures configuredProvider.Some? ==> c.provider == configuredProvider.value
    ensures c.partnerId == partnerId && c.partnerKey == partnerKey
  {
    Client(partnerId, partnerKey, configuredProvider.GetOr(DefaultProvider))
  }

  const FeePath: string := "/chargingws/v2/getfee?partner_id="
  const ChargingPath: string := "/chargingws/v2"

  function FeeUrl(c: Client): string {
    c.provider + FeePath + c.partnerId
  }

  /** The fee URL ends with the partner id, after the fixed query prefix. */
  lemma FeeUrlShape(c: Client)
    ensures FeeUrl(c)[..|c.provider|] == c.provider
    ensures FeeUrl(c)[|c.provider|..|c.provider| + |FeePath|] == FeePath
    ensures FeeUrl(c)[|c.provider| + |FeePath|..] == c.partnerId
  {
  }

  /** The text that is hashed: partner key, then card code, then serial. */
  function SignInput(partnerKey: string, code: string, serial: string): (r: string)
    ensures |r| == |partnerKey| + |code| + |serial|
    ensures r[..|partnerKey|] == partnerKey
    ensures r[|partnerKey|..|partnerKey| + |code|] == code
    ensures r[|partnerKey| + |code|..] == serial
  {
    partnerKey + code + serial
  }

  function Sign(md5: string -> string, partnerKey: string, code: string, serial: string): string {
    md5(SignInput(partnerKey, code, serial))
  }

  /** The payload shared by both commands. */
  function Request(c: Client, md5: string -> string, d: CardData, command: string): (p: Payload)
    ensures p.telco == d.telco && p.code == d.code && p.serial == d.serial
    ensures p.amount == d.amount && p.requestId == d.requestId
    ensures p.partnerId == c.partnerId && p.sign == Sign(md5, c.partnerKey, d.code, d.serial)
    ensures p.command == command
  {
    Payload(d.telco, d.code, d.serial, d.amount, d.requestId, c.partnerId,
            Sign(md5, c.partnerKey, d.code, d.serial), command)
  }

  /** `exchange_card`: command "charging". */
  function SubmitPayload(c: Client, md5: string -> string, d: CardData): Payload {
    Request(c, md5, d, "charging")
  }

  /** `check_exchange_card`: command "check". */
  function CheckPayload(c: Client, md5: string -> string, d: CardData): Payload {
    Request(c, md5, d, "check")
  }

  /** The two payloads carry the same signature and fields and differ only in `command`. */
  lemma SubmitAndCheckDifferOnlyInCommand(c: Client, md5: string -> string, d: CardData)
    ensures CheckPayload(c, md5, d) == SubmitPayload(c, md5, d).(command := "check")
    ensures SubmitPayload(c, md5, d).sign == CheckPayload(c, md5, d).sign
    ensures SubmitPayload(c, md5, d) != CheckPayload(c, md5, d)
  {
  }

  /** The decoded reply of /chargingws/v2/check-api; `status` is None when the key is absent. */
  datatype HealthReply = HealthReply(status: Option<Config.Value>)

  /**
   * `check_status_api`: None when the request failed, false when the reply
   * has no `status`, otherwise whether the status is the text "active".
   */
  function CheckStatusApi(reply: Option<HealthReply>): (r: Option<bool>)
    ensures r.None? <==> reply.None?
    ensures reply.Some? && reply.value.status.None? ==> r == Some(false)
    ensures r == Some(true) <==> reply.Some? && reply.value.status == Some(Config.Str("active"))
  {
    match reply
    case None => None
    case Some(h) =>
      match h.status
      case None => Some(false)
      case Some(s) => Some(s == Config.Str("active"))
  }
}
