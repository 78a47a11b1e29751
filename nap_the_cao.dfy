/**
 * The `/nap_the_cao` command (cogs/nap_the_cao.py): the enablement checks
 * against the settings, the per-carrier card format table, the order in
 * which the checks run, and the submission of a confirmed card through
 * the provider client.
 */
module NapTheCao {
  import opened Wrappers
  import opened Config
  import opened Text
  import opened Records
  import opened Database
  import opened Submission
  import Provider
  import Ids

  // ---- enablement --------------------------------------------------------

  /**
   * `_check_telco`: the carrier's entry under `card_types` is truthy (an
   * absent carrier counts as false). None: `card_types` is not a mapping,
   * so `.get` raises.
   */
  function CheckTelco(cardTypes: Value, telco: string): (r: Option<bool>)
    ensures r.None? <==> !cardTypes.Dict?
    ensures r == Some(true) <==>
      cardTypes.Dict? && Name(telco) in cardTypes.entries && Truthy(cardTypes.entries[Name(telco)])
  {
    if !cardTypes.Dict? then None
    else Some(Name(telco) in cardTypes.entries && Truthy(cardTypes.entries[Name(telco)]))
  }

  /** Python's `xs[k]`, negative k counting from the end; None for IndexError. */
  function PyIndex(xs: seq<Value>, k: int): (r: Option<Value>)
    ensures r.Some? <==> -|xs| <= k < |xs|
    ensures 0 <= k < |xs| ==> r == Some(xs[k])
  {
    if 0 <= k < |xs| then Some(xs[k])
    else if -|xs| <= k < 0 then Some(xs[|xs| + k])
    else None
  }

  /**
   * `_check_amount`: the carrier's entry under `card_amounts` (an empty
   * mapping when absent) contains the face value with a truthy flag. A list
   * entry is searched and then indexed by the face value; text, numbers,
   * booleans and null make `in` raise. None: the check raises.
   */
  function CheckAmount(cardAmounts: Value, telco: string, amount: int): (r: Option<bool>)
    ensures !cardAmounts.Dict? ==> r.None?
    ensures cardAmounts.Dict? && Name(telco) !in cardAmounts.entries ==> r == Some(false)
    ensures cardAmounts.Dict? && Name(telco) in cardAmounts.entries && cardAmounts.entries[Name(telco)].Dict? ==>
      var m := cardAmounts.entries[Name(telco)].entries;
      r == Some(Num(amount) in m && Truthy(m[Num(amount)]))
    ensures cardAmounts.Dict? && Name(telco) in cardAmounts.entries && cardAmounts.entries[Name(telco)].List? ==>
      var xs := cardAmounts.entries[Name(telco)].items;
      && (Int(amount) !in xs ==> r == Some(false))
      && (Int(amount) in xs && PyIndex(xs, amount).None? ==> r.None?)
      && (Int(amount) in xs && PyIndex(xs, amount).Some? ==> r == Some(Truthy(PyIndex(xs, amount).value)))
    ensures cardAmounts.Dict? && Name(telco) in cardAmounts.entries ==>
      var e := cardAmounts.entries[Name(telco)];
      !e.Dict? && !e.List? ==> r.None?
    ensures r == Some(true) ==> cardAmounts.Dict? && Name(telco) in cardAmounts.entries
  {
    if !cardAmounts.Dict? then None
    else if Name(telco) !in cardAmounts.entries then Some(false)
    else
      match cardAmounts.entries[Name(telco)]
      case Dict(m) => Some(Num(amount) in m && Truthy(m[Num(amount)]))
      case List(xs) =>
        if Int(amount) !in xs then Some(false)
        else
          (match PyIndex(xs, amount)
           case None => None
           case Some(v) => Some(Truthy(v)))
      case _ => None
  }

  // ---- the card format table -----------------------------------------------

  /** Accepted serial lengths and PIN (code) lengths of one carrier. */
  datatype CardFormat = CardFormat(serialLengths: seq<nat>, pinLengths: seq<nat>)

  /** The twelve carriers of `format_dict`, by upper-case name. */
  function FormatOf(carrier: string): Option<CardFormat> {
    if carrier == "VIETTEL" then Some(CardFormat([11, 14], [13, 15]))
    else if carrier == "MOBIFONE" then Some(CardFormat([15], [12]))
    else if carrier == "VINAPHONE" then Some(CardFormat([14], [14]))
    else if carrier == "VNMOBI" then Some(CardFormat([16], [12]))
    else if carrier == "VNMB" then Some(CardFormat([16], [12]))
    else if carrier == "VIETNAMOBILE" then Some(CardFormat([16], [12]))
    else if carrier == "GARENA" then Some(CardFormat([9], [16]))
    else if carrier == "GARENA2" then Some(CardFormat([9], [16]))
    else if carrier == "ZING" then Some(CardFormat([12], [9]))
    else if carrier == "VCOIN" then Some(CardFormat([12], [12]))
    else if carrier == "GATE" then Some(CardFormat([10], [10]))
    else if carrier == "APPOTA" then Some(CardFormat([12], [12]))
    else None
  }

  /**
   * `_check_code_serial`: a carrier of the table (after upper-casing), both
   * strings alphanumeric, and each length among the carrier's own.
   */
  function CheckCodeSerial(telco: string, code: string, serial: string): (r: bool)
    ensures r ==> FormatOf(Upper(telco)).Some? && IsAlnum(code) && IsAlnum(serial)
    ensures r <==>
      match FormatOf(Upper(telco))
      case None => false
      case Some(f) => IsAlnum(serial) && IsAlnum(code) && |serial| in f.serialLengths && |code| in f.pinLengths
  {
    match FormatOf(Upper(telco))
    case None => false
    case Some(f) =>
      if !(IsAlnum(serial) && IsAlnum(code)) then false
      else |serial| in f.serialLengths && |code| in f.pinLengths
  }

  /** Viettel accepts exactly the serials of 11 or 14 and the PINs of 13 or 15 characters. */
  lemma ViettelFormat(code: string, serial: string)
    requires IsAlnum(code) && IsAlnum(serial)
    ensures CheckCodeSerial("viettel", code, serial) <==>
      (|serial| == 11 || |serial| == 14) && (|code| == 13 || |code| == 15)
  {
    assert Upper("viettel") == "VIETTEL";
  }

  /** The carrier name is matched case-insensitively. */
  lemma CarrierCaseIgnored(telco: string, code: string, serial: string)
    ensures CheckCodeSerial(Upper(telco), code, serial) == CheckCodeSerial(telco, code, serial)
  {
    UpperIdempotent(telco);
  }

  /** No carrier accepts a serial shorter than 9 or longer than 16 characters. */
  lemma SerialLengthBounds(telco: string, code: string, serial: string)
    requires |serial| < 9 || |serial| > 16
    ensures !CheckCodeSerial(telco, code, serial)
  {
  }

  /** A carrier outside the table is refused whatever the code and serial. */
  lemma UnknownCarrierRefused(code: string, serial: string)
    ensures !CheckCodeSerial("mobi", code, serial)
  {
    assert Upper("mobi") == "MOBI";
  }

  // ---- the command ------------------------------------------------------

  datatype CommandOutcome =
    | CommandDisabled
    | AdminOnly
    | UnsupportedTelco
    | UnsupportedAmount
    | InvalidCard
    | CommandFailed     // a check raised; the handler reports a generic error
    | ShowConfirmation

  /**
   * `nap_the_cao_command`: enabled, then the admin restriction, then the
   * carrier, the face value and the card format; the first failing check
   * answers and nothing else happens.
   */
  function Command(enabled: Value, onlyAdmin: Value, isAdmin: bool, cardTypes: Value, cardAmounts: Value,
                   telco: string, amount: int, code: string, serial: string): (r: CommandOutcome)
    ensures r == ShowConfirmation <==>
      && Truthy(enabled) && (!Truthy(onlyAdmin) || isAdmin)
      && CheckTelco(cardTypes, telco) == Some(true)
      && CheckAmount(cardAmounts, telco, amount) == Some(true)
      && CheckCodeSerial(telco, code, serial)
    ensures r == CommandDisabled <==> !Truthy(enabled)
    ensures r == AdminOnly <==> Truthy(enabled) && Truthy(onlyAdmin) && !isAdmin
    ensures r == UnsupportedTelco <==>
      Truthy(enabled) && (!Truthy(onlyAdmin) || isAdmin) && CheckTelco(cardTypes, telco) == Some(false)
    ensures r == UnsupportedAmount <==>
      && Truthy(enabled) && (!Truthy(onlyAdmin) || isAdmin)
      && CheckTelco(cardTypes, telco) == Some(true) && CheckAmount(cardAmounts, telco, amount) == Some(false)
    ensures r == InvalidCard <==>
      && Truthy(enabled) && (!Truthy(onlyAdmin) || isAdmin)
      && CheckTelco(cardTypes, telco) == Some(true) && CheckAmount(cardAmounts, telco, amount) == Some(true)
      && !CheckCodeSerial(telco, code, serial)
    ensures r == CommandFailed <==>
      && Truthy(enabled) && (!Truthy(onlyAdmin) || isAdmin)
      && (CheckTelco(cardTypes, telco).None? ||
          (CheckTelco(cardTypes, telco) == Some(true) && CheckAmount(cardAmounts, telco, amount).None?))
  {
    if !Truthy(enabled) then CommandDisabled
    else if Truthy(onlyAdmin) && !isAdmin then AdminOnly
    else
      match CheckTelco(cardTypes, telco)
      case None => CommandFailed
      case Some(false) => UnsupportedTelco
      case Some(true) =>
        match CheckAmount(cardAmounts, telco, amount)
        case None => CommandFailed
        case Some(false) => UnsupportedAmount
        case Some(true) =>
          if !CheckCodeSerial(telco, code, serial) then InvalidCard else ShowConfirmation
  }

  // ---- processing a confirmed card ---------------------------------------

  /**
   * `process_card_exchange`: submit the card under a short fresh request
   * id, and on an accepted reply add one pending row through the cog's own
   * session; any failure rolls back and leaves the table as it was. The
   * row's `server` is the `provider` setting (`providerSetting`, None when
   * the key is absent), defaulting to https://card2k.com.
   */
  method ProcessCardExchange(store: Store, client: Provider.Client, md5: string -> string, uuid: string,
                             providerSetting: Option<string>,
                             s: Submitted, reply: Option<Provider.Reply>, followupId: Option<string>,
                             commitOk: bool)
    returns (sent: Provider.Payload, r: Result<ExchangeRecord, SubmitFailure>)
    modifies store
    ensures sent == Provider.SubmitPayload(client, md5,
      Provider.CardData(s.telco, s.code, s.serial, s.amount, Ids.GenerateUuid(uuid, true)))
    ensures var server := providerSetting.GetOr(Provider.DefaultProvider);
      r == (if PendingRecord(reply, followupId, s, server).Ok? && !commitOk then Err(CommitFailed)
            else PendingRecord(reply, followupId, s, server))
    ensures r.Ok? ==> r.value.server == Some(providerSetting.GetOr(Provider.DefaultProvider))
    ensures r.Ok? ==> store.history == old(store.history) + [r.value]
    ensures r.Err? ==> store.history == old(store.history)
    ensures store.credentials == old(store.credentials)
    ensures store.sessionsOpened == old(store.sessionsOpened) && store.sessionsClosed == old(store.sessionsClosed)
  {
    var requestId := Ids.GenerateUuid(uuid, true);
    sent := Provider.SubmitPayload(client, md5, Provider.CardData(s.telco, s.code, s.serial, s.amount, requestId));
    r := PendingRecord(reply, followupId, s, providerSetting.GetOr(Provider.DefaultProvider));
    if r.Ok? {
      if commitOk {
        store.history := store.history + [r.value];
      } else {
        r := Err(CommitFailed);
      }
    }
  }
}
