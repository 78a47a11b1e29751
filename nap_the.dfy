/**
 * The `/nap-the` command (cogs/nap-the.py): the older submission path. It
 * checks enablement and the stored setup but not the card format, and it
 * submits through helpers/api.py in a session of its own.
 */
module NapThe {
  import opened Wrappers
  import opened Config
  import opened Records
  import opened Database
  import opened Submission
  import NapTheCao
  import LegacyApi
  import Provider
  import Text

  datatype DataError = TelcoNotSupported | AmountNotSupported

  /**
   * `_validated_data`: the carrier check first, then the face value, with
   * the same lookups as the other cog.
   */
  function ValidatedData(cardTypes: Value, cardAmounts: Value, telco: string, amount: int): (r: Verdict<DataError>)
    ensures r == Accept <==>
      NapTheCao.CheckTelco(cardTypes, telco) == Some(true) &&
      NapTheCao.CheckAmount(cardAmounts, telco, amount) == Some(true)
    ensures r == Reject(TelcoNotSupported) <==> NapTheCao.CheckTelco(cardTypes, telco) == Some(false)
    ensures r == Reject(AmountNotSupported) <==>
      NapTheCao.CheckTelco(cardTypes, telco) == Some(true) &&
      NapTheCao.CheckAmount(cardAmounts, telco, amount) == Some(false)
  {
    match NapTheCao.CheckTelco(cardTypes, telco)
    case None => Raise
    case Some(false) => Reject(TelcoNotSupported)
    case Some(true) =>
      match NapTheCao.CheckAmount(cardAmounts, telco, amount)
      case None => Raise
      case Some(false) => Reject(AmountNotSupported)
      case Some(true) => Accept
  }

  datatype SetupError = NotSetUp | NoProvider

  /**
   * `_validated_setup`: the first credential row exists with a non-empty
   * id and key, then the configured provider is truthy. `provider` is None
   * when the settings have no `provider` key, where `config["provider"]`
   * raises.
   */
  function ValidatedSetup(row: Option<Credential>, provider: Option<Value>): (r: Verdict<SetupError>)
    ensures r == Accept <==>
      row.Some? && row.value.partnerId != "" && row.value.partnerKey != "" &&
      provider.Some? && Truthy(provider.value)
    ensures r == Reject(NotSetUp) <==> row.None? || row.value.partnerId == "" || row.value.partnerKey == ""
    ensures r == Raise <==> r != Reject(NotSetUp) && provider.None?
  {
    if row.None? || row.value.partnerId == "" || row.value.partnerKey == "" then Reject(NotSetUp)
    else if provider.None? then Raise
    else if !Truthy(provider.value) then Reject(NoProvider)
    else Accept
  }

  datatype CommandOutcome =
    | ShowDataError(dataError: DataError)
    | ShowSetupError(setupError: SetupError)
    | ShowConfirmation
    | Logged            // a check raised; the handler only logs it

  /** `nap_the`: the data checks, then the setup checks; no card-format check at all. */
  function Command(cardTypes: Value, cardAmounts: Value, row: Option<Credential>, provider: Option<Value>,
                   telco: string, amount: int): (r: CommandOutcome)
    ensures r == ShowConfirmation <==>
      ValidatedData(cardTypes, cardAmounts, telco, amount) == Accept && ValidatedSetup(row, provider) == Accept
    ensures r.ShowDataError? <==> ValidatedData(cardTypes, cardAmounts, telco, amount).Reject?
    ensures r.ShowDataError? ==> ValidatedData(cardTypes, cardAmounts, telco, amount) == Reject(r.dataError)
    ensures r.ShowSetupError? <==>
      ValidatedData(cardTypes, cardAmounts, telco, amount) == Accept && ValidatedSetup(row, provider).Reject?
    ensures r.ShowSetupError? ==> ValidatedSetup(row, provider) == Reject(r.setupError)
    ensures r == Logged <==>
      || ValidatedData(cardTypes, cardAmounts, telco, amount) == Raise
      || (ValidatedData(cardTypes, cardAmounts, telco, amount) == Accept && ValidatedSetup(row, provider) == Raise)
  {
    match ValidatedData(cardTypes, cardAmounts, telco, amount)
    case Raise => Logged
    case Reject(e) => ShowDataError(e)
    case Accept =>
      match ValidatedSetup(row, provider)
      case Raise => Logged
      case Reject(e) => ShowSetupError(e)
      case Accept => ShowConfirmation
  }

  /**
   * A card the other cog refuses for its format is offered for
   * confirmation here: with tables that offer Viettel cards of 10000,
   * any Viettel card whose serial is shorter than eleven characters.
   */
  lemma NoCardFormatCheck(cardTypes: Value, cardAmounts: Value, code: string, serial: string)
    requires cardTypes == Dict(map[Name("viettel") := Bool(true)])
    requires cardAmounts == Dict(map[Name("viettel") := Dict(map[Num(10000) := Bool(true)])])
    requires |serial| < 11
    ensures Command(cardTypes, cardAmounts, Some(Credential("p1", "k1")), Some(Str(Provider.DefaultProvider)),
                    "viettel", 10000) == ShowConfirmation
    ensures NapTheCao.Command(Bool(true), Bool(false), false, cardTypes, cardAmounts, "viettel", 10000, code, serial)
              == NapTheCao.InvalidCard
  {
    ViettelOffered(cardTypes, cardAmounts);
    ShortViettelRefused(code, serial);
    assert Truthy(Bool(true)) && !Truthy(Bool(false));
  }

  /** Both cogs' checks pass for a Viettel card of 10000 that the tables offer. */
  lemma ViettelOffered(cardTypes: Value, cardAmounts: Value)
    requires cardTypes == Dict(map[Name("viettel") := Bool(true)])
    requires cardAmounts == Dict(map[Name("viettel") := Dict(map[Num(10000) := Bool(true)])])
    ensures NapTheCao.CheckTelco(cardTypes, "viettel") == Some(true)
    ensures NapTheCao.CheckAmount(cardAmounts, "viettel", 10000) == Some(true)
    ensures Command(cardTypes, cardAmounts, Some(Credential("p1", "k1")), Some(Str(Provider.DefaultProvider)),
                    "viettel", 10000) == ShowConfirmation
  {
    assert ValidatedData(cardTypes, cardAmounts, "viettel", 10000) == Accept;
    assert ValidatedSetup(Some(Credential("p1", "k1")), Some(Str(Provider.DefaultProvider))) == Accept by {
      assert |Provider.DefaultProvider| > 0;
    }
  }

  /** A Viettel serial shorter than eleven characters fails the format check. */
  lemma ShortViettelRefused(code: string, serial: string)
    requires |serial| < 11
    ensures !NapTheCao.CheckCodeSerial("viettel", code, serial)
  {
    assert NapTheCao.FormatOf(Text.Upper("viettel")) == Some(NapTheCao.CardFormat([11, 14], [13, 15])) by {
      assert Text.Upper("viettel") == "VIETTEL";
    }
    assert |serial| !in [11, 14];
  }

  /**
   * `process_card_exchange`: open a session, submit the card through
   * helpers/api.py (which reads the first credential row, then the
   * `provider` key, and signs with the row), add one pending row when the
   * reply is accepted, roll back on any failure, and close the cog's
   * session on every path. `provider` is the key's value, None when the
   * key is absent; the row's `server` is `config.get("provider", "")`,
   * which is the key's value whenever a row can be added. The submit
   * helper opens a second session; it closes it in its `finally`, but that
   * block is entered only after the row and the key were read, so without
   * either the helper's session stays open.
   */
  method ProcessCardExchange(store: Store, provider: Option<string>, md5: string -> string, uuid: string,
                             s: Submitted, reply: Option<Provider.Reply>, followupId: Option<string>,
                             commitOk: bool)
    returns (sent: Option<LegacyApi.ChargingRequest>, r: Result<ExchangeRecord, SubmitFailure>)
    modifies store
    ensures FirstRow(old(store.credentials)).None? ==> sent.None? && r == Err(NoCredentials)
    ensures FirstRow(old(store.credentials)).Some? && provider.None? ==> sent.None? && r == Err(NoProviderSetting)
    ensures FirstRow(old(store.credentials)).Some? && provider.Some? ==>
      && sent == Some(LegacyApi.ExchangeCardRequest(FirstRow(old(store.credentials)).value, provider.value, md5, uuid,
                                                    s.telco, s.amount, s.code, s.serial))
      && r == (if PendingRecord(reply, followupId, s, provider.value).Ok? && !commitOk then Err(CommitFailed)
               else PendingRecord(reply, followupId, s, provider.value))
    ensures r.Ok? ==> provider.Some? && r.value.server == Some(provider.value)
    ensures r.Ok? ==> store.history == old(store.history) + [r.value]
    ensures r.Err? ==> store.history == old(store.history)
    ensures store.credentials == old(store.credentials)
    ensures store.sessionsOpened == old(store.sessionsOpened) + 2
    ensures store.sessionsClosed == old(store.sessionsClosed) +
      if FirstRow(old(store.credentials)).Some? && provider.Some? then 2 else 1
  {
    store.sessionsOpened := store.sessionsOpened + 2;
    var row := FirstRow(store.credentials);
    if row.None? {
      sent, r := None, Err(NoCredentials);
    } else if provider.None? {
      sent, r := None, Err(NoProviderSetting);
    } else {
      store.sessionsClosed := store.sessionsClosed + 1;
      sent := Some(LegacyApi.ExchangeCardRequest(row.value, provider.value, md5, uuid, s.telco, s.amount, s.code, s.serial));
      r := PendingRecord(reply, followupId, s, provider.value);
      if r.Ok? {
        if commitOk {
          store.history := store.history + [r.value];
        } else {
          r := Err(CommitFailed);
        }
      }
    }
    store.sessionsClosed := store.sessionsClosed + 1;
  }
}
