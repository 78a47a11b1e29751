/**
 * The older fee and request helpers (helpers/api.py). They fetch the fee
 * list themselves and, unlike the fee service, accept any non-empty list
 * without the error-envelope guard.
 */
module LegacyApi {
  import opened Wrappers
  import opened OrderedDict
  import opened FeeSchedule
  import opened Records
  import Provider
  import Ids

  /**
   * `get_fee_api`: no request unless the first credential row has a
   * non-empty partner id and the configured provider is non-empty; then the
   * decoded list the fee URL answers with, None on any failure (`fetch`).
   */
  function GetFeeApi(row: Option<Credential>, provider: string, fetch: string -> Option<seq<FeeItem>>)
    : (r: Option<seq<FeeItem>>)
    ensures row.None? || row.value.partnerId == "" || provider == "" ==> r.None?
    ensures row.Some? && row.value.partnerId != "" && provider != "" ==>
      r == fetch(provider + Provider.FeePath + row.value.partnerId)
  {
    if row.None? || row.value.partnerId == "" || provider == "" then None
    else fetch(provider + Provider.FeePath + row.value.partnerId)
  }

  /**
   * `get_fee_telco_api_min`: both fields None unless some item has a fee
   * and a carrier; otherwise the first such item of minimal fee (the strict
   * comparison keeps the earliest).
   */
  method GetFeeTelcoApiMin(data: Option<seq<FeeItem>>) returns (telcoMin: Option<string>, feeMin: Option<int>)
    ensures feeMin.None? <==> data.None? || NoneEligible(data.value, true)
    ensures feeMin.None? ==> telcoMin.None?
    ensures feeMin.Some? ==>
      exists i :: FirstMinAt(data.value, i, true) &&
        feeMin == data.value[i].fees && telcoMin == data.value[i].telco
  {
    telcoMin, feeMin := None, None;
    if data.None? || |data.value| == 0 {
      return;
    }
    var items := data.value;
    ghost var pos := 0;
    for i := 0 to |items|
      invariant feeMin.None? <==> NoneEligible(items[..i], true)
      invariant feeMin.None? ==> telcoMin.None?
      invariant feeMin.Some? ==>
        && FirstMinAt(items[..i], pos, true)
        && feeMin == items[pos].fees && telcoMin == items[pos].telco
    {
      var fee, telco := items[i].fees, items[i].telco;
      if fee.Some? && telco.Some? {
        if feeMin.None? || fee.value < feeMin.value {
          feeMin, telcoMin := fee, telco;
          pos := i;
        }
      }
    }
    assert items[..|items|] == items;
  }

  /**
   * `get_all_fee_min_telco_api`: per carrier the smallest raw fee, ordered
   * by fee; an empty map (not None) when there is no data.
   */
  method GetAllFeeMinTelcoApi(data: Option<seq<FeeItem>>) returns (r: seq<(string, int)>)
    ensures data.None? ==> r == []
    ensures SortedByValue(r) && DistinctKeys(r)
    ensures data.Some? ==>
      && (forall t :: Lookup(r, t).Some? <==> |FeesFor(data.value, t)| > 0)
      && (forall t :: |FeesFor(data.value, t)| > 0 ==> Lookup(r, t) == Some(SeqMin(FeesFor(data.value, t))))
  {
    var d: seq<(string, int)> := [];
    if data.Some? && |data.value| > 0 {
      d := MinFeePerTelco(data.value, false);
    }
    r := SortByValue(d);
    SortByValueSorted(d);
    SortKeepsLookups(d);
  }

  /**
   * `get_fee_telco_api`: the carrier-detail lookup, with all-None fields
   * when there is no data.
   */
  method GetFeeTelcoApi(data: Option<seq<FeeItem>>, telco: string) returns (r: Result<FeeInfo, FeeError>)
    ensures data.None? ==> r == Ok(NoFeeInfo)
    ensures data.Some? ==>
      var d := FeeDictOf(data.value, telco);
      && (d == [] <==> r == Ok(NoFeeInfo))
      && (d != [] ==>
            exists i :: FirstMinEntry(d, i) &&
              if d[i].0.None? then r == Err(AmountNotInteger)
              else r == Ok(FeeInfo(Some(d[i].1), d[i].0, Some(d))))
  {
    if data.None? || |data.value| == 0 {
      return Ok(NoFeeInfo);
    }
    r := TelcoFeeInfo(data.value, telco);
  }

  /** `config["provider"] or "https://card2k.com"`. */
  function ApiUrl(provider: string): (r: string)
    ensures provider == "" ==> r == Provider.DefaultProvider
    ensures provider != "" ==> r == provider
  {
    if provider == "" then Provider.DefaultProvider else provider
  }

  /** A request to /chargingws/v2: the URL and the JSON body. */
  datatype ChargingRequest = ChargingRequest(url: string, payload: Provider.Payload)

  function LegacyClient(row: Credential, provider: string): Provider.Client {
    Provider.Client(row.partnerId, row.partnerKey, ApiUrl(provider))
  }

  /** `exchange_card`: a "charging" request under a fresh 32-character request id. */
  function ExchangeCardRequest(row: Credential, provider: string, md5: string -> string, uuid: string,
                               telco: string, amount: int, code: string, serial: string): (r: ChargingRequest)
    ensures r.url == ApiUrl(provider) + Provider.ChargingPath
    ensures r.payload.requestId == Ids.RandomString(uuid, Ids.DefaultLength, "")
    ensures r.payload.sign == md5(row.partnerKey + code + serial)
    ensures r.payload.command == "charging" && r.payload.partnerId == row.partnerId
    ensures r.payload.telco == telco && r.payload.amount == amount
    ensures r.payload.code == code && r.payload.serial == serial
  {
    var requestId := Ids.RandomString(uuid, Ids.DefaultLength, "");
    ChargingRequest(ApiUrl(provider) + Provider.ChargingPath,
      Provider.SubmitPayload(LegacyClient(row, provider), md5, Provider.CardData(telco, code, serial, amount, requestId)))
  }

  /** `check_card_status`: a "check" request under the request id the caller supplies. */
  function CheckCardStatusRequest(row: Credential, provider: string, md5: string -> string,
                                  telco: string, amount: int, code: string, serial: string,
                                  requestId: string): (r: ChargingRequest)
    ensures r.url == ApiUrl(provider) + Provider.ChargingPath
    ensures r.payload.requestId == requestId
    ensures r.payload.sign == md5(row.partnerKey + code + serial)
    ensures r.payload.command == "check" && r.payload.partnerId == row.partnerId
    ensures r.payload.telco == telco && r.payload.amount == amount
    ensures r.payload.code == code && r.payload.serial == serial
  {
    ChargingRequest(ApiUrl(provider) + Provider.ChargingPath,
      Provider.CheckPayload(LegacyClient(row, provider), md5, Provider.CardData(telco, code, serial, amount, requestId)))
  }

  /**
   * Checking the card just submitted, under the id it was submitted with,
   * sends the same request with only the command changed.
   */
  lemma CheckRepeatsSubmission(row: Credential, provider: string, md5: string -> string, uuid: string,
                               telco: string, amount: int, code: string, serial: string)
    ensures var submit := ExchangeCardRequest(row, provider, md5, uuid, telco, amount, code, serial);
      CheckCardStatusRequest(row, provider, md5, telco, amount, code, serial, submit.payload.requestId) ==
        submit.(payload := submit.payload.(command := "check"))
  {
  }
}
