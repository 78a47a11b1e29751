/**
 * The fee service over the provider's fee list (services/card2k/fee_service.py).
 * The list is fetched once, when the service is built; each query answers
 * None when that list failed the service's guard.
 */
module Card2kFees {
  import opened Wrappers
  import opened OrderedDict
  import opened FeeSchedule

  /** `{"telco_min": ..., "fee_min": ...}`; the carrier may be absent from the item. */
  datatype CheapestRate = CheapestRate(telcoMin: Option<string>, feeMin: int)

  /** The guard: a non-empty list none of whose items carries a `status` key. */
  predicate UsableFeeList(data: Option<seq<FeeItem>>) {
    && data.Some?
    && |data.value| > 0
    && forall i :: 0 <= i < |data.value| ==> !data.value[i].hasStatus
  }

  class FeeService {
    /** The decoded fee list, or None when the request or its decoding failed. */
    const dataApi: Option<seq<FeeItem>>

    constructor (fetched: Option<seq<FeeItem>>)
      ensures dataApi == fetched
    {
      dataApi := fetched;
    }

    predicate ValidatedDataApi() {
      UsableFeeList(dataApi)
    }

    /**
     * The first item of smallest fee among those that have one, with its
     * fee truncated to one decimal; None when the list is unusable or no
     * item has a fee.
     */
    function GetCheapestTelcoRate(): (r: Option<CheapestRate>)
      ensures r.Some? <==> ValidatedDataApi() && !NoneEligible(dataApi.value, false)
      ensures r.Some? ==>
        exists i :: FirstMinAt(dataApi.value, i, false) &&
          r.value == CheapestRate(dataApi.value[i].telco, Trunc(dataApi.value[i].fees.value))
    {
      if !ValidatedDataApi() then None
      else
        match FirstMin(dataApi.value, false)
        case None => None
        case Some(i) => Some(CheapestRate(dataApi.value[i].telco, Trunc(dataApi.value[i].fees.value)))
    }

    /**
     * Per carrier, the truncated smallest fee, ordered by fee; None when the
     * list is unusable or no item has both a carrier and a fee.
     */
    method GetMinFeesByTelco() returns (r: Option<seq<(string, int)>>)
      ensures r.None? <==>
        !ValidatedDataApi() || forall t :: |FeesFor(dataApi.value, t)| == 0
      ensures r.Some? ==>
        && SortedByValue(r.value)
        && DistinctKeys(r.value)
        && (forall t :: Lookup(r.value, t).Some? <==> |FeesFor(dataApi.value, t)| > 0)
        && (forall t :: |FeesFor(dataApi.value, t)| > 0 ==>
              Lookup(r.value, t) == Some(Trunc(SeqMin(FeesFor(dataApi.value, t)))))
    {
      if !ValidatedDataApi() {
        return None;
      }
      var items := dataApi.value;
      var d := MinFeePerTelco(items, true);
      var sorted := SortByValue(d);
      SortByValueSorted(d);
      SortKeepsLookups(d);
      if sorted == [] {
        forall t ensures |FeesFor(items, t)| == 0 {
          assert Lookup(sorted, t).None?;
        }
        return None;
      }
      var k := sorted[0].0;
      assert Lookup(sorted, k).Some?;
      assert Lookup(d, k).Some?;
      assert |FeesFor(items, k)| > 0;
      r := Some(sorted);
    }

    /**
     * The face-value map of one carrier with its minimal fee and the first
     * face value carrying it; None when the list is unusable.
     */
    method GetTelcoFeeInfo(telco: string) returns (r: Option<Result<FeeInfo, FeeError>>)
      ensures r.None? <==> !ValidatedDataApi()
      ensures r.Some? ==>
        var d := FeeDictOf(dataApi.value, telco);
        && (d == [] <==> r.value == Ok(NoFeeInfo))
        && (d != [] ==>
              exists i :: FirstMinEntry(d, i) &&
                if d[i].0.None? then r.value == Err(AmountNotInteger)
                else r.value == Ok(FeeInfo(Some(d[i].1), d[i].0, Some(d))))
    {
      if !ValidatedDataApi() {
        return None;
      }
      var info := TelcoFeeInfo(dataApi.value, telco);
      r := Some(info);
    }
  }
}
