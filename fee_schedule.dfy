/**
 * The provider's fee list and the aggregations both fee modules share
 * (services/card2k/fee_service.py and helpers/api.py). Fees are fixed-point
 * integers in hundredths: a fee of 3.47 is 347.
 */
module FeeSchedule {
  import opened Wrappers
  import opened OrderedDict
  import opened Text

  /**
   * One element of the decoded fee list. Absent keys are None; `hasStatus`
   * says whether the element carries a `status` key (an error envelope).
   */
  datatype FeeItem = FeeItem(telco: Option<string>, value: Option<int>, fees: Option<int>, hasStatus: bool)

  // ---- int(f * 10) / 10 --------------------------------------------------

  /** Truncation to one decimal, toward zero as Python's int() does. */
  function Trunc(h: int): (r: int)
    ensures r % 10 == 0
    ensures h >= 0 ==> 0 <= r <= h < r + 10
    ensures h < 0 ==> r - 10 < h <= r <= 0
  {
    if h >= 0 then (h / 10) * 10 else -(((-h) / 10) * 10)
  }

  lemma TruncMonotone(a: int, b: int)
    requires a <= b
    ensures Trunc(a) <= Trunc(b)
  {
    if a < 0 && b >= 0 {
    } else if a >= 0 {
      assert a / 10 <= b / 10;
    } else {
      assert (-b) / 10 <= (-a) / 10;
    }
  }

  lemma TruncIdempotent(a: int)
    ensures Trunc(Trunc(a)) == Trunc(a)
  {
  }

  /** The worked example: 3.47 becomes 3.4. */
  lemma TruncExample()
    ensures Trunc(347) == 340 && Trunc(-347) == -340
  {
  }

  /** What the per-carrier loop stores for a fee: truncated or raw. */
  function Stored(fee: int, truncate: bool): int {
    if truncate then Trunc(fee) else fee
  }

  // ---- first minimum -----------------------------------------------------

  /** An item that takes part in a minimum search: it has fees, and a carrier if asked. */
  predicate Eligible(it: FeeItem, needTelco: bool) {
    it.fees.Some? && (!needTelco || it.telco.Some?)
  }

  /** Position i holds the first eligible item of minimal fee. */
  predicate FirstMinAt(items: seq<FeeItem>, i: int, needTelco: bool) {
    && 0 <= i < |items|
    && Eligible(items[i], needTelco)
    && (forall j :: 0 <= j < |items| && Eligible(items[j], needTelco) ==>
          items[i].fees.value <= items[j].fees.value)
    && (forall j :: 0 <= j < i && Eligible(items[j], needTelco) ==>
          items[j].fees.value > items[i].fees.value)
  }

  predicate NoneEligible(items: seq<FeeItem>, needTelco: bool) {
    forall j :: 0 <= j < |items| ==> !Eligible(items[j], needTelco)
  }

  /** At most one position is the first minimum. */
  lemma FirstMinUnique(items: seq<FeeItem>, i: int, k: int, needTelco: bool)
    requires FirstMinAt(items, i, needTelco) && FirstMinAt(items, k, needTelco)
    ensures i == k
  {
  }

  /**
   * Python's `min(items, key=fees)` over the eligible items: the first
   * position of minimal fee, None when nothing is eligible.
   */
  function FirstMin(items: seq<FeeItem>, needTelco: bool): (r: Option<nat>)
    ensures r.Some? ==> FirstMinAt(items, r.value, needTelco)
    ensures r.None? <==> NoneEligible(items, needTelco)
  {
    if items == [] then None
    else
      var n := |items| - 1;
      var init := items[..n];
      var p := FirstMin(init, needTelco);
      assert forall j :: 0 <= j < n ==> init[j] == items[j];
      if Eligible(items[n], needTelco) && (p.None? || items[n].fees.value < items[p.value].fees.value) then
        Some(n)
      else
        p
  }

  // ---- the minimum per carrier --------------------------------------------

  /** The fees listed for carrier t, in order. */
  function FeesFor(items: seq<FeeItem>, t: string): seq<int> {
    if items == [] then []
    else
      var last := items[|items| - 1];
      FeesFor(items[..|items| - 1], t) + FeeOf(last, t)
  }

  /** The fee an item contributes to carrier t's list. */
  function FeeOf(it: FeeItem, t: string): seq<int> {
    if it.telco == Some(t) && it.fees.Some? then [it.fees.value] else []
  }

  function SeqMin(s: seq<int>): (m: int)
    requires |s| > 0
    ensures m in s
    ensures forall x :: x in s ==> m <= x
  {
    if |s| == 1 then s[0]
    else
      var m := SeqMin(s[..|s| - 1]);
      assert s == s[..|s| - 1] + [s[|s| - 1]];
      if s[|s| - 1] < m then s[|s| - 1] else m
  }

  lemma SeqMinAppend(s: seq<int>, x: int)
    requires |s| > 0
    ensures SeqMin(s + [x]) == if x < SeqMin(s) then x else SeqMin(s)
  {
    assert (s + [x])[..|s|] == s;
  }

  /**
   * One step of the per-carrier loop is right even though it compares the
   * new raw fee with the stored (possibly truncated) one: truncation is
   * monotone and idempotent.
   */
  lemma StoredMinStep(oldMin: int, fee: int, truncate: bool)
    ensures var newMin := if fee < oldMin then fee else oldMin;
      (fee < Stored(oldMin, truncate) ==> Stored(newMin, truncate) == Stored(fee, truncate)) &&
      (fee >= Stored(oldMin, truncate) ==> Stored(newMin, truncate) == Stored(oldMin, truncate))
  {
    if truncate {
      TruncIdempotent(oldMin);
      if oldMin <= fee {
        if fee < Trunc(oldMin) {
          TruncMonotone(oldMin, fee);
          TruncMonotone(fee, Trunc(oldMin));
        }
      } else if fee >= Trunc(oldMin) {
        TruncMonotone(Trunc(oldMin), fee);
        TruncMonotone(fee, oldMin);
      }
    }
  }

  /** What the per-carrier dictionary holds after scanning `items`. */
  ghost predicate PerTelcoMin(d: seq<(string, int)>, items: seq<FeeItem>, truncate: bool) {
    && DistinctKeys(d)
    && (forall t :: Lookup(d, t).Some? <==> |FeesFor(items, t)| > 0)
    && (forall t :: |FeesFor(items, t)| > 0 ==>
          Lookup(d, t) == Some(Stored(SeqMin(FeesFor(items, t)), truncate)))
  }

  /** One iteration of the per-carrier loop, as a function of the dictionary so far. */
  function PerTelcoStep(d: seq<(string, int)>, item: FeeItem, truncate: bool): seq<(string, int)> {
    if item.telco.None? || item.fees.None? then d
    else
      var cur := Lookup(d, item.telco.value);
      if cur.None? || item.fees.value < cur.value then Put(d, item.telco.value, Stored(item.fees.value, truncate))
      else d
  }

  lemma PerTelcoStepKeeps(d: seq<(string, int)>, items: seq<FeeItem>, item: FeeItem, truncate: bool)
    requires PerTelcoMin(d, items, truncate)
    ensures PerTelcoMin(PerTelcoStep(d, item, truncate), items + [item], truncate)
  {
    var d' := PerTelcoStep(d, item, truncate);
    forall t
      ensures Lookup(d', t).Some? <==> |FeesFor(items + [item], t)| > 0
      ensures |FeesFor(items + [item], t)| > 0 ==>
        Lookup(d', t) == Some(Stored(SeqMin(FeesFor(items + [item], t)), truncate))
    {
      PerTelcoStepAt(d, items, item, truncate, t);
    }
  }

  /** The loop step for one carrier t, from what the dictionary held for t before it. */
  lemma PerTelcoStepAt(d: seq<(string, int)>, items: seq<FeeItem>, item: FeeItem, truncate: bool, t: string)
    requires Lookup(d, t).Some? <==> |FeesFor(items, t)| > 0
    requires |FeesFor(items, t)| > 0 ==> Lookup(d, t) == Some(Stored(SeqMin(FeesFor(items, t)), truncate))
    ensures var fs := FeesFor(items + [item], t);
      && (Lookup(PerTelcoStep(d, item, truncate), t).Some? <==> |fs| > 0)
      && (|fs| > 0 ==> Lookup(PerTelcoStep(d, item, truncate), t) == Some(Stored(SeqMin(fs), truncate)))
  {
    var all := items + [item];
    assert all[..|items|] == items;
    assert FeesFor(all, t) == FeesFor(items, t) + FeeOf(item, t);
    if item.telco == Some(t) && item.fees.Some? {
      var fee := item.fees.value;
      if |FeesFor(items, t)| > 0 {
        SeqMinAppend(FeesFor(items, t), fee);
        StoredMinStep(SeqMin(FeesFor(items, t)), fee, truncate);
      } else {
        assert FeesFor(all, t) == [fee];
      }
    } else {
      assert FeesFor(all, t) == FeesFor(items, t);
      assert Lookup(PerTelcoStep(d, item, truncate), t) == Lookup(d, t);
    }
  }

  /**
   * The loop of `get_min_fees_by_telco` (truncate = true) and of
   * `get_all_fee_min_telco_api` (truncate = false): over the items that have
   * both a carrier and a fee, keep per carrier the smallest fee seen.
   */
  method MinFeePerTelco(items: seq<FeeItem>, truncate: bool) returns (d: seq<(string, int)>)
    ensures DistinctKeys(d)
    ensures forall t :: Lookup(d, t).Some? <==> |FeesFor(items, t)| > 0
    ensures forall t :: |FeesFor(items, t)| > 0 ==>
      Lookup(d, t) == Some(Stored(SeqMin(FeesFor(items, t)), truncate))
  {
    d := [];
    for i := 0 to |items|
      invariant PerTelcoMin(d, items[..i], truncate)
    {
      var item := items[i];
      ghost var before := d;
      assert items[..i + 1] == items[..i] + [item];
      if item.telco.Some? && item.fees.Some? {
        var telco, fee := item.telco.value, item.fees.value;
        var stored := Lookup(d, telco);
        if stored.None? || fee < stored.value {
          d := Put(d, telco, Stored(fee, truncate));
        }
      }
      assert d == PerTelcoStep(before, item, truncate);
      PerTelcoStepKeeps(before, items[..i], item, truncate);
    }
    assert items[..|items|] == items;
  }

  // ---- the face-value -> fee map of one carrier ---------------------------

  /** `str(x)` of an optional text: an absent carrier prints as "None". */
  function StrOf(t: Option<string>): string {
    match t
    case None => "None"
    case Some(s) => s
  }

  /** `str(item.get("telco")).upper() == str(telco).upper()`. */
  predicate MatchesTelco(it: FeeItem, telco: string) {
    Upper(StrOf(it.telco)) == Upper(telco)
  }

  /** An item that goes into the carrier's map. */
  predicate Listed(it: FeeItem, telco: string) {
    MatchesTelco(it, telco) && it.fees.Some?
  }

  /**
   * The map the loop builds, keyed by `str(item.get("value"))`: an absent
   * face value is the key "None" (here None), and `str` keeps distinct
   * integers distinct. A later item overwrites an earlier key in place.
   */
  function FeeDictOf(items: seq<FeeItem>, telco: string): seq<(Option<int>, int)> {
    if items == [] then []
    else
      var last := items[|items| - 1];
      var prev := FeeDictOf(items[..|items| - 1], telco);
      if Listed(last, telco) then Put(prev, last.value, last.fees.value) else prev
  }

  /** The fee of the last listed item with face value v, if any. */
  function LastFee(items: seq<FeeItem>, telco: string, v: Option<int>): (r: Option<int>)
    ensures r.Some? ==>
      exists i :: 0 <= i < |items| && Listed(items[i], telco) && items[i].value == v && items[i].fees == r &&
        forall j :: i < j < |items| && Listed(items[j], telco) ==> items[j].value != v
    ensures r.None? ==> forall i :: 0 <= i < |items| && Listed(items[i], telco) ==> items[i].value != v
  {
    if items == [] then None
    else
      var last := items[|items| - 1];
      var prev := LastFee(items[..|items| - 1], telco, v);
      if Listed(last, telco) && last.value == v then last.fees
      else
        LastFeeSkip(items, it => Listed(it, telco), v, prev);
        prev
  }

  /** An unlisted last item, or one of another face value, leaves the answer of the prefix. */
  lemma LastFeeSkip(items: seq<FeeItem>, listed: FeeItem -> bool, v: Option<int>, prev: Option<int>)
    requires items != []
    requires !(listed(items[|items| - 1]) && items[|items| - 1].value == v)
    requires var pre := items[..|items| - 1];
      prev.Some? ==>
        exists i :: 0 <= i < |pre| && listed(pre[i]) && pre[i].value == v && pre[i].fees == prev &&
          forall j :: i < j < |pre| && listed(pre[j]) ==> pre[j].value != v
    requires var pre := items[..|items| - 1];
      prev.None? ==> forall i :: 0 <= i < |pre| && listed(pre[i]) ==> pre[i].value != v
    ensures prev.Some? ==>
      exists i :: 0 <= i < |items| && listed(items[i]) && items[i].value == v && items[i].fees == prev &&
        forall j :: i < j < |items| && listed(items[j]) ==> items[j].value != v
    ensures prev.None? ==> forall i :: 0 <= i < |items| && listed(items[i]) ==> items[i].value != v
  {
    var pre := items[..|items| - 1];
    var n := |pre|;
    if prev.Some? {
      var i :| 0 <= i < n && listed(pre[i]) && pre[i].value == v && pre[i].fees == prev &&
          forall j :: i < j < n && listed(pre[j]) ==> pre[j].value != v;
      assert items[i] == pre[i];
      forall j | i < j < |items| && listed(items[j]) ensures items[j].value != v {
        if j < n {
          assert items[j] == pre[j];
        }
      }
    } else {
      forall i | 0 <= i < |items| && listed(items[i]) ensures items[i].value != v {
        if i < n {
          assert items[i] == pre[i];
        }
      }
    }
  }

  /** The map holds, for every face value, the fee of the last item listing it. */
  lemma {:induction false} FeeDictLastWins(items: seq<FeeItem>, telco: string)
    ensures DistinctKeys(FeeDictOf(items, telco))
    ensures forall v :: Lookup(FeeDictOf(items, telco), v) == LastFee(items, telco, v)
  {
    if items != [] {
      FeeDictLastWins(items[..|items| - 1], telco);
    }
  }

  method BuildFeeDict(items: seq<FeeItem>, telco: string) returns (d: seq<(Option<int>, int)>)
    ensures d == FeeDictOf(items, telco)
  {
    d := [];
    for i := 0 to |items|
      invariant d == FeeDictOf(items[..i], telco)
    {
      assert items[..i + 1][..i] == items[..i];
      var item := items[i];
      if MatchesTelco(item, telco) {
        if item.fees.Some? {
          d := Put(d, item.value, item.fees.value);
        }
      }
    }
    assert items[..|items|] == items;
  }

  /** `fee_min`, `amount_min`, `list_fee`; all None when the carrier is not listed. */
  datatype FeeInfo = FeeInfo(feeMin: Option<int>, amountMin: Option<int>, listFee: Option<seq<(Option<int>, int)>>)

  const NoFeeInfo: FeeInfo := FeeInfo(None, None, None)

  /** `int(amount)` of the key "None" raises ValueError. */
  datatype FeeError = AmountNotInteger

  /** Position i holds the first pair of the map whose fee is minimal. */
  predicate FirstMinEntry(d: seq<(Option<int>, int)>, i: int) {
    && 0 <= i < |d|
    && (forall j :: 0 <= j < |d| ==> d[i].1 <= d[j].1)
    && (forall j :: 0 <= j < i ==> d[j].1 != d[i].1)
  }

  /**
   * `min(fee_dict.values())`, then the first key in insertion order whose
   * fee equals it.
   */
  method MinEntry(d: seq<(Option<int>, int)>) returns (minFee: int, minKey: Option<int>)
    requires |d| > 0
    ensures exists i :: FirstMinEntry(d, i) && d[i] == (minKey, minFee)
  {
    var values := seq(|d|, k requires 0 <= k < |d| => d[k].1);
    minFee := SeqMin(values);
    var i := 0;
    while i < |d|
      invariant 0 <= i <= |d|
      invariant forall j :: 0 <= j < i ==> d[j].1 != minFee
    {
      if d[i].1 == minFee {
        break;
      }
      i := i + 1;
    }
    if i == |d| {
      assert false;
    }
    forall j | 0 <= j < |d| ensures minFee <= d[j].1 {
      assert values[j] == d[j].1 && values[j] in values;
    }
    minKey := d[i].0;
  }

  /**
   * The carrier-detail lookup both fee modules perform once the data passed
   * their guard: an empty map gives all-None fields; otherwise the minimal
   * fee and its first face value, or an error when that face value is the
   * key "None".
   */
  method TelcoFeeInfo(items: seq<FeeItem>, telco: string) returns (r: Result<FeeInfo, FeeError>)
    ensures FeeDictOf(items, telco) == [] <==> r == Ok(NoFeeInfo)
    ensures FeeDictOf(items, telco) != [] ==>
      exists i :: FirstMinEntry(FeeDictOf(items, telco), i) &&
        if FeeDictOf(items, telco)[i].0.None? then r == Err(AmountNotInteger)
        else r == Ok(FeeInfo(Some(FeeDictOf(items, telco)[i].1), FeeDictOf(items, telco)[i].0,
                             Some(FeeDictOf(items, telco))))
  {
    var d := BuildFeeDict(items, telco);
    if d == [] {
      return Ok(NoFeeInfo);
    }
    var minFee, minKey := MinEntry(d);
    if minKey.None? {
      return Err(AmountNotInteger);
    }
    r := Ok(FeeInfo(Some(minFee), minKey, Some(d)));
  }
}
