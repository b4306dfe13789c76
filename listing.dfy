/**
 * The lists the settings page and the model picker show: `get_settings`,
 * `get_available_models` and `get_sf_balance`, with the SiliconFlow account
 * and model replies passed in as parameters.
 */
module Listing {
  import opened Wrappers
  import opened Text
  import SimpleTex
  import Catalogue
  import Routing
  import Usage
  import Settings

  /**
   * The fields of a `user/info` reply: `data.chargeBalance`,
   * `data.totalBalance` and `data.balance`, each present only when it is a
   * string.
   */
  datatype UserInfo = UserInfo(chargeBalance: Option<string>, totalBalance: Option<string>, balance: Option<string>)

  /**
   * `fetch_sf_balance`: `(charge, total)` from a readable successful reply
   * (`reply` is `None` when the request failed), each defaulting to "0";
   * nothing without a key.
   */
  function FetchBalance(key: string, reply: Option<UserInfo>): (b: Option<(string, string)>)
    ensures b.Some? <==> key != "" && reply.Some?
    ensures b.Some? ==> b.value.0 == (if reply.value.chargeBalance.Some? then reply.value.chargeBalance.value else "0")
    ensures b.Some? && reply.value.totalBalance.Some? ==> b.value.1 == reply.value.totalBalance.value
    ensures b.Some? && reply.value.totalBalance.None? ==>
      b.value.1 == (if reply.value.balance.Some? then reply.value.balance.value else "0")
  {
    if key == "" || reply.None? then None
    else
      var info := reply.value;
      var charge := if info.chargeBalance.Some? then info.chargeBalance.value else "0";
      var total := if info.totalBalance.Some? then info.totalBalance.value
                   else if info.balance.Some? then info.balance.value else "0";
      Some((charge, total))
  }

  /**
   * `fetch_sf_vision_models` before its sort: the catalogue of the listed
   * chat models (`chatIds` is `None` when the list request failed); empty
   * without a key.
   */
  function SfVisionModels(key: string, chatIds: Option<seq<string>>, prices: map<string, Catalogue.Price>): (ms: seq<Catalogue.SfModel>)
    ensures key == "" || chatIds.None? ==> ms == []
    ensures key != "" && chatIds.Some? ==> ms == Catalogue.VisionCatalogue(chatIds.value, prices)
    ensures key != "" && chatIds.Some? ==> |ms| <= |chatIds.value|
  {
    if key == "" || chatIds.None? then [] else Catalogue.VisionCatalogue(chatIds.value, prices)
  }

  /** The models offered are vision models, each the catalogue entry of a listed id. */
  lemma SfVisionModelsFromCatalogue(key: string, chatIds: Option<seq<string>>, prices: map<string, Catalogue.Price>)
    ensures var ms := SfVisionModels(key, chatIds, prices);
      forall k :: 0 <= k < |ms| ==>
        Catalogue.IsVisionModel(ms[k].id) && ms[k] == Catalogue.EntryOf(ms[k].id, prices) && ms[k].id in chatIds.value
  {
    if key != "" && chatIds.Some? {
      var ms := Catalogue.VisionCatalogue(chatIds.value, prices);
      Catalogue.CatalogueEntriesFromIds(chatIds.value, prices);
      assert forall k :: 0 <= k < |ms| ==> ms[k] in ms;
    }
  }

  /** With a key and a model list, every listed vision model is offered. */
  lemma SfVisionModelsComplete(key: string, chatIds: Option<seq<string>>, prices: map<string, Catalogue.Price>, id: string)
    requires key != "" && chatIds.Some?
    requires id in chatIds.value && Catalogue.IsVisionModel(id)
    ensures Catalogue.EntryOf(id, prices) in SfVisionModels(key, chatIds, prices)
  {
    Catalogue.CatalogueHasEntry(chatIds.value, prices, id);
  }

  /** One entry of the model picker. */
  datatype AvailableModel = AvailableModel(
    id: string,
    name: string,
    provider: string,
    modes: seq<string>,
    available: bool,
    freePerDay: Option<nat>,
    usageToday: Option<nat>,
    pricing: Option<string>,
    free: Option<bool>,
    voucher: Option<bool>,
    chargeBalance: Option<string>,
    totalBalance: Option<string>)

  const SimpleTexName: string := "SimpleTex"
  const SiliconFlowName: string := "硅基流动"

  /** A SimpleTex model offers its own mode; the general model offers every mode. */
  function SimpleTexModes(mode: string): (modes: seq<string>)
    ensures mode in modes
    ensures mode == "document" ==> "formula" in modes && "ocr" in modes && |modes| == 3
    ensures mode != "document" ==> |modes| == 1
  {
    if mode == "document" then ["formula", "ocr", "document"] else [mode]
  }

  const QuotaHead: string := "每日免费 "
  const QuotaTail: string := " 次"

  /** The price label of a SimpleTex model: its daily free calls. */
  function QuotaLabel(freePerDay: nat): (l: string)
    ensures StartsWith(l, QuotaHead) && EndsWith(l, QuotaTail)
    ensures |l| == |QuotaHead| + |NatToString(freePerDay)| + |QuotaTail|
    ensures l[|QuotaHead|..|l| - |QuotaTail|] == NatToString(freePerDay)
  {
    var l := QuotaHead + NatToString(freePerDay) + QuotaTail;
    assert l[|QuotaHead|..|l| - |QuotaTail|] == NatToString(freePerDay);
    l
  }

  /** The free quota can be read back from its label. */
  lemma QuotaLabelRoundTrip(n: nat)
    ensures var l := QuotaLabel(n);
      |QuotaHead| + |QuotaTail| < |l|
      && var digits := l[|QuotaHead|..|l| - |QuotaTail|];
      (forall i :: 0 <= i < |digits| ==> IsDigit(digits[i])) && DecimalValue(digits) == n
  {
    var l := QuotaLabel(n);
    assert l[|QuotaHead|..|l| - |QuotaTail|] == NatToString(n);
    DecimalRoundTrip(n);
  }

  /** The picker entry of a SimpleTex model. */
  function SimpleTexEntry(info: SimpleTex.ModelInfo, valid: bool, usageToday: nat): (e: AvailableModel)
    ensures e.name == info.name && e.provider == SimpleTexName && e.available == valid
    ensures e.modes == SimpleTexModes(info.mode)
    ensures e.freePerDay == Some(info.freePerDay) && e.usageToday == Some(usageToday)
    ensures e.pricing == Some(QuotaLabel(info.freePerDay))
    ensures e.free.None? && e.voucher.None? && e.chargeBalance.None? && e.totalBalance.None?
  {
    AvailableModel(Routing.Qualify(Routing.SimpleTexProvider, info.id), info.name, SimpleTexName,
                   SimpleTexModes(info.mode), valid, Some(info.freePerDay), Some(usageToday),
                   Some(QuotaLabel(info.freePerDay)), None, None, None, None)
  }

  /** The picker entry of a SiliconFlow model, marked when it is paid from vouchers. */
  function SiliconFlowEntry(m: Catalogue.SfModel, valid: bool, vouchers: seq<string>, balance: Option<(string, string)>): (e: AvailableModel)
    ensures e.name == m.name && e.provider == SiliconFlowName && e.modes == m.modes && e.available == valid
    ensures e.pricing == Some(m.pricing) && e.free == Some(m.free)
    ensures e.voucher == Some(m.id in vouchers)
    ensures e.chargeBalance.Some? <==> balance.Some?
    ensures balance.Some? ==> e.chargeBalance == Some(balance.value.0) && e.totalBalance == Some(balance.value.1)
    ensures balance.None? ==> e.totalBalance.None?
    ensures e.freePerDay.None? && e.usageToday.None?
  {
    AvailableModel(Routing.Qualify(Routing.SiliconFlowProvider, m.id), m.name, SiliconFlowName, m.modes, valid,
                   None, None, Some(m.pricing), Some(m.free), Some(m.id in vouchers),
                   if balance.Some? then Some(balance.value.0) else None,
                   if balance.Some? then Some(balance.value.1) else None)
  }

  /** Picking a listed SimpleTex entry sends the request to SimpleTex with that model. */
  lemma SimpleTexEntryRoutes(info: SimpleTex.ModelInfo, valid: bool, usageToday: nat,
                             image: string, mode: string, stToken: string, sfKey: string)
    ensures var e := SimpleTexEntry(info, valid, usageToday);
      Routing.Route(e.id, mode, stToken) == (Routing.SimpleTexProvider, info.id)
      && Routing.PlanRecognition(image, mode, e.id, stToken, sfKey)
         == if stToken == "" then Err(Routing.TokenMissing)
            else Ok(Routing.SimpleTexCall(info.id, Routing.RecMode(info.id, mode)))
  {
    Routing.SplitQualifyRoundTrip(Routing.SimpleTexProvider, info.id);
    Routing.PlanForSimpleTexModel(image, mode, info.id, stToken, sfKey);
  }

  /** Picking a listed SiliconFlow entry sends the request to SiliconFlow with that model. */
  lemma SiliconFlowEntryRoutes(m: Catalogue.SfModel, valid: bool, vouchers: seq<string>, balance: Option<(string, string)>,
                               image: string, mode: string, stToken: string, sfKey: string)
    ensures var e := SiliconFlowEntry(m, valid, vouchers, balance);
      Routing.Route(e.id, mode, stToken) == (Routing.SiliconFlowProvider, m.id)
      && Routing.PlanRecognition(image, mode, e.id, stToken, sfKey)
         == if sfKey == "" then Err(Routing.KeyMissing)
            else if m.id == "" then Err(Routing.NoModel)
            else Ok(Routing.SiliconFlowCall(m.id, Routing.ImageUrl(image), Routing.GetPrompt(mode)))
  {
    Routing.SplitQualifyRoundTrip(Routing.SiliconFlowProvider, m.id);
    Routing.PlanForOtherProvider(image, mode, Routing.SiliconFlowProvider, m.id, stToken, sfKey);
  }

  /** The SimpleTex part of the picker: one entry per table row, in table order, with today's usage. */
  function SimpleTexList(s: Usage.UsageState, today: string, valid: bool): (l: seq<AvailableModel>)
    ensures |l| == |SimpleTex.Models|
    ensures forall i :: 0 <= i < |l| ==>
      l[i] == SimpleTexEntry(SimpleTex.Models[i], valid, Usage.UsageToday(s, today, SimpleTex.Models[i].id))
  {
    seq(|SimpleTex.Models|, i requires 0 <= i < |SimpleTex.Models| =>
        SimpleTexEntry(SimpleTex.Models[i], valid, Usage.UsageToday(s, today, SimpleTex.Models[i].id)))
  }

  /** The SiliconFlow part of the picker: one entry per catalogue model, in catalogue order. */
  function SiliconFlowList(sf: seq<Catalogue.SfModel>, valid: bool, vouchers: seq<string>, balance: Option<(string, string)>): (l: seq<AvailableModel>)
    ensures |l| == |sf|
    ensures forall j :: 0 <= j < |sf| ==> l[j] == SiliconFlowEntry(sf[j], valid, vouchers, balance)
  {
    seq(|sf|, j requires 0 <= j < |sf| => SiliconFlowEntry(sf[j], valid, vouchers, balance))
  }

  /** The loop over the SimpleTex table, reading the usage log once per model. */
  method ListSimpleTex(log: Usage.UsageLog, today: string, valid: bool) returns (models: seq<AvailableModel>)
    ensures models == SimpleTexList(log.State(), today, valid)
  {
    ghost var all := SimpleTexList(log.State(), today, valid);
    models := [];
    for i := 0 to |SimpleTex.Models|
      invariant models == all[..i]
    {
      var info := SimpleTex.Models[i];
      var used := log.CountToday(today, info.id);
      models := models + [SimpleTexEntry(info, valid, used)];
    }
  }

  /** The loop over the fetched SiliconFlow models. */
  method ListSiliconFlow(sf: seq<Catalogue.SfModel>, valid: bool, vouchers: seq<string>, balance: Option<(string, string)>)
    returns (models: seq<AvailableModel>)
    ensures models == SiliconFlowList(sf, valid, vouchers, balance)
  {
    models := [];
    for j := 0 to |sf|
      invariant models == SiliconFlowList(sf, valid, vouchers, balance)[..j]
    {
      models := models + [SiliconFlowEntry(sf[j], valid, vouchers, balance)];
    }
  }

  /** Every listed id names its provider and the model, so choosing an entry reaches that model. */
  lemma ListedIdsRoute(s: Usage.UsageState, today: string, stValid: bool, sf: seq<Catalogue.SfModel>, sfValid: bool,
                       vouchers: seq<string>, balance: Option<(string, string)>, mode: string, stToken: string)
    ensures var l := SimpleTexList(s, today, stValid);
      forall i :: 0 <= i < |l| ==> Routing.Route(l[i].id, mode, stToken) == (Routing.SimpleTexProvider, SimpleTex.Models[i].id)
    ensures var l := SiliconFlowList(sf, sfValid, vouchers, balance);
      forall j :: 0 <= j < |l| ==> Routing.Route(l[j].id, mode, stToken) == (Routing.SiliconFlowProvider, sf[j].id)
  {
    forall i | 0 <= i < |SimpleTex.Models| {
      Routing.SplitQualifyRoundTrip(Routing.SimpleTexProvider, SimpleTex.Models[i].id);
    }
    forall j | 0 <= j < |sf| {
      Routing.SplitQualifyRoundTrip(Routing.SiliconFlowProvider, sf[j].id);
    }
  }

  /** The reply of `get_available_models`; the voucher balance is not modelled. */
  datatype AvailableModels = AvailableModels(models: seq<AvailableModel>, sfBalance: Option<string>, sfChargeBalance: Option<string>)

  /**
   * `get_available_models`: the three SimpleTex models, then the SiliconFlow
   * vision models, and the account balance as (total, charge).
   */
  method GetAvailableModels(log: Usage.UsageLog, today: string, stToken: string, sfKey: string, vouchers: seq<string>,
                            userInfo: Option<UserInfo>, chatIds: Option<seq<string>>, prices: map<string, Catalogue.Price>)
    returns (r: AvailableModels)
    ensures r.models == SimpleTexList(log.State(), today, stToken != "")
                        + SiliconFlowList(SfVisionModels(sfKey, chatIds, prices), sfKey != "", vouchers, FetchBalance(sfKey, userInfo))
    ensures var b := FetchBalance(sfKey, userInfo);
      r.sfBalance == (if b.Some? then Some(b.value.1) else None)
      && r.sfChargeBalance == (if b.Some? then Some(b.value.0) else None)
  {
    var st := ListSimpleTex(log, today, stToken != "");
    var balance := FetchBalance(sfKey, userInfo);
    var sf := ListSiliconFlow(SfVisionModels(sfKey, chatIds, prices), sfKey != "", vouchers, balance);
    var sfBalance, sfCharge := None, None;
    if balance.Some? {
      sfBalance, sfCharge := Some(balance.value.1), Some(balance.value.0);
    }
    r := AvailableModels(st + sf, sfBalance, sfCharge);
  }

  /** What the settings page shows. */
  datatype SettingsView = SettingsView(
    hasKey: bool,
    hasSimpleTex: bool,
    simpleTexModel: string,
    simpleTexModels: seq<(string, string, nat)>,
    usageByModel: map<string, nat>,
    sfBalance: Option<string>,
    sfChargeBalance: Option<string>,
    voucherModels: seq<string>)

  /**
   * `get_settings`, from the stored token, key, model and voucher list, the
   * usage log and the `user/info` reply.
   */
  method GetSettings(log: Usage.UsageLog, today: string, stToken: string, sfKey: string, storedModel: string,
                     vouchers: seq<string>, userInfo: Option<UserInfo>)
    returns (view: SettingsView)
    ensures view.hasKey <==> sfKey != ""
    ensures view.hasSimpleTex <==> stToken != ""
    ensures view.simpleTexModel == Settings.EffectiveSimpleTexModel(storedModel)
    ensures |view.simpleTexModels| == |SimpleTex.Models|
    ensures forall i :: 0 <= i < |SimpleTex.Models| ==>
      view.simpleTexModels[i] == (SimpleTex.Models[i].id, SimpleTex.Models[i].name, SimpleTex.Models[i].freePerDay)
    ensures view.usageByModel.Keys == set i | 0 <= i < |SimpleTex.Models| :: SimpleTex.Models[i].id
    ensures forall i :: 0 <= i < |SimpleTex.Models| ==>
      view.usageByModel[SimpleTex.Models[i].id] == Usage.UsageToday(log.State(), today, SimpleTex.Models[i].id)
    ensures var b := FetchBalance(sfKey, userInfo);
      view.sfBalance == (if b.Some? then Some(b.value.1) else None)
      && view.sfChargeBalance == (if b.Some? then Some(b.value.0) else None)
    ensures view.voucherModels == vouchers
  {
    var usage := Usage.UsageByModel(log, today);
    var balance := FetchBalance(sfKey, userInfo);
    var table := seq(|SimpleTex.Models|, i requires 0 <= i < |SimpleTex.Models| =>
                     (SimpleTex.Models[i].id, SimpleTex.Models[i].name, SimpleTex.Models[i].freePerDay));
    view := SettingsView(sfKey != "", stToken != "", Settings.EffectiveSimpleTexModel(storedModel), table, usage,
                         if balance.Some? then Some(balance.value.1) else None,
                         if balance.Some? then Some(balance.value.0) else None,
                         vouchers);
  }

  /** `get_sf_balance` without the voucher balance: `(charge, total)` when there is a key and a reply. */
  function GetSfBalance(sfKey: string, userInfo: Option<UserInfo>): (r: (Option<string>, Option<string>))
    ensures r.0.Some? <==> sfKey != "" && userInfo.Some?
    ensures r.1.Some? <==> r.0.Some?
    ensures r.0.Some? ==> (r.0.value, r.1.value) == FetchBalance(sfKey, userInfo).value
  {
    match FetchBalance(sfKey, userInfo)
    case None => (None, None)
    case Some((charge, total)) => (Some(charge), Some(total))
  }
}
