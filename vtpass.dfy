/** The airtime and data provider's lookup tables and the normalisation of
    its reply (vtpassService.js). Every lookup indexes a constant table by the
    upper-cased network name and falls back to a default instead of failing. */
module Vtpass {
  import opened Wrappers
  import opened Strings

  // ---------------------------------------------------------------------
  // Service ids
  // ---------------------------------------------------------------------

  /** `getAirtimeServiceId`: MTN, AIRTEL, GLO and 9MOBILE (in any case) to
      the provider's service id, anything else to `mtn`. */
  function AirtimeServiceId(network: string): string {
    var key := Upper(network);
    if key == "MTN" then "mtn"
    else if key == "AIRTEL" then "airtel"
    else if key == "GLO" then "glo"
    else if key == "9MOBILE" then "etisalat"
    else "mtn"
  }

  /** `getDataServiceId`: the same networks to `<id>-data`, anything else to
      `mtn-data`. */
  function DataServiceId(network: string): string {
    var key := Upper(network);
    if key == "MTN" then "mtn-data"
    else if key == "AIRTEL" then "airtel-data"
    else if key == "GLO" then "glo-data"
    else if key == "9MOBILE" then "etisalat-data"
    else "mtn-data"
  }

  /** The data service id is the airtime service id with `-data` appended:
      the two tables agree on every network, including the default. */
  lemma DataServiceIsAirtimeServiceData(network: string)
    ensures DataServiceId(network) == AirtimeServiceId(network) + "-data"
  {
  }

  /** A name is looked up without regard to case, and a name outside the four
      networks silently gets the MTN service. */
  lemma AirtimeServiceIdCases(network: string)
    ensures AirtimeServiceId(network) in {"mtn", "airtel", "glo", "etisalat"}
    ensures AirtimeServiceId(network) == AirtimeServiceId(Upper(network))
    ensures Upper(network) !in {"MTN", "AIRTEL", "GLO", "9MOBILE"} ==> AirtimeServiceId(network) == "mtn"
  {
    UpperIdempotent(network);
  }

  // ---------------------------------------------------------------------
  // Data variation codes and plans
  // ---------------------------------------------------------------------

  /** The five bundle sizes both tables list, smallest first. */
  const Sizes: seq<string> := ["500MB", "1GB", "2GB", "3GB", "5GB"]

  /** `getDataVariationCode`: tables for MTN and AIRTEL only, keyed by the
      exact (case-sensitive) size; every miss gives `1000`. */
  function DataVariationCode(network: string, dataSize: string): string {
    var key := Upper(network);
    if key == "MTN" then
      if dataSize == "500MB" then "M500_3"
      else if dataSize == "1GB" then "1000"
      else if dataSize == "2GB" then "M2000_3"
      else if dataSize == "3GB" then "M3000_8"
      else if dataSize == "5GB" then "M5000_8"
      else "1000"
    else if key == "AIRTEL" then
      if dataSize == "500MB" then "500MB-30"
      else if dataSize == "1GB" then "1GB-30"
      else if dataSize == "2GB" then "2GB-30"
      else if dataSize == "3GB" then "3GB-30"
      else if dataSize == "5GB" then "5GB-30"
      else "1000"
    else "1000"
  }

  /** A bundle the bot offers: display name, provider code and price in naira. */
  datatype Plan = Plan(name: string, code: string, amount: real)

  const MtnPlans: seq<Plan> := [
    Plan("500MB - 30 days", "M500_3", 200.0),
    Plan("1GB - 30 days", "1000", 350.0),
    Plan("2GB - 30 days", "M2000_3", 700.0),
    Plan("3GB - 30 days", "M3000_8", 1000.0),
    Plan("5GB - 30 days", "M5000_8", 1500.0)
  ]

  const AirtelPlans: seq<Plan> := [
    Plan("500MB - 30 days", "500MB-30", 200.0),
    Plan("1GB - 30 days", "1GB-30", 350.0),
    Plan("2GB - 30 days", "2GB-30", 700.0),
    Plan("3GB - 30 days", "3GB-30", 1000.0),
    Plan("5GB - 30 days", "5GB-30", 1500.0)
  ]

  /** `getDataPlans`: the AIRTEL list for AIRTEL, the MTN list for everything
      else (MTN itself, GLO, 9MOBILE and any other name). */
  function DataPlans(network: string): (r: seq<Plan>)
    ensures |r| == 5
    ensures Upper(network) == "AIRTEL" ==> r == AirtelPlans
    ensures Upper(network) != "AIRTEL" ==> r == MtnPlans
  {
    if Upper(network) == "AIRTEL" then AirtelPlans else MtnPlans
  }

  /** `plans.find(plan => plan.name.includes(dataSize))`: the first plan whose
      name contains the requested size. */
  function FindPlan(plans: seq<Plan>, dataSize: string): (r: Option<Plan>)
    ensures r.Some? ==> r.value in plans && Contains(r.value.name, dataSize)
    ensures r.None? <==> forall k | 0 <= k < |plans| :: !Contains(plans[k].name, dataSize)
    ensures r.Some? ==> exists k | 0 <= k < |plans| ::
      && r.value == plans[k] && Contains(plans[k].name, dataSize)
      && forall j | 0 <= j < k :: !Contains(plans[j].name, dataSize)
  {
    if plans == [] then None
    else if Contains(plans[0].name, dataSize) then Some(plans[0])
    else FindPlan(plans[1..], dataSize)
  }

  /** For MTN and AIRTEL the two tables agree: the plan listed for each size
      has a name beginning with that size and carries the variation code the
      code table gives for it. */
  lemma VariationCodeMatchesPlan(network: string, k: nat)
    requires Upper(network) == "MTN" || Upper(network) == "AIRTEL"
    requires k < |Sizes|
    ensures StartsWith(DataPlans(network)[k].name, Sizes[k])
    ensures DataVariationCode(network, Sizes[k]) == DataPlans(network)[k].code
  {
  }

  /** The size a plan search succeeds on need not be a key of the code
      table: "0MB" picks the 500MB plan (and its price) for MTN, but the
      request carries the default code `1000`, which is the 1GB code. */
  lemma PlanAndCodeDisagreeOnPartialSize()
    ensures FindPlan(DataPlans("MTN"), "0MB") == Some(MtnPlans[0])
    ensures DataVariationCode("MTN", "0MB") == "1000" == MtnPlans[1].code
  {
    assert Upper("MTN") == "MTN";
    assert OccursAt(MtnPlans[0].name, "0MB", 2);
    assert Contains(MtnPlans[0].name, "0MB");
  }

  /** A bare unit picks the first plan whose name carries it: "GB" buys the
      1GB plan at 350, not a larger one. */
  lemma BareUnitBuysFirstPlan()
    ensures FindPlan(MtnPlans, "GB") == Some(MtnPlans[1])
    ensures FindPlan(MtnPlans, "GB").value.amount == 350.0
  {
    var first := MtnPlans[0].name;
    assert !Contains(first, "GB") by {
      assert forall k | 0 <= k < |first| :: first[k] != 'G';
      forall i | 0 <= i <= |first| ensures !OccursAt(first, "GB", i) {
        if i + 2 <= |first| {
          assert first[i..i + 2][0] == first[i];
        }
      }
    }
    assert OccursAt(MtnPlans[1].name, "GB", 1);
  }

  /** GLO and 9MOBILE are priced from the MTN list but always request code
      `1000`. */
  lemma OtherNetworksUseDefaults(network: string, dataSize: string)
    requires Upper(network) == "GLO" || Upper(network) == "9MOBILE"
    ensures DataPlans(network) == MtnPlans
    ensures DataVariationCode(network, dataSize) == "1000"
  {
  }

  // ---------------------------------------------------------------------
  // Requests and reply normalisation
  // ---------------------------------------------------------------------

  /** The body posted to the provider's `/pay` endpoint. */
  datatype PayRequest =
    | AirtimeRequest(requestId: string, serviceId: string, amount: real, phone: string)
    | DataRequest(requestId: string, serviceId: string, billersCode: string, variationCode: string, phone: string)

  /** `REQ_<now>`. */
  function RequestId(now: nat): string {
    "REQ_" + NatToString(now)
  }

  function AirtimePayRequest(network: string, amount: real, phone: string, now: nat): PayRequest {
    AirtimeRequest(RequestId(now), AirtimeServiceId(network), amount, phone)
  }

  function DataPayRequest(network: string, dataSize: string, phone: string, now: nat): PayRequest {
    DataRequest(RequestId(now), DataServiceId(network), phone, DataVariationCode(network, dataSize), phone)
  }

  /** What came back from posting the request: nothing usable (a transport
      error or a malformed body, both caught), or the body's `code`,
      `requestId` and `response_description`. */
  datatype ProviderReply =
    | NoReply
    | Replied(code: string, requestId: Option<string>, description: Option<string>)

  /** The `{success, reference, message}` the purchase calls return. */
  datatype ServiceResult = ServiceResult(success: bool, reference: Option<string>, message: string)

  /** The reply normalisation shared by `purchaseAirtime` and `purchaseData`;
      only the success text differs. Without credentials the call is simulated
      and always succeeds with a `DEMO_<now>` reference. */
  function Normalise(demo: bool, now: nat, reply: ProviderReply, successText: string): ServiceResult {
    if demo then ServiceResult(true, Some("DEMO_" + NatToString(now)), successText + " (Demo mode)")
    else match reply
      case NoReply => ServiceResult(false, None, "Service temporarily unavailable")
      case Replied(code, requestId, description) =>
        if code == "000" then ServiceResult(true, requestId, successText)
        else ServiceResult(false, None,
          if description.Some? && description.value != "" then description.value else "Purchase failed")
  }

  function PurchaseAirtime(demo: bool, now: nat, reply: ProviderReply): ServiceResult {
    Normalise(demo, now, reply, "Airtime purchase successful")
  }

  function PurchaseData(demo: bool, now: nat, reply: ProviderReply): ServiceResult {
    Normalise(demo, now, reply, "Data purchase successful")
  }

  /** Outside demo mode a purchase succeeds exactly when the provider answered
      with code `000`, and then carries the provider's request id. A refusal
      carries the provider's description when it gave a non-empty one and
      `Purchase failed` otherwise; no usable answer means the service is
      unavailable. */
  lemma SuccessIffCode000(now: nat, reply: ProviderReply, successText: string)
    ensures Normalise(false, now, reply, successText).success <==> reply.Replied? && reply.code == "000"
    ensures var r := Normalise(false, now, reply, successText);
      r.success ==> r.reference == reply.requestId && r.message == successText
    ensures var r := Normalise(false, now, reply, successText);
      !r.success ==> r.reference.None?
    ensures reply.NoReply? ==> Normalise(false, now, reply, successText).message == "Service temporarily unavailable"
    ensures reply.Replied? && reply.code != "000" ==>
      Normalise(false, now, reply, successText).message ==
        (if reply.description.Some? && reply.description.value != "" then reply.description.value else "Purchase failed")
  {
  }

  /** A simulated purchase succeeds whatever the provider would have said, and
      its reference is the `DEMO_` prefix followed by the timestamp. */
  lemma DemoAlwaysSucceeds(now: nat, reply: ProviderReply, successText: string)
    ensures var r := Normalise(true, now, reply, successText);
      r.success && r.reference.Some? && StartsWith(r.reference.value, "DEMO_")
  {
  }
}
