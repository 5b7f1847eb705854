/** Read-only coupon checks: the validation endpoint and the active/archived listing. */
module CouponViews {
  import opened Wrappers
  import opened Discounts

  /** ASCII lower-casing, the case folding a case-insensitive lookup applies to code strings. */
  function Lower(ch: char): (r: char)
    ensures 'A' <= ch <= 'Z' ==> r as int == ch as int + 32
    ensures !('A' <= ch <= 'Z') ==> r == ch
  {
    if 'A' <= ch <= 'Z' then (ch as int + 32) as char else ch
  }

  /** `code__iexact`: equal strings once both are lower-cased. */
  predicate SameIgnoringCase(a: string, b: string)
  {
    |a| == |b| && forall i :: 0 <= i < |a| ==> Lower(a[i]) == Lower(b[i])
  }

  /** The positions of the codes matching `s` case-insensitively (and active, when `activeOnly`). */
  function Matching(codes: seq<DiscountCode>, s: string, activeOnly: bool): (r: seq<nat>)
    ensures forall k :: 0 <= k < |r| ==> r[k] < |codes|
    ensures forall k :: 0 <= k < |r| ==>
              SameIgnoringCase(codes[r[k]].code, s) && (activeOnly ==> codes[r[k]].isActive)
    ensures forall i :: 0 <= i < |codes| && SameIgnoringCase(codes[i].code, s) && (activeOnly ==> codes[i].isActive)
              ==> i in r
    ensures forall k, l :: 0 <= k < l < |r| ==> r[k] < r[l]
  {
    if codes == [] then []
    else
      var earlier := Matching(codes[..|codes| - 1], s, activeOnly);
      var last := |codes| - 1;
      if SameIgnoringCase(codes[last].code, s) && (activeOnly ==> codes[last].isActive)
      then earlier + [last]
      else earlier
  }

  /** The outcomes of the validation endpoint, one per message. */
  datatype Verdict =
    | MissingCode        // no code in the request: HTTP 400
    | UnknownCode        // no code matches
    | Inactive
    | NotStarted
    | Expired
    | GlobalCapReached
    | PersonalCapReached
    | ValidCode
    | AmbiguousCode      // more than one code matches: the lookup raises and the request fails

  /** The response: whether the code is valid, which message, and the HTTP status. */
  datatype Answer = Answer(isValid: bool, verdict: Verdict, status: nat)

  /** The first failing check on a found code, in the order active, started, expired, global cap, per-user cap. */
  function CheckCode(c: DiscountCode, userUsages: nat, now: int): (v: Verdict)
    ensures v == ValidCode <==>
              c.isActive && c.start <= now && (c.end.None? || c.end.value >= now) &&
              (c.maxUsageCount.None? || c.usageCount < c.maxUsageCount.value) &&
              userUsages < c.maxUsagePerUser
    ensures v == Inactive <==> !c.isActive
    ensures v == NotStarted <==> c.isActive && c.start > now
    ensures v == Expired <==> c.isActive && c.start <= now && c.end.Some? && c.end.value < now
    ensures v == GlobalCapReached <==>
              c.isActive && c.start <= now && (c.end.None? || c.end.value >= now) &&
              c.maxUsageCount.Some? && c.usageCount >= c.maxUsageCount.value
    ensures v in {ValidCode, Inactive, NotStarted, Expired, GlobalCapReached, PersonalCapReached}
  {
    if !c.isActive then Inactive
    else if c.start > now then NotStarted
    else if c.end.Some? && c.end.value < now then Expired
    else if c.maxUsageCount.Some? && c.usageCount >= c.maxUsageCount.value then GlobalCapReached
    else if userUsages >= c.maxUsagePerUser then PersonalCapReached
    else ValidCode
  }

  /** `ValidateDiscountCodeView.post`: validates a code for `user` at time `now` without changing anything. */
  function ValidateCode(code: Option<string>, codes: seq<DiscountCode>, usages: seq<Usage>, user: nat, now: int)
    : (r: Answer)
    ensures (code.None? || code.value == "") ==> r == Answer(false, MissingCode, 400)
    ensures r.isValid <==> r.verdict == ValidCode
    ensures r.verdict == UnknownCode <==>
              code.Some? && code.value != "" &&
              forall i :: 0 <= i < |codes| ==> !SameIgnoringCase(codes[i].code, code.value)
    ensures r.isValid ==>
              code.Some? && |Matching(codes, code.value, false)| == 1 &&
              var k := Matching(codes, code.value, false)[0];
              var c := codes[k];
              c.isActive && c.start <= now && (c.end.None? || c.end.value >= now) &&
              (c.maxUsageCount.None? || c.usageCount < c.maxUsageCount.value) &&
              UsageCount(usages, k, user) < c.maxUsagePerUser
    ensures (code.Some? && code.value != "" && |Matching(codes, code.value, false)| == 1) ==>
              var k := Matching(codes, code.value, false)[0];
              var v := CheckCode(codes[k], UsageCount(usages, k, user), now);
              r == Answer(v == ValidCode, v, 200)
    ensures (code.Some? && code.value != "" && |Matching(codes, code.value, false)| == 1 &&
             var k := Matching(codes, code.value, false)[0];
             var c := codes[k];
             c.isActive && c.start <= now && (c.end.None? || c.end.value >= now) &&
             (c.maxUsageCount.None? || c.usageCount < c.maxUsageCount.value) &&
             UsageCount(usages, k, user) < c.maxUsagePerUser) ==> r.isValid
    ensures r.verdict == AmbiguousCode <==> code.Some? && code.value != "" && |Matching(codes, code.value, false)| > 1
    ensures r.verdict == AmbiguousCode ==> r.status == 500
  {
    if code.None? || code.value == "" then Answer(false, MissingCode, 400)
    else
      var found := Matching(codes, code.value, false);
      if |found| == 0 then Answer(false, UnknownCode, 200)
      else if |found| > 1 then Answer(false, AmbiguousCode, 500)
      else
        var v := CheckCode(codes[found[0]], UsageCount(usages, found[0], user), now);
        Answer(v == ValidCode, v, 200)
  }

  /** A code with no global limit is never refused for its global usage count. */
  lemma NoGlobalLimitMeansUnlimited(c: DiscountCode, userUsages: nat, now: int)
    requires c.maxUsageCount.None?
    ensures CheckCode(c, userUsages, now) != GlobalCapReached
  {
  }

  /** The listing's notion of an active code: switched on and with an end date not yet passed. */
  predicate Listed(c: DiscountCode, now: int)
  {
    c.isActive && c.end.Some? && c.end.value >= now
  }

  /** `active_codes`: the codes that are active with an end date at or after `now`, in listing order. */
  function ActiveCodes(codes: seq<DiscountCode>, now: int): (r: seq<DiscountCode>)
    ensures forall c :: c in r ==> c in codes && Listed(c, now)
    ensures forall c :: c in codes && Listed(c, now) ==> c in r
    ensures |r| <= |codes|
  {
    if codes == [] then []
    else if Listed(codes[0], now) then [codes[0]] + ActiveCodes(codes[1..], now)
    else ActiveCodes(codes[1..], now)
  }

  /** `archived_codes`: every code the active list leaves out. */
  function ArchivedCodes(codes: seq<DiscountCode>, now: int): (r: seq<DiscountCode>)
    ensures forall c :: c in r ==> c in codes && !Listed(c, now)
    ensures forall c :: c in codes && !Listed(c, now) ==> c in r
    ensures |r| <= |codes|
  {
    if codes == [] then []
    else if !Listed(codes[0], now) then [codes[0]] + ArchivedCodes(codes[1..], now)
    else ArchivedCodes(codes[1..], now)
  }

  /** The two lists split the codes exactly: together they hold every code once. */
  lemma {:induction false} ActiveArchivedPartition(codes: seq<DiscountCode>, now: int)
    ensures multiset(ActiveCodes(codes, now)) + multiset(ArchivedCodes(codes, now)) == multiset(codes)
  {
    if codes != [] {
      ActiveArchivedPartition(codes[1..], now);
      assert codes == [codes[0]] + codes[1..];
    }
  }

  /** A code without an end date is always archived, even when it is switched on. */
  lemma OpenEndedCodesAreArchived(codes: seq<DiscountCode>, c: DiscountCode, now: int)
    requires c in codes && c.end.None?
    ensures c in ArchivedCodes(codes, now) && c !in ActiveCodes(codes, now)
  {
  }

  /** `DiscountCodeViewSet.get_queryset`: the archived list when `archived=true` is asked for, else the active list. */
  function ListCodes(archivedParam: Option<string>, codes: seq<DiscountCode>, now: int): (r: seq<DiscountCode>)
    ensures archivedParam == Some("true") ==> forall c :: c in codes ==> (c in r <==> !Listed(c, now))
    ensures archivedParam != Some("true") ==> forall c :: c in codes ==> (c in r <==> Listed(c, now))
    ensures forall c :: c in r ==> c in codes
  {
    if archivedParam == Some("true") then ArchivedCodes(codes, now) else ActiveCodes(codes, now)
  }
}
