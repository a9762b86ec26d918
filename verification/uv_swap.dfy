/** The device's colour-plane decision (`detectUvSwapNeeded`): from the build
    fingerprint (manufacturer, model, brand, SDK level) decide whether the
    chroma planes must be written V-first. The code is a first-match chain of
    vendor tests; a data-driven rule table with a generic first-match lookup
    is given beside it and proved to decide the same on every fingerprint. */
module UvSwap {
  import opened Util

  datatype Fingerprint = Fingerprint(manufacturer: string, model: string, brand: string, sdk: int)

  /** The vendor chain of `detectUvSwapNeeded` on fields already lower-cased:
      the vendor tests run in order and the first one that matches decides. */
  function UvSwapFor(manufacturer: string, model: string, brand: string, sdk: int): bool
  {
    if Contains(manufacturer, "samsung") then true
    else if Contains(manufacturer, "oneplus") then
      if Contains(model, "7") || Contains(model, "8") || Contains(model, "9") then true
      else if Contains(model, "nord") then true
      else if sdk < 28 then true
      else false
    else if Contains(manufacturer, "xiaomi") || Contains(brand, "redmi") then sdk < 28
    else if Contains(manufacturer, "huawei") || Contains(brand, "honor") then sdk < 29
    else if Contains(manufacturer, "oppo") then Contains(model, "find") || sdk < 28
    else if Contains(manufacturer, "vivo") then sdk < 28
    else if Contains(manufacturer, "google") || Contains(manufacturer, "sony")
            || Contains(manufacturer, "motorola") || Contains(manufacturer, "nokia") then false
    else false
  }

  /** `detectUvSwapNeeded`: the chain on the lower-cased build fields. It
      decides as the rule table `UvRules` does. */
  function DetectUvSwapNeeded(fp: Fingerprint): (r: bool)
    ensures r == LookupUvSwap(fp)
  {
    ChainMatchesTable(Lower(fp.manufacturer), Lower(fp.model), Lower(fp.brand), fp.sdk);
    UvSwapFor(Lower(fp.manufacturer), Lower(fp.model), Lower(fp.brand), fp.sdk)
  }

  // ---------------------------------------------------------------------------
  // The same decision as a table

  /** What a matching rule decides: a fixed answer, or "the model names one
      of these series, or the SDK is below this level". */
  datatype Decision = Always(answer: bool) | ModelOrSdkBelow(series: seq<string>, sdkBelow: int)

  /** A rule matches when the manufacturer contains one of its vendor keys
      or the brand contains one of its brand keys. */
  datatype Rule = Rule(vendorKeys: seq<string>, brandKeys: seq<string>, decision: Decision)

  predicate AnyIn(s: string, keys: seq<string>)
    decreases |keys|
  {
    |keys| > 0 && (Contains(s, keys[0]) || AnyIn(s, keys[1..]))
  }

  predicate Matches(r: Rule, manufacturer: string, brand: string)
  {
    AnyIn(manufacturer, r.vendorKeys) || AnyIn(brand, r.brandKeys)
  }

  function Decide(d: Decision, model: string, sdk: int): bool
  {
    match d
    case Always(a) => a
    case ModelOrSdkBelow(series, below) => AnyIn(model, series) || sdk < below
  }

  /** First-match lookup over a rule table; no match means `false`. */
  function Lookup(rules: seq<Rule>, manufacturer: string, model: string, brand: string, sdk: int): bool
    decreases |rules|
  {
    if |rules| == 0 then false
    else if Matches(rules[0], manufacturer, brand) then Decide(rules[0].decision, model, sdk)
    else Lookup(rules[1..], manufacturer, model, brand, sdk)
  }

  /** With no rule matching, the lookup answers `false`. */
  lemma {:induction false} LookupNoMatch(rules: seq<Rule>, manufacturer: string, model: string, brand: string, sdk: int)
    requires forall i :: 0 <= i < |rules| ==> !Matches(rules[i], manufacturer, brand)
    ensures !Lookup(rules, manufacturer, model, brand, sdk)
    decreases |rules|
  {
    if |rules| > 0 {
      assert !Matches(rules[0], manufacturer, brand);
      assert forall i :: 0 <= i < |rules[1..]| ==> rules[1..][i] == rules[i + 1];
      LookupNoMatch(rules[1..], manufacturer, model, brand, sdk);
    }
  }

  /** The first matching rule decides. */
  lemma {:induction false} LookupFirstMatch(rules: seq<Rule>, manufacturer: string, model: string, brand: string,
                                            sdk: int, k: nat)
    requires k < |rules| && Matches(rules[k], manufacturer, brand)
    requires forall j :: 0 <= j < k ==> !Matches(rules[j], manufacturer, brand)
    ensures Lookup(rules, manufacturer, model, brand, sdk) == Decide(rules[k].decision, model, sdk)
    decreases k
  {
    if k > 0 {
      assert !Matches(rules[0], manufacturer, brand);
      assert rules[1..][k - 1] == rules[k];
      assert forall j :: 0 <= j < k - 1 ==> rules[1..][j] == rules[j + 1];
      LookupFirstMatch(rules[1..], manufacturer, model, brand, sdk, k - 1);
    }
  }

  const UvRules: seq<Rule> := [
    Rule(["samsung"], [], Always(true)),
    Rule(["oneplus"], [], ModelOrSdkBelow(["7", "8", "9", "nord"], 28)),
    Rule(["xiaomi"], ["redmi"], ModelOrSdkBelow([], 28)),
    Rule(["huawei"], ["honor"], ModelOrSdkBelow([], 29)),
    Rule(["oppo"], [], ModelOrSdkBelow(["find"], 28)),
    Rule(["vivo"], [], ModelOrSdkBelow([], 28)),
    Rule(["google", "sony", "motorola", "nokia"], [], Always(false))
  ]

  function LookupUvSwap(fp: Fingerprint): bool
  {
    Lookup(UvRules, Lower(fp.manufacturer), Lower(fp.model), Lower(fp.brand), fp.sdk)
  }

  lemma AnyInOne(s: string, a: string)
    ensures AnyIn(s, [a]) == Contains(s, a)
  {
    assert [a][1..] == [];
  }

  lemma AnyInFour(s: string, a: string, b: string, c: string, d: string)
    ensures AnyIn(s, [a, b, c, d]) == (Contains(s, a) || Contains(s, b) || Contains(s, c) || Contains(s, d))
  {
    assert [a, b, c, d][1..] == [b, c, d];
    assert [b, c, d][1..] == [c, d];
    AnyInOne(s, d);
    assert AnyIn(s, [c, d]) == (Contains(s, c) || AnyIn(s, [d]));
    assert AnyIn(s, [b, c, d]) == (Contains(s, b) || AnyIn(s, [c, d]));
    assert AnyIn(s, [a, b, c, d]) == (Contains(s, a) || AnyIn(s, [b, c, d]));
  }

  /** The last three rules of the table: Oppo, Vivo, then the standard vendors. */
  lemma LookupFromOppo(manufacturer: string, model: string, brand: string, sdk: int)
    ensures Lookup(UvRules[4..], manufacturer, model, brand, sdk)
            == if Contains(manufacturer, "oppo") then Contains(model, "find") || sdk < 28
               else Contains(manufacturer, "vivo") && sdk < 28
  {
    AnyInOne(manufacturer, "oppo");
    AnyInOne(manufacturer, "vivo");
    AnyInOne(model, "find");
    AnyInFour(manufacturer, "google", "sony", "motorola", "nokia");
    assert UvRules[6..][1..] == [];
    assert Lookup(UvRules[6..], manufacturer, model, brand, sdk) == false;
    assert UvRules[5..][1..] == UvRules[6..];
    assert UvRules[4..][1..] == UvRules[5..];
  }

  /** The table from the Xiaomi rule on. */
  lemma LookupFromXiaomi(manufacturer: string, model: string, brand: string, sdk: int)
    ensures Lookup(UvRules[2..], manufacturer, model, brand, sdk)
            == if Contains(manufacturer, "xiaomi") || Contains(brand, "redmi") then sdk < 28
               else if Contains(manufacturer, "huawei") || Contains(brand, "honor") then sdk < 29
               else Lookup(UvRules[4..], manufacturer, model, brand, sdk)
  {
    AnyInOne(manufacturer, "xiaomi");
    AnyInOne(manufacturer, "huawei");
    AnyInOne(brand, "redmi");
    AnyInOne(brand, "honor");
    assert UvRules[3..][1..] == UvRules[4..];
    assert UvRules[2..][1..] == UvRules[3..];
  }

  /** The chain as written and the rule table decide alike on all inputs. */
  lemma ChainMatchesTable(manufacturer: string, model: string, brand: string, sdk: int)
    ensures UvSwapFor(manufacturer, model, brand, sdk) == Lookup(UvRules, manufacturer, model, brand, sdk)
  {
    AnyInOne(manufacturer, "samsung");
    AnyInOne(manufacturer, "oneplus");
    AnyInFour(model, "7", "8", "9", "nord");
    LookupFromOppo(manufacturer, model, brand, sdk);
    LookupFromXiaomi(manufacturer, model, brand, sdk);
    assert UvRules[1..][1..] == UvRules[2..];
  }

  // ---------------------------------------------------------------------------
  // What the decision promises, vendor by vendor

  /** A manufacturer containing "samsung" (in any letter case) always swaps,
      whatever else it contains. */
  lemma SamsungSwaps(fp: Fingerprint)
    requires Contains(Lower(fp.manufacturer), "samsung")
    ensures DetectUvSwapNeeded(fp)
  {
  }

  /** OnePlus swaps exactly when the model names a 7, 8 or 9 series or a
      Nord, or the SDK is below 28. */
  lemma OnePlusRule(fp: Fingerprint)
    requires !Contains(Lower(fp.manufacturer), "samsung") && Contains(Lower(fp.manufacturer), "oneplus")
    ensures DetectUvSwapNeeded(fp) <==>
              Contains(Lower(fp.model), "7") || Contains(Lower(fp.model), "8")
              || Contains(Lower(fp.model), "9") || Contains(Lower(fp.model), "nord") || fp.sdk < 28
  {
  }

  /** The standard-format vendors never swap, once no earlier vendor test matched. */
  lemma StandardVendorsDoNotSwap(fp: Fingerprint)
    requires var m := Lower(fp.manufacturer);
             var b := Lower(fp.brand);
             && !Contains(m, "samsung") && !Contains(m, "oneplus")
             && !Contains(m, "xiaomi") && !Contains(b, "redmi")
             && !Contains(m, "huawei") && !Contains(b, "honor")
             && !Contains(m, "oppo") && !Contains(m, "vivo")
    ensures !DetectUvSwapNeeded(fp)
  {
  }

  /** A newer platform never needs the swap when an older one on the same
      device does not: raising the SDK level can only turn a swap off. */
  lemma NewerSdkNeverAddsSwap(fp: Fingerprint, newer: int)
    requires newer >= fp.sdk
    ensures DetectUvSwapNeeded(fp.(sdk := newer)) ==> DetectUvSwapNeeded(fp)
  {
  }

  /** Swapping needs a known vendor: a fingerprint none of the vendor tests
      recognise never swaps. */
  lemma UnknownDoesNotSwap(fp: Fingerprint)
    requires forall i :: 0 <= i < |UvRules| ==> !Matches(UvRules[i], Lower(fp.manufacturer), Lower(fp.brand))
    ensures !DetectUvSwapNeeded(fp)
  {
    LookupNoMatch(UvRules, Lower(fp.manufacturer), Lower(fp.model), Lower(fp.brand), fp.sdk);
  }
}
