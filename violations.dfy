/**
 * Violation records and the three predicates of the violation dashboard's
 * filter: platform, user id substring and free-text search over every field.
 */
module Violations {
  import Text
  import Instants
  import Remote

  /**
   * One violation record as the dashboard holds it after mirroring the
   * snapshot: the document id plus the stored fields. `timestamp` is the
   * stored ISO text; `instant` is what `new Date(timestamp)` reads from it,
   * milliseconds since the epoch, and is not a stored field.
   */
  datatype Violation = Violation(
    id: string,
    timestamp: string,
    instant: int,
    ruleName: string,
    userId: string,
    campaignId: string,
    platform: string,
    fieldName: string,
    originalValue: string,
    suggestedCorrection: string,
    status: string)

  /** The platform filter's pass-through value. */
  const ALL_PLATFORMS := "All"

  /** `Object.values(violation).map(String)`: every field of the record as text. */
  function FieldValues(v: Violation): (r: seq<string>)
    ensures v.userId in r && v.platform in r && v.campaignId in r && v.ruleName in r
  {
    [v.id, v.timestamp, v.ruleName, v.userId, v.campaignId, v.platform,
     v.fieldName, v.originalValue, v.suggestedCorrection, v.status]
  }

  predicate MatchesPlatform(v: Violation, filterPlatform: string)
  {
    filterPlatform == ALL_PLATFORMS || v.platform == filterPlatform
  }

  predicate MatchesUser(v: Violation, filterUser: string)
  {
    filterUser == "" || Text.Contains(Text.ToLower(v.userId), Text.ToLower(filterUser))
  }

  /** `values.some(value => value.toLowerCase().includes(term))`, `term` already lower-cased. */
  function AnyContains(values: seq<string>, term: string): (r: bool)
    ensures r <==> exists i :: 0 <= i < |values| && Text.Contains(Text.ToLower(values[i]), term)
  {
    if values == [] then false
    else Text.Contains(Text.ToLower(values[0]), term) || AnyContains(values[1..], term)
  }

  /** A value that contains the term makes `some` succeed. */
  lemma {:induction false} AnyContainsAt(values: seq<string>, term: string, i: nat)
    requires i < |values| && Text.Contains(Text.ToLower(values[i]), term)
    ensures AnyContains(values, term)
  {
    if i > 0 {
      AnyContainsAt(values[1..], term, i - 1);
    }
  }

  predicate MatchesSearch(v: Violation, searchTerm: string)
  {
    searchTerm == "" || AnyContains(FieldValues(v), Text.ToLower(searchTerm))
  }

  /** The filter callback: the three predicates AND-ed. */
  predicate Matches(v: Violation, filterPlatform: string, filterUser: string, searchTerm: string)
  {
    MatchesPlatform(v, filterPlatform) && MatchesUser(v, filterUser) && MatchesSearch(v, searchTerm)
  }

  /**
   * `violations.filter(...)`: keeps, in their order, exactly the records that
   * match, each as many times as it occurs.
   */
  function Filter(s: seq<Violation>, filterPlatform: string, filterUser: string, searchTerm: string): (r: seq<Violation>)
    ensures forall v :: v in r <==> v in s && Matches(v, filterPlatform, filterUser, searchTerm)
    ensures forall v :: multiset(r)[v] == if Matches(v, filterPlatform, filterUser, searchTerm) then multiset(s)[v] else 0
    ensures |r| <= |s|
  {
    if s == [] then []
    else
      var rest := Filter(s[1..], filterPlatform, filterUser, searchTerm);
      assert s == [s[0]] + s[1..];
      if Matches(s[0], filterPlatform, filterUser, searchTerm) then [s[0]] + rest else rest
  }

  /** A single record is kept exactly when it matches. */
  lemma FilterSingle(v: Violation, filterPlatform: string, filterUser: string, searchTerm: string)
    ensures Filter([v], filterPlatform, filterUser, searchTerm)
         == if Matches(v, filterPlatform, filterUser, searchTerm) then [v] else []
  {
    assert [v][1..] == [];
  }

  /**
   * The filter keeps the input order: filtering a concatenation filters each
   * part in place.
   */
  lemma {:induction false} FilterAppend(x: seq<Violation>, y: seq<Violation>, filterPlatform: string, filterUser: string, searchTerm: string)
    ensures Filter(x + y, filterPlatform, filterUser, searchTerm)
         == Filter(x, filterPlatform, filterUser, searchTerm) + Filter(y, filterPlatform, filterUser, searchTerm)
  {
    if x == [] {
      assert x + y == y;
    } else {
      assert (x + y)[0] == x[0] && (x + y)[1..] == x[1..] + y;
      FilterAppend(x[1..], y, filterPlatform, filterUser, searchTerm);
    }
  }

  /** Filtering a list whose every record matches gives the list back. */
  lemma {:induction false} FilterKeepsMatching(s: seq<Violation>, filterPlatform: string, filterUser: string, searchTerm: string)
    requires forall v :: v in s ==> Matches(v, filterPlatform, filterUser, searchTerm)
    ensures Filter(s, filterPlatform, filterUser, searchTerm) == s
  {
    if s != [] {
      FilterKeepsMatching(s[1..], filterPlatform, filterUser, searchTerm);
    }
  }

  /** The filter depends on the user and search texts only through their lower-cased forms. */
  lemma MatchesIgnoresCase(v: Violation, filterPlatform: string, u1: string, u2: string, s1: string, s2: string)
    requires Text.SameUpToCase(u1, u2) && Text.SameUpToCase(s1, s2)
    ensures Matches(v, filterPlatform, u1, s1) == Matches(v, filterPlatform, u2, s2)
  {
    assert |u1| == |Text.ToLower(u1)| == |u2|;
    assert |s1| == |Text.ToLower(s1)| == |s2|;
  }

  lemma {:induction false} FilterIgnoresCase(s: seq<Violation>, filterPlatform: string, u1: string, u2: string, s1: string, s2: string)
    requires Text.SameUpToCase(u1, u2) && Text.SameUpToCase(s1, s2)
    ensures Filter(s, filterPlatform, u1, s1) == Filter(s, filterPlatform, u2, s2)
  {
    if s != [] {
      MatchesIgnoresCase(s[0], filterPlatform, u1, u2, s1, s2);
      FilterIgnoresCase(s[1..], filterPlatform, u1, u2, s1, s2);
    }
  }

  /** With the pass-through values of all three filters, every record is kept. */
  lemma AllFiltersOpen(v: Violation)
    ensures Matches(v, ALL_PLATFORMS, "", "")
  {
  }

  /** The platforms and fields a simulated violation picks from. */
  const SIMULATED_PLATFORMS := ["Facebook Ads", "Google Ads", "LinkedIn Ads"]
  const SIMULATED_FIELDS := ["Campaign Name", "Budget", "Targeting Age"]

  /** Digits of `Math.random().toString(36)`. */
  predicate IsBase36Digits(s: string)
  {
    forall i :: 0 <= i < |s| ==> '0' <= s[i] <= '9' || 'a' <= s[i] <= 'z'
  }

  /**
   * The record `handleAddSimulatedViolation` stores. The random choices are
   * parameters: `ruleNumber` is `Math.floor(Math.random() * 100)`, `digits` is
   * `Math.random().toString(36).substring(2, 8)`, and the two choices are
   * `Math.floor(Math.random() * 3)`. The id is assigned by the store, and is
   * empty until the record is mirrored.
   */
  function SimulatedViolation(now: int, userId: string, ruleNumber: nat, digits: string,
                              platformChoice: nat, fieldChoice: nat): Violation
    requires platformChoice < 3 && fieldChoice < 3
  {
    Violation(
      id := "",
      timestamp := Instants.IsoText(now),
      instant := now,
      ruleName := "Simulated Rule " + Text.Decimal(ruleNumber),
      userId := userId,
      campaignId := "CMP-" + Text.ToUpper(digits),
      platform := SIMULATED_PLATFORMS[platformChoice],
      fieldName := SIMULATED_FIELDS[fieldChoice],
      originalValue := "Invalid Value",
      suggestedCorrection := "Please correct the value.",
      status := "Detected")
  }

  /**
   * The simulated record carries the current instant and its ISO text, the
   * signed-in user and status `Detected`; its platform and field are among the
   * offered ones; its campaign id is `CMP-` and up to six upper-cased base-36
   * characters; its rule name is `Simulated Rule ` and the rule number.
   */
  lemma SimulatedShape(now: int, userId: string, ruleNumber: nat, digits: string,
                       platformChoice: nat, fieldChoice: nat)
    requires ruleNumber < 100 && |digits| <= 6 && IsBase36Digits(digits)
    requires platformChoice < 3 && fieldChoice < 3
    ensures var r := SimulatedViolation(now, userId, ruleNumber, digits, platformChoice, fieldChoice);
      && r.timestamp == Instants.IsoText(now) && r.instant == now && r.userId == userId && r.status == "Detected"
      && r.platform in SIMULATED_PLATFORMS && r.fieldName in SIMULATED_FIELDS
      && "CMP-" <= r.campaignId && |r.campaignId| <= 10
      && (forall i :: 4 <= i < |r.campaignId| ==> '0' <= r.campaignId[i] <= '9' || 'A' <= r.campaignId[i] <= 'Z')
      && "Simulated Rule " <= r.ruleName && 16 <= |r.ruleName| <= 17
      && Text.AllDigits(r.ruleName[15..]) && Text.DigitsValue(r.ruleName[15..]) == ruleNumber
  {
    SimulatedCampaignId(digits);
    SimulatedRuleName(ruleNumber);
  }

  /** `CMP-` and up to six upper-cased base-36 digits. */
  lemma SimulatedCampaignId(digits: string)
    requires |digits| <= 6 && IsBase36Digits(digits)
    ensures var c := "CMP-" + Text.ToUpper(digits);
      && "CMP-" <= c && |c| <= 10
      && forall i :: 4 <= i < |c| ==> '0' <= c[i] <= '9' || 'A' <= c[i] <= 'Z'
  {
    var c := "CMP-" + Text.ToUpper(digits);
    forall i | 4 <= i < |c|
      ensures '0' <= c[i] <= '9' || 'A' <= c[i] <= 'Z'
    {
      assert c[i] == Text.UpperChar(digits[i - 4]);
    }
  }

  /** `Simulated Rule ` and the one or two decimal digits of the rule number. */
  lemma SimulatedRuleName(ruleNumber: nat)
    requires ruleNumber < 100
    ensures var name := "Simulated Rule " + Text.Decimal(ruleNumber);
      && "Simulated Rule " <= name && 16 <= |name| <= 17
      && Text.AllDigits(name[15..]) && Text.DigitsValue(name[15..]) == ruleNumber
  {
    var name := "Simulated Rule " + Text.Decimal(ruleNumber);
    assert name[15..] == Text.Decimal(ruleNumber);
    Text.DecimalValue(ruleNumber);
    if ruleNumber >= 10 {
      assert Text.Decimal(ruleNumber) == Text.Decimal(ruleNumber / 10) + [Text.DigitChar(ruleNumber % 10)];
    }
  }

  /**
   * Snapshot mirroring, `{id: doc.id, ...doc.data()}`: the local list is the
   * snapshot's records in snapshot order, each carrying its document id.
   */
  function Mirror(snapshot: seq<(string, Violation)>): (r: seq<Violation>)
    ensures |r| == |snapshot|
    ensures forall i :: 0 <= i < |r| ==> r[i].id == snapshot[i].0 && r[i] == snapshot[i].1.(id := snapshot[i].0)
  {
    if snapshot == [] then [] else [snapshot[0].1.(id := snapshot[0].0)] + Mirror(snapshot[1..])
  }

  /** Every document of a collection appears in the mirrored list of its snapshot, carrying its id. */
  lemma MirrorListsStored(snapshot: seq<(string, Violation)>, store: map<string, Violation>, id: string)
    requires Remote.IsSnapshotOf(snapshot, store) && id in store
    ensures store[id].(id := id) in Mirror(snapshot)
  {
    var i :| 0 <= i < |snapshot| && snapshot[i].0 == id;
    assert Mirror(snapshot)[i] == store[id].(id := id);
  }
}
