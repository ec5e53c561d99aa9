/**
 * `filteredViolations`: the dashboard's list, the violations that pass the
 * platform, user and search filters, most recent first.
 */
module ViolationView {
  import Text
  import Remote
  import opened Violations
  import opened Recency

  /** Filter, then sort: the matching records, rearranged most recent first. */
  function View(violations: seq<Violation>, filterPlatform: string, filterUser: string, searchTerm: string): (r: seq<Violation>)
    ensures multiset(r) == multiset(Filter(violations, filterPlatform, filterUser, searchTerm))
    ensures Descending(r)
  {
    SortByRecency(Filter(violations, filterPlatform, filterUser, searchTerm))
  }

  /**
   * Everything the dashboard promises about the list it shows: only and all
   * matching records, a permutation of the filtered input, most recent first,
   * and ties in their input order.
   */
  lemma ViewSpec(violations: seq<Violation>, filterPlatform: string, filterUser: string, searchTerm: string)
    ensures var r := View(violations, filterPlatform, filterUser, searchTerm);
      && (forall v :: v in r <==> v in violations && Matches(v, filterPlatform, filterUser, searchTerm))
      && multiset(r) == multiset(Filter(violations, filterPlatform, filterUser, searchTerm))
      && Descending(r)
      && SameTies(r, Filter(violations, filterPlatform, filterUser, searchTerm))
      && (forall t :: WithTimestamp(r, t) == Filter(WithTimestamp(violations, t), filterPlatform, filterUser, searchTerm))
      && (forall v :: multiset(r)[v] == if Matches(v, filterPlatform, filterUser, searchTerm) then multiset(violations)[v] else 0)
  {
    SortIsStable(Filter(violations, filterPlatform, filterUser, searchTerm));
    FilterTies(violations, filterPlatform, filterUser, searchTerm);
  }

  /**
   * Filtering keeps every tie group in input order: the records of the
   * filtered list at a timestamp are the matching records of the input at that
   * timestamp, in input order.
   */
  lemma FilterTies(s: seq<Violation>, filterPlatform: string, filterUser: string, searchTerm: string)
    ensures forall t :: WithTimestamp(Filter(s, filterPlatform, filterUser, searchTerm), t)
                     == Filter(WithTimestamp(s, t), filterPlatform, filterUser, searchTerm)
  {
    forall t {
      FilterTiesAt(s, filterPlatform, filterUser, searchTerm, t);
    }
  }

  lemma {:induction false} FilterTiesAt(s: seq<Violation>, filterPlatform: string, filterUser: string, searchTerm: string, t: int)
    ensures WithTimestamp(Filter(s, filterPlatform, filterUser, searchTerm), t)
         == Filter(WithTimestamp(s, t), filterPlatform, filterUser, searchTerm)
  {
    if s != [] {
      var head, rest := [s[0]], s[1..];
      assert s == head + rest;
      FilterAppend(head, rest, filterPlatform, filterUser, searchTerm);
      WithTimestampAppend(Filter(head, filterPlatform, filterUser, searchTerm),
                          Filter(rest, filterPlatform, filterUser, searchTerm), t);
      FilterTiesAt(rest, filterPlatform, filterUser, searchTerm, t);
      WithTimestampAppend(head, rest, t);
      FilterAppend(WithTimestamp(head, t), WithTimestamp(rest, t), filterPlatform, filterUser, searchTerm);
      FilterSingle(s[0], filterPlatform, filterUser, searchTerm);
      WithTimestampSingle(s[0], t);
      assert WithTimestamp(Filter(head, filterPlatform, filterUser, searchTerm), t)
          == Filter(WithTimestamp(head, t), filterPlatform, filterUser, searchTerm);
    }
  }

  /** With `All`, no user filter and no search, the list shows every violation, most recent first. */
  lemma ViewUnfiltered(violations: seq<Violation>)
    ensures View(violations, ALL_PLATFORMS, "", "") == SortByRecency(violations)
    ensures multiset(View(violations, ALL_PLATFORMS, "", "")) == multiset(violations)
  {
    forall v | v in violations
      ensures Matches(v, ALL_PLATFORMS, "", "")
    {
      AllFiltersOpen(v);
    }
    FilterKeepsMatching(violations, ALL_PLATFORMS, "", "");
  }

  /** Filtering and sorting the shown list again with the same inputs shows the same list. */
  lemma ViewIdempotent(violations: seq<Violation>, filterPlatform: string, filterUser: string, searchTerm: string)
    ensures View(View(violations, filterPlatform, filterUser, searchTerm), filterPlatform, filterUser, searchTerm)
         == View(violations, filterPlatform, filterUser, searchTerm)
  {
    var shown := View(violations, filterPlatform, filterUser, searchTerm);
    ViewSpec(violations, filterPlatform, filterUser, searchTerm);
    FilterKeepsMatching(shown, filterPlatform, filterUser, searchTerm);
    SortFixesDescending(shown);
  }

  /** The user and search filters ignore letter case. */
  lemma ViewIgnoresCase(violations: seq<Violation>, filterPlatform: string, u1: string, u2: string, s1: string, s2: string)
    requires Text.SameUpToCase(u1, u2) && Text.SameUpToCase(s1, s2)
    ensures View(violations, filterPlatform, u1, s1) == View(violations, filterPlatform, u2, s2)
  {
    FilterIgnoresCase(violations, filterPlatform, u1, u2, s1, s2);
  }

  /** Typing the user or search filter in capitals shows the same list. */
  lemma ViewUpperCaseFilters(violations: seq<Violation>, filterPlatform: string, filterUser: string, searchTerm: string)
    ensures View(violations, filterPlatform, Text.ToUpper(filterUser), Text.ToUpper(searchTerm))
         == View(violations, filterPlatform, filterUser, searchTerm)
  {
    Text.UpperSameUpToCase(filterUser);
    Text.UpperSameUpToCase(searchTerm);
    ViewIgnoresCase(violations, filterPlatform, Text.ToUpper(filterUser), filterUser, Text.ToUpper(searchTerm), searchTerm);
  }

  /** A campaign id `CMP-…` contains `cmp-` once lower-cased. */
  lemma CampaignPrefixFound(campaignId: string)
    requires "CMP-" <= campaignId
    ensures Text.Contains(Text.ToLower(campaignId), Text.ToLower("CMP-"))
  {
    var term := Text.ToLower("CMP-");
    assert term == "cmp-";
    var lowered := Text.ToLower(campaignId);
    assert lowered[..4] == term;
    Text.ContainsPrefix(lowered, term);
  }

  /** The campaign id is the fifth value the search looks at. */
  lemma CampaignIdSearched(v: Violation)
    ensures |FieldValues(v)| == 10 && FieldValues(v)[4] == v.campaignId
  {
  }

  /** A record whose campaign id starts with `CMP-` is found by the search `CMP-`. */
  lemma CampaignSearchFound(v: Violation)
    requires "CMP-" <= v.campaignId
    ensures MatchesSearch(v, "CMP-")
  {
    CampaignPrefixFound(v.campaignId);
    CampaignIdSearched(v);
    AnyContainsAt(FieldValues(v), Text.ToLower("CMP-"), 4);
  }

  /** Every simulated violation is shown under its own platform, its own user id and the search `CMP-`. */
  lemma SimulatedIsFound(now: int, userId: string, ruleNumber: nat, digits: string, platformChoice: nat, fieldChoice: nat)
    requires ruleNumber < 100 && |digits| <= 6 && IsBase36Digits(digits)
    requires platformChoice < 3 && fieldChoice < 3
    ensures var v := SimulatedViolation(now, userId, ruleNumber, digits, platformChoice, fieldChoice);
      Matches(v, v.platform, userId, "CMP-")
  {
    var v := SimulatedViolation(now, userId, ruleNumber, digits, platformChoice, fieldChoice);
    SimulatedShape(now, userId, ruleNumber, digits, platformChoice, fieldChoice);
    Text.ContainsPrefix(Text.ToLower(userId), Text.ToLower(userId));
    assert MatchesUser(v, userId);
    CampaignSearchFound(v);
  }

  /** Of a passing and a failing violation, the view keeps just the passing one. */
  lemma ViewOfPair(v: Violation, other: Violation, filterPlatform: string, filterUser: string, searchTerm: string)
    requires Matches(v, filterPlatform, filterUser, searchTerm)
    requires !Matches(other, filterPlatform, filterUser, searchTerm)
    ensures View([v, other], filterPlatform, filterUser, searchTerm) == [v]
  {
    assert [v, other][1..] == [other];
    assert [other][1..] == [];
    assert Filter([v, other], filterPlatform, filterUser, searchTerm) == [v];
  }

  /**
   * Two violations, one on Google Ads with a campaign id and one on another
   * platform: filtering on Google Ads and `CMP-` shows exactly the first.
   */
  lemma GoogleAdsExample(now: int, userId: string, ruleNumber: nat, digits: string, fieldChoice: nat, other: Violation)
    requires ruleNumber < 100 && |digits| <= 6 && IsBase36Digits(digits) && fieldChoice < 3
    requires other.platform != "Google Ads"
    ensures var v := SimulatedViolation(now, userId, ruleNumber, digits, 1, fieldChoice);
      View([v, other], "Google Ads", "", "CMP-") == [v]
  {
    var v := SimulatedViolation(now, userId, ruleNumber, digits, 1, fieldChoice);
    SimulatedShape(now, userId, ruleNumber, digits, 1, fieldChoice);
    assert v.platform == "Google Ads";
    CampaignSearchFound(v);
    assert !MatchesPlatform(other, "Google Ads");
    ViewOfPair(v, other, "Google Ads", "", "CMP-");
  }

  /** With every filter open, each document of the collection is shown once its snapshot arrives. */
  lemma StoredIsShown(snapshot: seq<(string, Violation)>, store: map<string, Violation>, id: string)
    requires Remote.IsSnapshotOf(snapshot, store) && id in store
    ensures store[id].(id := id) in View(Mirror(snapshot), ALL_PLATFORMS, "", "")
  {
    MirrorListsStored(snapshot, store, id);
    ViewUnfiltered(Mirror(snapshot));
    assert store[id].(id := id) in multiset(View(Mirror(snapshot), ALL_PLATFORMS, "", ""));
  }
}
