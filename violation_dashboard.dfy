/**
 * The `ViolationTracking` component: the mirrored violation list, the three
 * filter inputs, the status message and the remote violations collection
 * (an in-memory map from document id to record).
 */
module ViolationDashboard {
  import opened Wrappers
  import Paths
  import Remote
  import opened Violations
  import Recency
  import ViolationView

  class ViolationTracking {
    const dbReady: bool
    const userId: Option<string>
    const appId: string
    var violations: seq<Violation>
    var filterPlatform: string
    var filterUser: string
    var searchTerm: string
    var message: string
    var store: map<string, Violation>

    /** First render: nothing mirrored yet, every filter open. */
    constructor (dbReady: bool, userId: Option<string>, injectedAppId: Option<string>, store: map<string, Violation>)
      ensures this.dbReady == dbReady && this.userId == userId
      ensures this.appId == Paths.ResolveAppId(injectedAppId)
      ensures violations == [] && message == "" && this.store == store
      ensures filterPlatform == ALL_PLATFORMS && filterUser == "" && searchTerm == ""
    {
      this.dbReady := dbReady;
      this.userId := userId;
      this.appId := Paths.ResolveAppId(injectedAppId);
      violations := [];
      filterPlatform := ALL_PLATFORMS;
      filterUser := "";
      searchTerm := "";
      message := "";
      this.store := store;
    }

    /** `getViolationsCollectionRef`. */
    function CollectionPath(): (r: Option<string>)
      ensures r.Some? <==> dbReady && Paths.Present(userId)
      ensures r.Some? ==> r.value == Paths.PathOf(Paths.CollectionKey(appId, userId.value, Paths.Violations))
    {
      Paths.CollectionPath(dbReady, appId, userId, Paths.Violations)
    }

    /** `filteredViolations`, computed from the current state at every render. */
    function Shown(): (r: seq<Violation>)
      reads this
      ensures forall v :: v in r <==> v in violations && Matches(v, filterPlatform, filterUser, searchTerm)
      ensures Recency.Descending(r)
    {
      ViolationView.ViewSpec(violations, filterPlatform, filterUser, searchTerm);
      ViolationView.View(violations, filterPlatform, filterUser, searchTerm)
    }

    method SetFilterPlatform(value: string)
      modifies this`filterPlatform
      ensures filterPlatform == value
    {
      filterPlatform := value;
    }

    method SetFilterUser(value: string)
      modifies this`filterUser
      ensures filterUser == value
    {
      filterUser := value;
    }

    method SetSearchTerm(value: string)
      modifies this`searchTerm
      ensures searchTerm == value
    {
      searchTerm := value;
    }

    /** The snapshot listener replaces the local list wholesale with the collection's documents. */
    method OnSnapshot(snapshot: seq<(string, Violation)>)
      requires Remote.IsSnapshotOf(snapshot, store)
      modifies this`violations
      ensures violations == Mirror(snapshot)
    {
      violations := Mirror(snapshot);
    }

    /** The snapshot listener's error callback. */
    method OnSnapshotError()
      modifies this`message
      ensures message == "Error fetching violations."
    {
      message := "Error fetching violations.";
    }

    /**
     * `handleAddSimulatedViolation`: the random choices, the clock, the id the
     * store assigns and the write's outcome are parameters.
     */
    method AddSimulatedViolation(now: int, ruleNumber: nat, digits: string, platformChoice: nat, fieldChoice: nat,
                                 freshId: string, outcome: Remote.WriteOutcome)
      requires ruleNumber < 100 && |digits| <= 6 && IsBase36Digits(digits)
      requires platformChoice < 3 && fieldChoice < 3
      requires freshId !in store
      modifies this`store, this`message
      ensures !(dbReady && Paths.Present(userId)) ==>
        store == old(store) && message == Remote.NOT_READY_MESSAGE
      ensures dbReady && Paths.Present(userId) && outcome.Written? ==>
        && store == old(store)[freshId := SimulatedViolation(now, userId.value, ruleNumber, digits, platformChoice, fieldChoice)]
        && message == "Simulated violation added!"
      ensures dbReady && Paths.Present(userId) && outcome.Rejected? ==>
        store == old(store) && message == Remote.ErrorMessage(outcome.reason)
    {
      if !dbReady || !Paths.Present(userId) {
        message := Remote.NOT_READY_MESSAGE;
        return;
      }
      var record := SimulatedViolation(now, userId.value, ruleNumber, digits, platformChoice, fieldChoice);
      match outcome
      case Written =>
        store := store[freshId := record];
        message := "Simulated violation added!";
      case Rejected(reason) =>
        message := Remote.ErrorMessage(reason);
    }
  }

  /**
   * Starting from an empty collection, a settled simulated write and the next
   * snapshot show exactly that violation, under the id the store assigned,
   * while every filter is open.
   */
  method ShowSimulatedViolation(user: string, now: int, ruleNumber: nat, digits: string,
                                platformChoice: nat, fieldChoice: nat, freshId: string)
    returns (shown: seq<Violation>)
    requires user != ""
    requires ruleNumber < 100 && |digits| <= 6 && IsBase36Digits(digits)
    requires platformChoice < 3 && fieldChoice < 3
    ensures shown == [SimulatedViolation(now, user, ruleNumber, digits, platformChoice, fieldChoice).(id := freshId)]
  {
    var record := SimulatedViolation(now, user, ruleNumber, digits, platformChoice, fieldChoice);
    var snapshot := [(freshId, record)];
    SingleSnapshot(freshId, record);
    ShownSingle(record.(id := freshId));
    var page := SimulatedWrite(user, now, ruleNumber, digits, platformChoice, fieldChoice, freshId);
    page.OnSnapshot(snapshot);
    shown := page.Shown();
  }

  /** A dashboard on an empty collection, after a settled simulated write. */
  method SimulatedWrite(user: string, now: int, ruleNumber: nat, digits: string,
                        platformChoice: nat, fieldChoice: nat, freshId: string)
    returns (page: ViolationTracking)
    requires user != ""
    requires ruleNumber < 100 && |digits| <= 6 && IsBase36Digits(digits)
    requires platformChoice < 3 && fieldChoice < 3
    ensures fresh(page)
    ensures page.store == map[freshId := SimulatedViolation(now, user, ruleNumber, digits, platformChoice, fieldChoice)]
    ensures page.filterPlatform == ALL_PLATFORMS && page.filterUser == "" && page.searchTerm == ""
  {
    page := new ViolationTracking(true, Some(user), None, map[]);
    page.AddSimulatedViolation(now, ruleNumber, digits, platformChoice, fieldChoice, freshId, Remote.Written);
  }

  /** A one-document collection's snapshot is that document. */
  lemma SingleSnapshot(id: string, record: Violation)
    ensures Remote.IsSnapshotOf([(id, record)], map[id := record])
    ensures Mirror([(id, record)]) == [record.(id := id)]
  {
    assert [(id, record)][1..] == [];
    forall k | k in map[id := record]
      ensures exists i :: 0 <= i < 1 && [(id, record)][i].0 == k
    {
      assert [(id, record)][0].0 == k;
    }
  }

  /** With every filter open, a one-record list is shown as it is. */
  lemma ShownSingle(v: Violation)
    ensures ViolationView.View([v], ALL_PLATFORMS, "", "") == [v]
  {
    ViolationView.ViewUnfiltered([v]);
    Recency.SortSingle(v);
  }
}
