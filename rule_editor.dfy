/**
 * The `RuleManagement` component: the mirrored rule list, the form draft, the
 * rule being edited, the modal and loading flags, the status message, and the
 * remote rules collection (an in-memory map from document id to document).
 * The clock (as the ISO text it is written in), the id the store assigns, the answer to the delete confirmation,
 * the outcome of each write and the reply of the language model are
 * parameters of the handlers.
 */
module RuleEditor {
  import opened Wrappers
  import Paths
  import Remote
  import opened Documents

  /** What the suggestion request comes back with. */
  datatype SuggestionReply =
    | Suggested(condition: string, message: string)  // a candidate's JSON text, `''` for a missing key
    | Unexpected                                      // no candidate, content or part in the reply
    | Failed(error: string)                           // the request, the reply or `JSON.parse` threw

  const ADDED_MESSAGE := "Rule added successfully!"
  const UPDATED_MESSAGE := "Rule updated successfully!"
  const DELETED_MESSAGE := "Rule deleted successfully!"
  const NEEDS_NAME_AND_TYPE := "Please provide a Rule Name and Type to get suggestions."
  const SUGGESTIONS_APPLIED := "Suggestions applied!"
  const NO_SUGGESTIONS := "Could not get suggestions from LLM. Please try again."

  function SuggestionError(error: string): string
  {
    "Error generating suggestions: " + error
  }

  /** The guard of `handleSuggestRuleDetails`: the draft has a truthy name and type. */
  predicate CanSuggest(draft: Doc)
  {
    Truthy(draft, "name") && Truthy(draft, "type")
  }

  class RuleManagement {
    const dbReady: bool
    const userId: Option<string>
    const appId: string
    var rules: seq<Doc>
    var newRule: Doc
    var editingRule: Option<Doc>
    var isModalOpen: bool
    var message: string
    var llmLoading: bool
    var store: map<string, Doc>

    /**
     * Every mirrored rule carries its string id. While a rule is being edited,
     * the draft holds that rule's id and its audit fields; otherwise the draft
     * has no id. Every stored `id` field names its own document.
     */
    ghost predicate Valid()
      reads this
    {
      && (forall i :: 0 <= i < |rules| ==> HasId(rules[i]))
      && (match editingRule
          case Some(rule) =>
            && HasId(rule) && "id" in newRule && newRule["id"] == rule["id"]
            && AuditAgrees(newRule, rule)
          case None => "id" !in newRule)
      && IdsConsistent(store)
    }

    /** First render: no rules mirrored yet, the default draft, nothing being edited. */
    constructor (dbReady: bool, userId: Option<string>, injectedAppId: Option<string>, store: map<string, Doc>)
      requires IdsConsistent(store)
      ensures Valid()
      ensures this.dbReady == dbReady && this.userId == userId
      ensures this.appId == Paths.ResolveAppId(injectedAppId)
      ensures rules == [] && newRule == DEFAULT_DRAFT && editingRule == None
      ensures !isModalOpen && message == "" && !llmLoading && this.store == store
    {
      this.dbReady := dbReady;
      this.userId := userId;
      this.appId := Paths.ResolveAppId(injectedAppId);
      rules := [];
      newRule := DEFAULT_DRAFT;
      editingRule := None;
      isModalOpen := false;
      message := "";
      llmLoading := false;
      this.store := store;
    }

    /** The database handle and a signed-in user are both available. */
    predicate Connected()
    {
      dbReady && Paths.Present(userId)
    }

    /** `getRulesCollectionRef`. */
    function CollectionPath(): (r: Option<string>)
      ensures r.Some? <==> Connected()
      ensures r.Some? ==> r.value == Paths.PathOf(Paths.CollectionKey(appId, userId.value, Paths.Rules))
    {
      Paths.CollectionPath(dbReady, appId, userId, Paths.Rules)
    }

    /** The document id of the rule being edited. */
    function EditTarget(): string
      reads this
      requires editingRule.Some? && HasId(editingRule.value)
    {
      editingRule.value["id"].s
    }

    /** The snapshot listener: the list becomes the mirrored snapshot of the collection. */
    method OnSnapshot(snapshot: seq<(string, Doc)>)
      requires Valid() && Remote.IsSnapshotOf(snapshot, store)
      modifies this`rules
      ensures Valid()
      ensures rules == Mirror(snapshot)
      ensures forall k :: k in store <==> exists i :: 0 <= i < |rules| && rules[i]["id"] == Str(k)
    {
      SnapshotOfConsistentStore(snapshot, store);
      MirrorCarriesIds(snapshot);
      MirrorMatchesStore(snapshot, store);
      rules := Mirror(snapshot);
    }

    /** The snapshot listener's error callback. */
    method OnSnapshotError()
      requires Valid()
      modifies this`message
      ensures Valid()
      ensures message == "Error fetching rules."
    {
      message := "Error fetching rules.";
    }

    /** `handleChange`: the named form field takes the input's value, or its checked state. */
    method HandleChange(ev: InputEvent)
      requires Valid() && ev.name in FORM_FIELDS
      modifies this`newRule
      ensures Valid()
      ensures newRule == ApplyChange(old(newRule), ev)
      ensures forall k :: k != ev.name ==> SameField(newRule, old(newRule), k)
    {
      newRule := ApplyChange(newRule, ev);
    }

    /** `handleEdit`: the draft becomes a copy of the chosen rule and the modal opens. */
    method HandleEdit(rule: Doc)
      requires Valid() && rule in rules
      modifies this`editingRule, this`newRule, this`isModalOpen
      ensures Valid()
      ensures editingRule == Some(rule) && newRule == rule && isModalOpen
    {
      editingRule := Some(rule);
      newRule := rule;
      isModalOpen := true;
    }

    /** The "Create New Rule" button: nothing being edited, the default draft, the modal open. */
    method CreateNewRule()
      requires Valid()
      modifies this`editingRule, this`newRule, this`isModalOpen
      ensures Valid()
      ensures editingRule == None && newRule == DEFAULT_DRAFT && isModalOpen
    {
      editingRule := None;
      newRule := DEFAULT_DRAFT;
      isModalOpen := true;
    }

    /** The modal's close control and its Cancel button: only the modal closes. */
    method CloseModal()
      requires Valid()
      modifies this`isModalOpen
      ensures Valid()
      ensures !isModalOpen
    {
      isModalOpen := false;
    }

    /**
     * `handleSubmit`. Editing, the draft and a fresh `lastModifiedAt` are merged
     * into the edited document; otherwise the draft with `createdAt` and
     * `createdBy` is added under the id the store assigns. A settled write
     * resets the form and closes the modal; a rejected one only reports.
     * `stamp` is `new Date().toISOString()`, the submission time as ISO text.
     */
    method HandleSubmit(stamp: string, freshId: string, outcome: Remote.WriteOutcome)
      requires Valid()
      requires editingRule.None? ==> freshId !in store
      requires outcome.Written? && editingRule.Some? ==> EditTarget() in store
      modifies this`store, this`message, this`editingRule, this`newRule, this`isModalOpen
      ensures Valid()
      ensures !Connected() ==>
        && message == Remote.NOT_READY_MESSAGE
        && store == old(store) && editingRule == old(editingRule) && newRule == old(newRule) && isModalOpen == old(isModalOpen)
      ensures Connected() && outcome.Rejected? ==>
        && message == Remote.ErrorMessage(outcome.reason)
        && store == old(store) && editingRule == old(editingRule) && newRule == old(newRule) && isModalOpen == old(isModalOpen)
      ensures Connected() && outcome.Written? ==>
        && newRule == DEFAULT_DRAFT && editingRule == None && !isModalOpen
        && (old(editingRule).Some? ==>
              && message == UPDATED_MESSAGE
              && old(EditTarget()) in old(store)
              && store == old(store)[old(EditTarget()) :=
                   ApplyUpdate(old(store)[old(EditTarget())], UpdatePatch(old(newRule), stamp))])
        && (old(editingRule).Some? ==>
              var target := old(EditTarget());
              && "id" in store[target] && store[target]["id"] == Str(target)
              && "lastModifiedAt" in store[target] && store[target]["lastModifiedAt"] == Str(stamp)
              && (AuditAgrees(old(editingRule).value, old(store)[target]) ==> AuditAgrees(store[target], old(store)[target])))
        && (old(editingRule).None? ==>
              && message == ADDED_MESSAGE
              && store == old(store)[freshId := CreateRecord(old(newRule), stamp, userId.value)])
    {
      if !Connected() {
        message := Remote.NOT_READY_MESSAGE;
        return;
      }
      if outcome.Rejected? {
        message := Remote.ErrorMessage(outcome.reason);
        return;
      }
      if editingRule.Some? {
        SaveEditedRule(stamp);
      } else {
        AddNewRule(stamp, freshId);
      }
    }

    /** The settled update branch of `handleSubmit`. */
    method SaveEditedRule(stamp: string)
      requires Valid() && editingRule.Some? && EditTarget() in store
      modifies this`store, this`message, this`editingRule, this`newRule, this`isModalOpen
      ensures Valid()
      ensures newRule == DEFAULT_DRAFT && editingRule == None && !isModalOpen && message == UPDATED_MESSAGE
      ensures var target := old(EditTarget());
        && store == old(store)[target := ApplyUpdate(old(store)[target], UpdatePatch(old(newRule), stamp))]
        && "id" in store[target] && store[target]["id"] == Str(target)
        && "lastModifiedAt" in store[target] && store[target]["lastModifiedAt"] == Str(stamp)
        && (AuditAgrees(old(editingRule).value, old(store)[target]) ==> AuditAgrees(store[target], old(store)[target]))
    {
      var target := EditTarget();
      UpdateKeepsIds(store, target, newRule, stamp);
      SaveEdit(store[target], editingRule.value, newRule, stamp, target);
      store := store[target := ApplyUpdate(store[target], UpdatePatch(newRule, stamp))];
      message := UPDATED_MESSAGE;
      editingRule := None;
      newRule := DEFAULT_DRAFT;
      isModalOpen := false;
    }

    /** The settled create branch of `handleSubmit`. */
    method AddNewRule(stamp: string, freshId: string)
      requires Valid() && editingRule.None? && Paths.Present(userId)
      modifies this`store, this`message, this`newRule, this`isModalOpen
      ensures Valid()
      ensures newRule == DEFAULT_DRAFT && editingRule == None && !isModalOpen && message == ADDED_MESSAGE
      ensures store == old(store)[freshId := CreateRecord(old(newRule), stamp, userId.value)]
    {
      CreateKeepsIds(store, freshId, newRule, stamp, userId.value);
      store := store[freshId := CreateRecord(newRule, stamp, userId.value)];
      message := ADDED_MESSAGE;
      newRule := DEFAULT_DRAFT;
      isModalOpen := false;
    }

    /**
     * `handleDelete`: silent when not connected or when the confirmation is
     * declined; otherwise the document is removed (removing a missing one
     * settles too) or the rejection is reported.
     */
    method HandleDelete(id: string, confirmed: bool, outcome: Remote.WriteOutcome)
      requires Valid()
      modifies this`store, this`message
      ensures Valid()
      ensures !Connected() || !confirmed ==> store == old(store) && message == old(message)
      ensures Connected() && confirmed && outcome.Written? ==> store == old(store) - {id} && message == DELETED_MESSAGE
      ensures Connected() && confirmed && outcome.Rejected? ==>
        store == old(store) && message == Remote.ErrorMessage(outcome.reason)
    {
      if !Connected() || !confirmed {
        return;
      }
      match outcome
      case Written =>
        store := store - {id};
        message := DELETED_MESSAGE;
      case Rejected(reason) =>
        message := Remote.ErrorMessage(reason);
    }

    /**
     * The synchronous start of `handleSuggestRuleDetails`: without a name and a
     * type only the prompt message is shown; otherwise loading starts, the
     * message clears and `requested` says a request goes out.
     */
    method SuggestRuleDetails() returns (requested: bool)
      requires Valid()
      modifies this`llmLoading, this`message
      ensures Valid()
      ensures requested <==> CanSuggest(newRule)
      ensures !requested ==> message == NEEDS_NAME_AND_TYPE && llmLoading == old(llmLoading)
      ensures requested ==> message == "" && llmLoading
    {
      if !Truthy(newRule, "name") || !Truthy(newRule, "type") {
        message := NEEDS_NAME_AND_TYPE;
        return false;
      }
      llmLoading := true;
      message := "";
      return true;
    }

    /**
     * The asynchronous end of `handleSuggestRuleDetails`: a suggestion is merged
     * into the draft as it is now, keeping each field whose suggestion is
     * empty; loading always ends.
     */
    method CompleteSuggestion(reply: SuggestionReply)
      requires Valid()
      modifies this`newRule, this`message, this`llmLoading
      ensures Valid()
      ensures !llmLoading
      ensures reply.Suggested? ==>
        newRule == MergeSuggestion(old(newRule), reply.condition, reply.message) && message == SUGGESTIONS_APPLIED
      ensures reply.Unexpected? ==> newRule == old(newRule) && message == NO_SUGGESTIONS
      ensures reply.Failed? ==> newRule == old(newRule) && message == SuggestionError(reply.error)
    {
      llmLoading := false;
      match reply
      case Suggested(condition, suggestedMessage) =>
        newRule := MergeSuggestion(newRule, condition, suggestedMessage);
        message := SUGGESTIONS_APPLIED;
      case Unexpected =>
        message := NO_SUGGESTIONS;
      case Failed(error) =>
        message := SuggestionError(error);
    }
  }
}
