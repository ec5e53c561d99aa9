/**
 * Runs of the rule editor from first render, driven through its handlers:
 * creating a naming rule, asking for suggestions, and editing a saved rule.
 */
module RuleScenarios {
  import opened Wrappers
  import Remote
  import opened Documents
  import opened RuleEditor

  /** The draft of the naming rule `ABC_####`, as the form leaves it. */
  const NAMING_DRAFT: Doc :=
    DEFAULT_DRAFT["name" := Str("ABC_####")]["condition" := Str("^[A-Z]{3}_[0-9]{4}$")]["message" := Str("bad name")]

  /** A connected editor with the naming rule typed into a new-rule form. */
  method TypeNamingRule(user: string) returns (page: RuleManagement)
    requires user != ""
    ensures fresh(page) && page.Valid() && page.Connected() && page.userId == Some(user)
    ensures page.store == map[] && page.editingRule == None && page.newRule == NAMING_DRAFT
  {
    page := new RuleManagement(true, Some(user), None, map[]);
    page.CreateNewRule();
    page.HandleChange(InputEvent("name", "text", "ABC_####", false));
    page.HandleChange(InputEvent("condition", "text", "^[A-Z]{3}_[0-9]{4}$", false));
    page.HandleChange(InputEvent("message", "textarea", "bad name", false));
  }

  /** The naming rule as the list shows it once stored under `id`. */
  lemma NamingRuleFields(id: string, stamp: string, user: string)
    ensures var rule := MirrorEntry(id, CreateRecord(NAMING_DRAFT, stamp, user));
      && rule.Keys == FORM_FIELDS + AUDIT_FIELDS + {"id"}
      && FieldIs(rule, "id", Str(id))
      && FieldIs(rule, "name", Str("ABC_####")) && FieldIs(rule, "type", Str("Naming Convention"))
      && FieldIs(rule, "platform", Str("Facebook Ads")) && FieldIs(rule, "isActive", Bool(true))
      && FieldIs(rule, "condition", Str("^[A-Z]{3}_[0-9]{4}$")) && FieldIs(rule, "message", Str("bad name"))
      && FieldIs(rule, "createdAt", Str(stamp)) && FieldIs(rule, "createdBy", Str(user))
  {
  }

  /**
   * Creating the naming rule from the form: after the write and the next
   * snapshot, the list holds exactly that rule, with the id the store
   * assigned and the audit fields.
   */
  method CreateNamingRule(user: string, freshId: string, stamp: string) returns (rules: seq<Doc>)
    requires user != ""
    ensures rules == [MirrorEntry(freshId, CreateRecord(NAMING_DRAFT, stamp, user))]
  {
    var page := TypeNamingRule(user);
    page.HandleSubmit(stamp, freshId, Remote.Written);
    var record := CreateRecord(NAMING_DRAFT, stamp, user);
    assert page.store == map[freshId := record];
    var snapshot := [(freshId, record)];
    assert snapshot[0].0 == freshId;
    page.OnSnapshot(snapshot);
    rules := page.rules;
  }

  const NAME_BUDGET := InputEvent("name", "text", "Budget Cap", false)
  const TYPE_BUDGET := InputEvent("type", "select-one", "Budget Limit", false)

  /** The default draft with the budget rule's name and type chosen. */
  function BudgetDraft(): Doc
  {
    ApplyChange(ApplyChange(DEFAULT_DRAFT, NAME_BUDGET), TYPE_BUDGET)
  }

  /** A connected editor with the budget rule's name and type chosen in a new-rule form. */
  method TypeBudgetRule(user: string) returns (page: RuleManagement)
    ensures fresh(page) && page.Valid() && page.userId == Some(user)
    ensures page.editingRule == None && page.newRule == BudgetDraft()
  {
    page := new RuleManagement(true, Some(user), None, map[]);
    page.CreateNewRule();
    page.HandleChange(NAME_BUDGET);
    page.HandleChange(TYPE_BUDGET);
  }

  /** The budget draft after the suggestion, as the fields it carries. */
  lemma SuggestedBudgetFields()
    ensures var draft := MergeSuggestion(BudgetDraft(), "100-1000", "Budget must be 100-1000");
      && FieldIs(draft, "condition", Str("100-1000")) && FieldIs(draft, "message", Str("Budget must be 100-1000"))
      && FieldIs(draft, "name", Str("Budget Cap")) && FieldIs(draft, "type", Str("Budget Limit"))
      && FieldIs(draft, "platform", Str("Facebook Ads")) && FieldIs(draft, "isActive", Bool(true))
  {
  }

  /**
   * With the default draft's empty name no request goes out, the prompt for a
   * name and type is shown, and the draft stays as it is.
   */
  method SuggestWithoutName(user: string) returns (requested: bool, draft: Doc, message: string)
    ensures !requested && draft == DEFAULT_DRAFT && message == NEEDS_NAME_AND_TYPE
  {
    var page := new RuleManagement(true, Some(user), None, map[]);
    page.CreateNewRule();
    requested := page.SuggestRuleDetails();
    draft := page.newRule;
    message := page.message;
  }

  /**
   * Once named and typed, the budget rule's suggestion comes back and is
   * merged into the draft.
   */
  method SuggestForBudgetRule(user: string) returns (requested: bool, draft: Doc)
    ensures requested
    ensures draft == MergeSuggestion(BudgetDraft(), "100-1000", "Budget must be 100-1000")
  {
    var page := TypeBudgetRule(user);
    requested := page.SuggestRuleDetails();
    page.CompleteSuggestion(Suggested("100-1000", "Budget must be 100-1000"));
    draft := page.newRule;
  }

  /** The rule stored under `id` by a create with the default draft. */
  function SavedDefault(created: string, user: string): Doc
  {
    CreateRecord(DEFAULT_DRAFT, created, user)
  }

  const RENAME := InputEvent("name", "text", "XYZ_0001", false)

  /** A connected editor showing the one stored rule, opened for editing. */
  method OpenSavedRule(user: string, id: string, created: string) returns (page: RuleManagement)
    requires user != ""
    ensures fresh(page) && page.Valid() && page.Connected()
    ensures page.store == map[id := SavedDefault(created, user)]
    ensures page.editingRule == Some(MirrorEntry(id, SavedDefault(created, user)))
    ensures page.newRule == MirrorEntry(id, SavedDefault(created, user))
  {
    var record := SavedDefault(created, user);
    page := new RuleManagement(true, Some(user), None, map[id := record]);
    var snapshot := [(id, record)];
    assert snapshot[0].0 == id;
    page.OnSnapshot(snapshot);
    page.HandleEdit(page.rules[0]);
  }

  /** The saved rule after the rename, as the fields it carries. */
  lemma RenamedFields(id: string, created: string, user: string, saved: string)
    ensures var doc := ApplyUpdate(SavedDefault(created, user),
                                   UpdatePatch(ApplyChange(MirrorEntry(id, SavedDefault(created, user)), RENAME), saved));
      && FieldIs(doc, "name", Str("XYZ_0001")) && FieldIs(doc, "id", Str(id))
      && FieldIs(doc, "createdAt", Str(created)) && FieldIs(doc, "createdBy", Str(user))
      && FieldIs(doc, "lastModifiedAt", Str(saved))
  {
  }

  /**
   * Opening a saved rule, renaming it and saving it: the stored document is
   * the stored one with the renamed draft and `lastModifiedAt` merged in.
   */
  method RenameSavedRule(user: string, id: string, created: string, saved: string) returns (stored: Doc)
    requires user != ""
    ensures stored == ApplyUpdate(SavedDefault(created, user),
                                  UpdatePatch(ApplyChange(MirrorEntry(id, SavedDefault(created, user)), RENAME), saved))
    ensures AuditAgrees(stored, SavedDefault(created, user))
  {
    var page := OpenSavedRule(user, id, created);
    page.HandleChange(RENAME);
    page.HandleSubmit(saved, id, Remote.Written);
    stored := page.store[id];
  }
}
