/**
 * Rule documents as the console handles them: JavaScript objects whose fields
 * hold strings or booleans. A field that is not in the map is `undefined`.
 * The functions here are the object-spread expressions of the rule handlers.
 */
module Documents {
  import Remote

  datatype Value = Str(s: string) | Bool(b: bool)

  type Doc = map<string, Value>

  /** The fields the rule form edits (its inputs' `name` attributes). */
  const FORM_FIELDS: set<string> := {"name", "type", "platform", "condition", "message", "isActive"}

  /** The audit fields set by the editor and never edited in the form. */
  const AUDIT_FIELDS: set<string> := {"createdAt", "createdBy"}

  /** The draft the form starts from and returns to after a submission. */
  const DEFAULT_DRAFT: Doc := map[
    "name" := Str(""),
    "type" := Str("Naming Convention"),
    "platform" := Str("Facebook Ads"),
    "condition" := Str(""),
    "message" := Str(""),
    "isActive" := Bool(true)]

  /** JavaScript truthiness of `doc[key]`: `undefined`, `''` and `false` are falsy. */
  predicate Truthy(doc: Doc, key: string)
  {
    key in doc && match doc[key]
      case Str(s) => s != ""
      case Bool(b) => b
  }

  /** `doc[key]` is `v`. */
  predicate FieldIs(doc: Doc, key: string, v: Value)
  {
    key in doc && doc[key] == v
  }

  /** `a[key]` and `b[key]` are the same value, or both `undefined`. */
  predicate SameField(a: Doc, b: Doc, key: string)
  {
    (key in a <==> key in b) && (key in a ==> a[key] == b[key])
  }

  /** `a` and `b` agree on `createdAt` and `createdBy`. */
  predicate AuditAgrees(a: Doc, b: Doc)
  {
    SameField(a, b, "createdAt") && SameField(a, b, "createdBy")
  }

  /** The document carries a string `id` field, as every mirrored rule does. */
  predicate HasId(doc: Doc)
  {
    "id" in doc && doc["id"].Str?
  }

  /** The form's change event: the input's `name`, `type`, `value` and `checked`. */
  datatype InputEvent = InputEvent(name: string, inputType: string, value: string, checked: bool)

  /**
   * `handleChange`: `{...prev, [name]: type === 'checkbox' ? checked : value}`.
   * Only the named field changes.
   */
  function ApplyChange(draft: Doc, ev: InputEvent): (r: Doc)
    ensures ev.name in r
    ensures ev.inputType == "checkbox" ==> r[ev.name] == Bool(ev.checked)
    ensures ev.inputType != "checkbox" ==> r[ev.name] == Str(ev.value)
    ensures forall k :: k != ev.name ==> SameField(r, draft, k)
  {
    draft[ev.name := if ev.inputType == "checkbox" then Bool(ev.checked) else Str(ev.value)]
  }

  /** The fields a run of form edits names. */
  function Names(evs: seq<InputEvent>): (r: set<string>)
    ensures forall i :: 0 <= i < |evs| ==> evs[i].name in r
  {
    if evs == [] then {} else {evs[0].name} + Names(evs[1..])
  }

  /** A run of form edits, oldest first: fields no edit names are unchanged. */
  function ApplyChanges(draft: Doc, evs: seq<InputEvent>): (r: Doc)
    ensures forall k :: k !in Names(evs) ==> SameField(r, draft, k)
    decreases |evs|
  {
    if evs == [] then draft else ApplyChanges(ApplyChange(draft, evs[0]), evs[1..])
  }

  /** The record `addDoc` receives: `{...newRule, createdAt: stamp, createdBy: userId}`, `stamp` being the ISO text of the submission time. */
  function CreateRecord(draft: Doc, stamp: string, userId: string): (r: Doc)
    ensures r.Keys == draft.Keys + AUDIT_FIELDS
    ensures r["createdAt"] == Str(stamp) && r["createdBy"] == Str(userId)
    ensures forall k :: k !in AUDIT_FIELDS ==> SameField(r, draft, k)
  {
    draft["createdAt" := Str(stamp)]["createdBy" := Str(userId)]
  }

  /** The fields `updateDoc` receives: `{...newRule, lastModifiedAt: stamp}`. */
  function UpdatePatch(draft: Doc, stamp: string): (r: Doc)
    ensures r.Keys == draft.Keys + {"lastModifiedAt"}
    ensures r["lastModifiedAt"] == Str(stamp)
    ensures forall k :: k != "lastModifiedAt" ==> SameField(r, draft, k)
  {
    draft["lastModifiedAt" := Str(stamp)]
  }

  /**
   * `updateDoc` merges the given fields into the stored document: fields it is
   * given are overwritten, the others are kept.
   */
  function ApplyUpdate(stored: Doc, patch: Doc): (r: Doc)
    ensures r.Keys == stored.Keys + patch.Keys
    ensures forall k :: k in patch ==> r[k] == patch[k]
    ensures forall k :: k !in patch ==> SameField(r, stored, k)
  {
    stored + patch
  }

  /**
   * The suggestion merge, `{...prev, condition: parsed.condition || prev.condition,
   * message: parsed.message || prev.message}`. A missing suggestion is the empty string.
   */
  function MergeSuggestion(prev: Doc, condition: string, message: string): (r: Doc)
    ensures condition != "" ==> "condition" in r && r["condition"] == Str(condition)
    ensures condition == "" ==> SameField(r, prev, "condition")
    ensures message != "" ==> "message" in r && r["message"] == Str(message)
    ensures message == "" ==> SameField(r, prev, "message")
    ensures forall k :: k != "condition" && k != "message" ==> SameField(r, prev, k)
  {
    var withCondition := if condition != "" then prev["condition" := Str(condition)] else prev;
    if message != "" then withCondition["message" := Str(message)] else withCondition
  }

  /** The mirrored rule `{id: doc.id, ...doc.data()}`: a stored field named `id` wins. */
  function MirrorEntry(id: string, data: Doc): (r: Doc)
    ensures r.Keys == data.Keys + {"id"}
    ensures "id" !in data ==> r["id"] == Str(id)
    ensures forall k :: k in data ==> r[k] == data[k]
  {
    map["id" := Str(id)] + data
  }

  /** The snapshot listener's list: one mirrored rule per snapshot document, in snapshot order. */
  function Mirror(snapshot: seq<(string, Doc)>): (r: seq<Doc>)
    ensures |r| == |snapshot|
    ensures forall i :: 0 <= i < |r| ==> r[i] == MirrorEntry(snapshot[i].0, snapshot[i].1)
  {
    if snapshot == [] then [] else [MirrorEntry(snapshot[0].0, snapshot[0].1)] + Mirror(snapshot[1..])
  }

  /** Every stored `id` field names its own document. */
  ghost predicate IdsConsistent(store: map<string, Doc>)
  {
    forall k :: k in store && "id" in store[k] ==> store[k]["id"] == Str(k)
  }

  /** Saving a draft that carries the document's own id keeps every stored id consistent. */
  lemma UpdateKeepsIds(store: map<string, Doc>, target: string, draft: Doc, stamp: string)
    requires IdsConsistent(store) && target in store
    requires "id" in draft && draft["id"] == Str(target)
    ensures IdsConsistent(store[target := ApplyUpdate(store[target], UpdatePatch(draft, stamp))])
  {
    var updated := ApplyUpdate(store[target], UpdatePatch(draft, stamp));
    assert updated["id"] == Str(target);
  }

  /** Adding a draft without an id keeps every stored id consistent. */
  lemma CreateKeepsIds(store: map<string, Doc>, freshId: string, draft: Doc, stamp: string, userId: string)
    requires IdsConsistent(store) && "id" !in draft
    ensures IdsConsistent(store[freshId := CreateRecord(draft, stamp, userId)])
  {
    assert "id" !in CreateRecord(draft, stamp, userId);
  }

  /** The stored `id` fields of a snapshot name their documents. */
  ghost predicate SnapshotIdsConsistent(snapshot: seq<(string, Doc)>)
  {
    forall i :: 0 <= i < |snapshot| && "id" in snapshot[i].1 ==> snapshot[i].1["id"] == Str(snapshot[i].0)
  }

  lemma SnapshotOfConsistentStore(snapshot: seq<(string, Doc)>, store: map<string, Doc>)
    requires IdsConsistent(store) && Remote.IsSnapshotOf(snapshot, store)
    ensures SnapshotIdsConsistent(snapshot)
  {
  }

  /** Every rule mirrored from such a snapshot carries its own document id. */
  lemma MirrorCarriesIds(snapshot: seq<(string, Doc)>)
    requires SnapshotIdsConsistent(snapshot)
    ensures forall i :: 0 <= i < |snapshot| ==> HasId(Mirror(snapshot)[i]) && Mirror(snapshot)[i]["id"] == Str(snapshot[i].0)
  {
  }

  /**
   * The mirrored list of a consistent store has one entry per stored rule, and
   * no two entries share an id.
   */
  lemma MirrorMatchesStore(snapshot: seq<(string, Doc)>, store: map<string, Doc>)
    requires IdsConsistent(store) && Remote.IsSnapshotOf(snapshot, store)
    ensures var rules := Mirror(snapshot);
      && (forall k :: k in store <==> exists i :: 0 <= i < |rules| && rules[i]["id"] == Str(k))
      && (forall i, j :: 0 <= i < j < |rules| ==> rules[i]["id"] != rules[j]["id"])
  {
    SnapshotOfConsistentStore(snapshot, store);
    MirrorCarriesIds(snapshot);
    var rules := Mirror(snapshot);
    ListCoversStore(snapshot, store, rules);
    ListWithinStore(snapshot, store, rules);
    ListIdsDistinct(snapshot, store, rules);
  }

  /** A list that carries, position by position, the document ids of a snapshot. */
  ghost predicate CarriesIds(snapshot: seq<(string, Doc)>, rules: seq<Doc>)
  {
    && |rules| == |snapshot|
    && forall i :: 0 <= i < |rules| ==> "id" in rules[i] && rules[i]["id"] == Str(snapshot[i].0)
  }

  lemma ListCoversStore(snapshot: seq<(string, Doc)>, store: map<string, Doc>, rules: seq<Doc>)
    requires Remote.IsSnapshotOf(snapshot, store) && CarriesIds(snapshot, rules)
    ensures forall k :: k in store ==> exists i :: 0 <= i < |rules| && rules[i]["id"] == Str(k)
  {
    forall k | k in store
      ensures exists i :: 0 <= i < |rules| && rules[i]["id"] == Str(k)
    {
      var i :| 0 <= i < |snapshot| && snapshot[i].0 == k;
      assert rules[i]["id"] == Str(k);
    }
  }

  lemma ListWithinStore(snapshot: seq<(string, Doc)>, store: map<string, Doc>, rules: seq<Doc>)
    requires Remote.IsSnapshotOf(snapshot, store) && CarriesIds(snapshot, rules)
    ensures forall k :: (exists i :: 0 <= i < |rules| && rules[i]["id"] == Str(k)) ==> k in store
  {
    forall k | exists i :: 0 <= i < |rules| && rules[i]["id"] == Str(k)
      ensures k in store
    {
      var i :| 0 <= i < |rules| && rules[i]["id"] == Str(k);
      assert snapshot[i].0 == k;
    }
  }

  lemma ListIdsDistinct(snapshot: seq<(string, Doc)>, store: map<string, Doc>, rules: seq<Doc>)
    requires Remote.IsSnapshotOf(snapshot, store) && CarriesIds(snapshot, rules)
    ensures forall i, j :: 0 <= i < j < |rules| ==> rules[i]["id"] != rules[j]["id"]
  {
  }

  /** After a delete, the next snapshot's mirrored list holds no rule with the deleted id. */
  lemma DeletedRuleIsGone(store: map<string, Doc>, id: string, snapshot: seq<(string, Doc)>)
    requires IdsConsistent(store) && Remote.IsSnapshotOf(snapshot, store - {id})
    ensures forall i :: 0 <= i < |snapshot| ==> Mirror(snapshot)[i]["id"] != Str(id)
  {
    MirrorMatchesStore(snapshot, store - {id});
  }

  /**
   * Saving a draft opened from a rule of document `target`: the saved document
   * has the id `target` and the new `lastModifiedAt`, and it keeps the stored
   * audit fields as long as the draft kept the rule's and the rule showed them
   * as stored.
   */
  lemma SaveEdit(stored: Doc, rule: Doc, draft: Doc, stamp: string, target: string)
    requires AuditAgrees(draft, rule)
    requires "id" in draft && draft["id"] == Str(target)
    ensures var saved := ApplyUpdate(stored, UpdatePatch(draft, stamp));
      && "id" in saved && saved["id"] == Str(target)
      && "lastModifiedAt" in saved && saved["lastModifiedAt"] == Str(stamp)
      && (AuditAgrees(rule, stored) ==> AuditAgrees(saved, stored))
  {
    SaveWrites(stored, draft, stamp, "id");
    if AuditAgrees(rule, stored) {
      SaveKeeps(stored, draft, stamp, "createdAt");
      SaveKeeps(stored, draft, stamp, "createdBy");
    }
  }

  /** Form edits never touch the audit fields or the id. */
  lemma FormEditsKeep(draft: Doc, evs: seq<InputEvent>, k: string)
    requires Names(evs) <= FORM_FIELDS
    requires k in AUDIT_FIELDS || k == "id"
    ensures SameField(ApplyChanges(draft, evs), draft, k)
  {
    assert k !in FORM_FIELDS;
  }

  /** Saving a draft keeps every field the draft carries, except `lastModifiedAt`. */
  lemma SaveKeeps(stored: Doc, draft: Doc, stamp: string, k: string)
    requires k != "lastModifiedAt"
    requires k in draft ==> k in stored && draft[k] == stored[k]
    ensures SameField(ApplyUpdate(stored, UpdatePatch(draft, stamp)), stored, k)
  {
  }

  /** Saving a draft writes each field the draft carries, except `lastModifiedAt`. */
  lemma SaveWrites(stored: Doc, draft: Doc, stamp: string, k: string)
    requires k != "lastModifiedAt" && k in draft
    ensures k in ApplyUpdate(stored, UpdatePatch(draft, stamp))
    ensures ApplyUpdate(stored, UpdatePatch(draft, stamp))[k] == draft[k]
  {
  }

  /** The rule a consistent document opens as carries the document's id. */
  lemma MirrorEntryId(id: string, stored: Doc)
    requires "id" in stored ==> stored["id"] == Str(id)
    ensures "id" in MirrorEntry(id, stored) && MirrorEntry(id, stored)["id"] == Str(id)
  {
  }

  /**
   * Editing a mirrored rule with the form and saving it keeps `createdAt` and
   * `createdBy` as stored, refreshes `lastModifiedAt`, and writes the
   * document's own id into its `id` field.
   */
  lemma EditKeepsAudit(id: string, stored: Doc, evs: seq<InputEvent>, stamp: string)
    requires Names(evs) <= FORM_FIELDS
    requires "id" in stored ==> stored["id"] == Str(id)
    ensures var updated := ApplyUpdate(stored, UpdatePatch(ApplyChanges(MirrorEntry(id, stored), evs), stamp));
      && SameField(updated, stored, "createdAt")
      && SameField(updated, stored, "createdBy")
      && updated["lastModifiedAt"] == Str(stamp)
      && "id" in updated && updated["id"] == Str(id)
  {
    var entry := MirrorEntry(id, stored);
    var draft := ApplyChanges(entry, evs);
    FormEditsKeep(entry, evs, "createdAt");
    SaveKeeps(stored, draft, stamp, "createdAt");
    FormEditsKeep(entry, evs, "createdBy");
    SaveKeeps(stored, draft, stamp, "createdBy");
    MirrorEntryId(id, stored);
    FormEditsKeep(entry, evs, "id");
    SaveWrites(stored, draft, stamp, "id");
  }
}
