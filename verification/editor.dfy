/** The form controller the administration panel runs, identically, for each
    of the four editable collections: a draft (`Partial<T>`) and an editing
    marker (`string | null`), with save (validate, then update or add), edit,
    confirmed delete and cancel. */
module Editor {
  import opened Wrappers
  import opened Records
  import opened Collection

  datatype Editor<P> = Editor(draft: Patch<P>, editing: Option<Id>)

  /** The form as it is reset: the entity's default draft and no marker. */
  function Blank<V, P>(k: Kind<V, P>): Editor<P> {
    Editor(Patch(None, k.blank), None)
  }

  /** The dialog an action raises. */
  datatype Alert = Quiet | Added | Updated | Deleted | MissingFields | ConfigSaved

  datatype Action<V, P> =
    | Type(fields: P)                   // typing into the form's inputs
    | Save(newId: Id)                   // the id `add` would generate
    | Edit(record: Keyed<V>)            // the edit button of a listed record
    | Delete(id: Id, confirmed: bool)   // the delete button and the dialog's answer
    | Cancel                            // the cancel button

  datatype Outcome<V, P> = Outcome(records: seq<Keyed<V>>, editor: Editor<P>, alert: Alert)

  /** `if (editingId)`: the marker is truthy when it is set and non-empty. */
  predicate Editing<P>(ed: Editor<P>) {
    ed.editing.Some? && ed.editing.value != ""
  }

  /** `handleSaveX`. A valid draft updates the marked record (clearing the
      marker) or, with a falsy marker, is appended under the generated id; the
      add branch resets only the draft, so a marker of `""` stays set. */
  function SaveDraft<V, P>(k: Kind<V, P>, rs: seq<Keyed<V>>, ed: Editor<P>, newId: Id): (o: Outcome<V, P>)
    ensures k.complete(ed.draft.fields).None? ==> o == Outcome(rs, ed, MissingFields)
    ensures k.complete(ed.draft.fields).Some? ==> o.editor.draft == Blank(k).draft && !Editing(o.editor)
    ensures k.complete(ed.draft.fields).Some? && Editing(ed) ==>
      && o.alert == Updated && o.editor.editing.None? && |o.records| == |rs|
      && (forall i :: 0 <= i < |rs| ==>
            o.records[i] == (if rs[i].id == ed.editing.value then MergeRecord(rs[i], ed.draft, k.merge) else rs[i]))
    ensures k.complete(ed.draft.fields).Some? && !Editing(ed) ==>
      && o.alert == Added && o.editor.editing == ed.editing
      && o.records == rs + [Keyed(newId, k.complete(ed.draft.fields).value)]
  {
    match k.complete(ed.draft.fields)
    case None => Outcome(rs, ed, MissingFields)
    case Some(v) =>
      if Editing(ed) then Outcome(Update(rs, ed.editing.value, ed.draft, k.merge), Blank(k), Updated)
      else Outcome(Add(rs, v, newId), Blank(k).(editing := ed.editing), Added)
  }

  /** `handleEditX`: the record, id included, becomes the draft. */
  function EditRecord<V, P>(k: Kind<V, P>, r: Keyed<V>): (ed: Editor<P>)
    ensures ed.editing == Some(r.id) && ed.draft.id == Some(r.id)
    ensures ed.draft.fields == k.load(r.fields)
  {
    Editor(Patch(Some(r.id), k.load(r.fields)), Some(r.id))
  }

  /** `handleDeleteX` once the dialog is answered. */
  function DeleteRecord<V, P>(k: Kind<V, P>, rs: seq<Keyed<V>>, ed: Editor<P>, id: Id, confirmed: bool): (o: Outcome<V, P>)
    ensures !confirmed ==> o == Outcome(rs, ed, Quiet)
    ensures confirmed ==> o.records == Remove(rs, id) && o.alert == Deleted
    ensures confirmed && ed.editing == Some(id) ==> o.editor == Blank(k)
    ensures ed.editing != Some(id) ==> o.editor == ed
  {
    if !confirmed then Outcome(rs, ed, Quiet)
    else if ed.editing == Some(id) then Outcome(Remove(rs, id), Blank(k), Deleted)
    else Outcome(Remove(rs, id), ed, Deleted)
  }

  /** One action on the form. Typing replaces the draft's fields and keeps
      its id and the marker; cancel resets the form; only a save or a
      confirmed delete can change the collection. */
  function Step<V, P>(k: Kind<V, P>, rs: seq<Keyed<V>>, ed: Editor<P>, a: Action<V, P>): (o: Outcome<V, P>)
    ensures a.Type? ==> o.records == rs && o.alert == Quiet && o.editor.editing == ed.editing
                        && o.editor.draft == Patch(ed.draft.id, a.fields)
    ensures a.Cancel? ==> o == Outcome(rs, Blank(k), Quiet)
    ensures a.Edit? ==> o.records == rs && o.editor.editing == Some(a.record.id)
    ensures o.records != rs ==> a.Save? || (a.Delete? && a.confirmed)
  {
    match a
    case Type(fields) => Outcome(rs, ed.(draft := ed.draft.(fields := fields)), Quiet)
    case Save(newId) => SaveDraft(k, rs, ed, newId)
    case Edit(r) => Outcome(rs, EditRecord(k, r), Quiet)
    case Delete(id, confirmed) => DeleteRecord(k, rs, ed, id, confirmed)
    case Cancel => Outcome(rs, Blank(k), Quiet)
  }

  /** The edit button exists only for listed records, and the generated id of
      an add is assumed fresh (the application does not check it). */
  ghost predicate Enabled<V, P>(rs: seq<Keyed<V>>, a: Action<V, P>) {
    match a
    case Save(newId) => newId !in Ids(rs)
    case Edit(r) => r in rs
    case _ => true
  }

  /** Every stored record is one the form accepts when loaded for editing. */
  ghost predicate Acceptable<V, P>(k: Kind<V, P>, rs: seq<Keyed<V>>) {
    forall i :: 0 <= i < |rs| ==> k.complete(k.load(rs[i].fields)).Some?
  }

  /** What the admin panel keeps true of one collection and its form: ids
      are distinct, every record passes validation, a set marker (even the
      falsy `""`) names a record that is present, and a draft that carries an id carries the
      marker's. */
  ghost predicate Inv<V(!new), P(!new)>(k: Kind<V, P>, rs: seq<Keyed<V>>, ed: Editor<P>) {
    && Distinct(rs)
    && Acceptable(k, rs)
    && (ed.editing.Some? ==> ed.editing.value in Ids(rs))
    && (ed.draft.id.None? || ed.draft.id == ed.editing)
  }

  /** The records a save leaves in the collection are old ones or carry
      exactly the fields of the validated draft. */
  lemma SaveProvenance<V(!new), P(!new)>(k: Kind<V, P>, rs: seq<Keyed<V>>, ed: Editor<P>, newId: Id)
    requires Lawful(k)
    ensures var o := SaveDraft(k, rs, ed, newId);
      forall i :: 0 <= i < |o.records| ==>
        o.records[i] in rs || (k.complete(ed.draft.fields).Some? && o.records[i].fields == k.complete(ed.draft.fields).value)
  {
    var o := SaveDraft(k, rs, ed, newId);
    if k.complete(ed.draft.fields).Some? && Editing(ed) {
      forall i | 0 <= i < |o.records|
        ensures o.records[i] in rs || o.records[i].fields == k.complete(ed.draft.fields).value
      {
        if rs[i].id == ed.editing.value {
          assert o.records[i] == MergeRecord(rs[i], ed.draft, k.merge);
        }
      }
    }
  }

  /** A save keeps the invariant when the generated id is fresh. */
  lemma SaveInv<V(!new), P(!new)>(k: Kind<V, P>, rs: seq<Keyed<V>>, ed: Editor<P>, newId: Id)
    requires Lawful(k) && Inv(k, rs, ed) && newId !in Ids(rs)
    ensures Inv(k, SaveDraft(k, rs, ed, newId).records, SaveDraft(k, rs, ed, newId).editor)
  {
    var o := SaveDraft(k, rs, ed, newId);
    if k.complete(ed.draft.fields).Some? {
      SaveProvenance(k, rs, ed, newId);
      if Editing(ed) {
        UpdateKeepsIds(rs, ed.editing.value, ed.draft, k.merge);
      }
      forall i | 0 <= i < |o.records|
        ensures k.complete(k.load(o.records[i].fields)).Some?
      {
        if o.records[i] !in rs {
          assert k.load(o.records[i].fields) == ed.draft.fields;
        }
      }
    }
  }

  /** A delete keeps the invariant: the marker survives only when it names
      another record, which the delete keeps. */
  lemma DeleteInv<V(!new), P(!new)>(k: Kind<V, P>, rs: seq<Keyed<V>>, ed: Editor<P>, id: Id, confirmed: bool)
    requires Inv(k, rs, ed)
    ensures Inv(k, DeleteRecord(k, rs, ed, id, confirmed).records, DeleteRecord(k, rs, ed, id, confirmed).editor)
  {
    var o := DeleteRecord(k, rs, ed, id, confirmed);
    if confirmed {
      RemoveDistinct(rs, id);
      if ed.editing.Some? && ed.editing.value != id {
        var j :| 0 <= j < |rs| && rs[j].id == ed.editing.value;
        assert rs[j] in o.records;
      }
    }
  }

  lemma StepInv<V(!new), P(!new)>(k: Kind<V, P>, rs: seq<Keyed<V>>, ed: Editor<P>, a: Action<V, P>)
    requires Lawful(k) && Inv(k, rs, ed) && Enabled(rs, a)
    ensures Inv(k, Step(k, rs, ed, a).records, Step(k, rs, ed, a).editor)
  {
    match a
    case Save(newId) => SaveInv(k, rs, ed, newId);
    case Delete(id, confirmed) => DeleteInv(k, rs, ed, id, confirmed);
    case Edit(r) =>
    case Type(_) =>
    case Cancel =>
  }

  /** After an edit, saving the unchanged form on a collection with distinct
      ids changes no record, and closes the edit. */
  lemma EditThenSave<V(!new), P(!new)>(k: Kind<V, P>, rs: seq<Keyed<V>>, r: Keyed<V>, newId: Id)
    requires Lawful(k) && Distinct(rs) && Acceptable(k, rs) && r in rs && r.id != ""
    ensures SaveDraft(k, rs, EditRecord(k, r), newId) == Outcome(rs, Blank(k), Updated)
  {
    var ed := EditRecord(k, r);
    var o := SaveDraft(k, rs, ed, newId);
    var j :| 0 <= j < |rs| && rs[j] == r;
    assert k.complete(ed.draft.fields).Some?;
    forall i | 0 <= i < |rs|
      ensures o.records[i] == rs[i]
    {
      if rs[i].id == r.id {
        assert i == j;
      }
    }
  }

  /** Deleting the record being edited cancels the edit, so the next valid
      save adds a new record instead of updating the deleted one. */
  lemma DeleteEditedThenSaveAdds<V, P>(k: Kind<V, P>, rs: seq<Keyed<V>>, ed: Editor<P>, fields: P, newId: Id)
    requires ed.editing.Some? && k.complete(fields).Some?
    ensures var o := DeleteRecord(k, rs, ed, ed.editing.value, true);
      var o' := SaveDraft(k, o.records, o.editor.(draft := o.editor.draft.(fields := fields)), newId);
      && o.editor.editing.None?
      && o'.alert == Added
      && o'.records == Add(Remove(rs, ed.editing.value), k.complete(fields).value, newId)
  {
  }

  /** A marker of `""` is falsy, so a valid save appends a new record and
      leaves the marker set; a later confirmed delete of the id `""` then
      matches it and resets the form, as `editingId === id` does. */
  lemma EmptyMarkerSurvivesAdd<V, P>(k: Kind<V, P>, rs: seq<Keyed<V>>, ed: Editor<P>, newId: Id, typed: P)
    requires ed.editing == Some("") && k.complete(ed.draft.fields).Some?
    ensures var o := SaveDraft(k, rs, ed, newId);
      && o.alert == Added
      && o.records == rs + [Keyed(newId, k.complete(ed.draft.fields).value)]
      && o.editor.editing == Some("")
      && DeleteRecord(k, o.records, o.editor.(draft := o.editor.draft.(fields := typed)), "", true).editor == Blank(k)
  {
  }
}
