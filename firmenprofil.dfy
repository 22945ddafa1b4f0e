/** The company profile page: the patch `updateFirmaData` commits to the content lake for one
    section of a company, and the editing state `handleEdit`, `handleSave` and `handleCancel`
    keep. Company documents and form data are JSON objects; the content lake's answers are
    given as parameters. */
module Firmenprofil {
  import opened Wrappers
  import opened Strings
  import opened Http

  // ---------------------------------------------------------------------------
  // the patch

  /** The fields of a `set` patch, in insertion order. */
  type SetFields = seq<(string, Json)>

  const NoResults := "Keine Ergebnisse nach Transaktion."
  const SavedText := "Daten erfolgreich aktualisiert!"

  /** The page's sections. `OverviewKey` is the key `editing` and `handleSave` use for the
      main data. */
  const OverviewKey := "firmenuebersicht"
  const TechnicalKey := "technischerAnsprechpartner"
  const AccountingKey := "buchhaltung"

  /** The company's own fields that a save of the main data may set. */
  predicate IsMainField(k: string) {
    k == "Name" || k == "Street" || k == "City" || k == "ZipCode" || k == "Country"
  }

  /** `sectionKey`: the name of the company's contact sub-object a page section edits, or
      `undefined` for the main data. */
  function SectionKey(section: string): (r: Option<string>)
    ensures r == Some("TechnischerAnsprechpartner") <==> section == TechnicalKey
    ensures r == Some("buchhaltung") <==> section == AccountingKey
    ensures r.None? <==> section != TechnicalKey && section != AccountingKey
  {
    if section == TechnicalKey then Some("TechnischerAnsprechpartner")
    else if section == AccountingKey then Some("buchhaltung")
    else None
  }

  /** `updateData.f` as a field of the new contact object; an `undefined` value is dropped
      when the patch is serialised. */
  function Defined(data: Json, f: string): SetFields {
    var v := Member(Some(data), f);
    if v.Some? then [(f, v.value)] else []
  }

  /** `{_type: key, Name, Email, Phone}`: the contact object that replaces the old one. */
  function ContactObject(key: string, data: Json): (r: Json)
    ensures r.Obj?
  {
    Obj([("_type", Str(key))] + Defined(data, "Name") + Defined(data, "Email") + Defined(data, "Phone"))
  }

  /** `if (updateData.f) updates.f = updateData.f`. */
  function IfTruthy(data: Json, f: string): SetFields {
    var v := Member(Some(data), f);
    if JsTruthy(v) then [(f, v.value)] else []
  }

  /** The `updates` object for the main data. */
  function MainUpdates(data: Json): SetFields {
    IfTruthy(data, "Name") + IfTruthy(data, "Street") + IfTruthy(data, "City") +
    IfTruthy(data, "ZipCode") + IfTruthy(data, "Country")
  }

  /** The `set` fields `updateFirmaData` patches for a section key. */
  function PatchFor(sectionKey: Option<string>, data: Json): SetFields {
    if sectionKey == Some("TechnischerAnsprechpartner") || sectionKey == Some("buchhaltung")
    then [(sectionKey.value, ContactObject(sectionKey.value, data))]
    else MainUpdates(data)
  }

  /** A company document after a `set` patch: each field assigned in turn. */
  function ApplySet(doc: Json, patch: SetFields): (r: Json)
    requires doc.Obj?
    ensures r.Obj?
    decreases |patch|
  {
    if patch == [] then doc else ApplySet(SetMember(doc, patch[0].0, patch[0].1), patch[1..])
  }

  lemma {:induction false} ApplySetConcat(doc: Json, a: SetFields, b: SetFields)
    requires doc.Obj?
    ensures ApplySet(doc, a + b) == ApplySet(ApplySet(doc, a), b)
    decreases |a|
  {
    if a != [] {
      assert (a + b)[0] == a[0] && (a + b)[1..] == a[1..] + b;
      ApplySetConcat(SetMember(doc, a[0].0, a[0].1), a[1..], b);
    } else {
      assert a + b == b;
    }
  }

  /** One conditional assignment of the main data. */
  lemma ApplyIfTruthy(doc: Json, data: Json, f: string, k: string)
    requires doc.Obj?
    ensures Field(ApplySet(doc, IfTruthy(data, f)), k) ==
      if k == f && JsTruthy(Member(Some(data), f)) then Member(Some(data), f) else Field(doc, k)
  {
    if JsTruthy(Member(Some(data), f)) {
      var v := Member(Some(data), f).value;
      FieldOfSetMember(doc, f, v, k);
      assert ApplySet(doc, IfTruthy(data, f)) == ApplySet(SetMember(doc, f, v), []);
    }
  }

  /** A save of the main data sets exactly the truthy main fields of the form: an empty value
      never overwrites, and every other field of the company (its tax number, its contacts)
      stays as it was. */
  lemma MainPatchEffect(doc: Json, data: Json, k: string)
    requires doc.Obj?
    ensures Field(ApplySet(doc, PatchFor(None, data)), k) ==
      if IsMainField(k) && JsTruthy(Member(Some(data), k)) then Member(Some(data), k) else Field(doc, k)
    ensures !IsMainField(k) ==> Field(ApplySet(doc, PatchFor(None, data)), k) == Field(doc, k)
  {
    var a, b, c, d, e := IfTruthy(data, "Name"), IfTruthy(data, "Street"), IfTruthy(data, "City"),
      IfTruthy(data, "ZipCode"), IfTruthy(data, "Country");
    assert PatchFor(None, data) == a + b + c + d + e;
    ApplySetConcat(doc, a + b + c + d, e);
    ApplySetConcat(doc, a + b + c, d);
    ApplySetConcat(doc, a + b, c);
    ApplySetConcat(doc, a, b);
    var s1 := ApplySet(doc, a);
    var s2 := ApplySet(s1, b);
    var s3 := ApplySet(s2, c);
    var s4 := ApplySet(s3, d);
    ApplyIfTruthy(doc, data, "Name", k);
    ApplyIfTruthy(s1, data, "Street", k);
    ApplyIfTruthy(s2, data, "City", k);
    ApplyIfTruthy(s3, data, "ZipCode", k);
    ApplyIfTruthy(s4, data, "Country", k);
  }

  /** The tax number is never part of a main-data save. */
  lemma MainPatchKeepsTaxNumber(doc: Json, data: Json)
    requires doc.Obj?
    ensures Field(ApplySet(doc, PatchFor(None, data)), "TaxNumber") == Field(doc, "TaxNumber")
  {
    MainPatchEffect(doc, data, "TaxNumber");
  }

  /** The contact object holds its type and the form's `Name`, `Email` and `Phone`, and nothing
      else: no field of the old contact survives. */
  lemma ContactObjectFields(key: string, data: Json, k: string)
    ensures Field(ContactObject(key, data), "_type") == Some(Str(key))
    ensures k == "Name" || k == "Email" || k == "Phone" ==> Field(ContactObject(key, data), k) == Member(Some(data), k)
    ensures k != "_type" && k != "Name" && k != "Email" && k != "Phone" ==> Field(ContactObject(key, data), k).None?
  {
    var n, e, p := Defined(data, "Name"), Defined(data, "Email"), Defined(data, "Phone");
    var o := ContactObject(key, data);
    assert o.fields == [("_type", Str(key))] + (n + (e + p));
    assert o.fields[1..] == n + (e + p);
    var none: SetFields := [];
    assert p == p + none;
    FieldAfterDefined(data, "Name", e + p, k);
    FieldAfterDefined(data, "Email", p, k);
    FieldAfterDefined(data, "Phone", none, k);
  }

  /** An optional field in front of others: its own key reads its value when it is defined, and
      every other key is looked up further on. */
  lemma FieldAfterDefined(data: Json, f: string, rest: SetFields, k: string)
    ensures k == f && Member(Some(data), f).Some? ==> Field(Obj(Defined(data, f) + rest), k) == Member(Some(data), f)
    ensures k != f || Member(Some(data), f).None? ==> Field(Obj(Defined(data, f) + rest), k) == Field(Obj(rest), k)
  {
    var j := Obj(Defined(data, f) + rest);
    if Member(Some(data), f).Some? {
      assert j.fields[1..] == rest;
    } else {
      assert j.fields == rest;
    }
  }

  /** A contact save replaces the whole sub-object and touches no other field of the company. */
  lemma ContactPatchEffect(doc: Json, section: string, data: Json, k: string)
    requires doc.Obj?
    requires section == TechnicalKey || section == AccountingKey
    ensures var key := SectionKey(section).value;
      Field(ApplySet(doc, PatchFor(SectionKey(section), data)), k) ==
        if k == key then Some(ContactObject(key, data)) else Field(doc, k)
  {
    var key := SectionKey(section).value;
    var patch := PatchFor(SectionKey(section), data);
    assert patch == [(key, ContactObject(key, data))];
    assert ApplySet(doc, patch) == ApplySet(SetMember(doc, key, ContactObject(key, data)), []);
    FieldOfSetMember(doc, key, ContactObject(key, data), k);
  }

  /** A transaction of the content lake client: its patches wait for the commit. */
  class Transaction {
    var patches: seq<(Json, SetFields)>

    constructor ()
      ensures patches == []
    {
      patches := [];
    }

    /** `tx.patch(id, {set})`. */
    method Patch(id: Json, patch: SetFields)
      modifies this
      ensures patches == old(patches) + [(id, patch)]
    {
      patches := patches + [(id, patch)];
    }
  }

  /** The `updates` object, built one conditional assignment at a time (a new key goes at the
      end). */
  method BuildMainUpdates(data: Json) returns (updates: SetFields)
    ensures updates == MainUpdates(data)
  {
    updates := [];
    var v := Member(Some(data), "Name");
    if JsTruthy(v) { updates := updates + [("Name", v.value)]; }
    assert updates == IfTruthy(data, "Name");
    v := Member(Some(data), "Street");
    if JsTruthy(v) { updates := updates + [("Street", v.value)]; }
    assert updates == IfTruthy(data, "Name") + IfTruthy(data, "Street");
    v := Member(Some(data), "City");
    if JsTruthy(v) { updates := updates + [("City", v.value)]; }
    assert updates == IfTruthy(data, "Name") + IfTruthy(data, "Street") + IfTruthy(data, "City");
    v := Member(Some(data), "ZipCode");
    if JsTruthy(v) { updates := updates + [("ZipCode", v.value)]; }
    assert updates == IfTruthy(data, "Name") + IfTruthy(data, "Street") + IfTruthy(data, "City") +
      IfTruthy(data, "ZipCode");
    v := Member(Some(data), "Country");
    if JsTruthy(v) { updates := updates + [("Country", v.value)]; }
  }

  /** Every field of the main update is a truthy main field copied from the form, and every
      truthy main field of the form is among the updates. */
  lemma MainUpdatesFields(data: Json)
    ensures forall k :: 0 <= k < |MainUpdates(data)| ==>
      var f := MainUpdates(data)[k];
      IsMainField(f.0) && JsTruthy(Some(f.1)) && Member(Some(data), f.0) == Some(f.1)
    ensures forall f :: IsMainField(f) && JsTruthy(Member(Some(data), f)) ==>
      exists k :: 0 <= k < |MainUpdates(data)| && MainUpdates(data)[k] == (f, Member(Some(data), f).value)
  {
    MainUpdatesComplete(data);
    var a, b, c, d, e := IfTruthy(data, "Name"), IfTruthy(data, "Street"), IfTruthy(data, "City"),
      IfTruthy(data, "ZipCode"), IfTruthy(data, "Country");
    var u := MainUpdates(data);
    forall k | 0 <= k < |u|
      ensures IsMainField(u[k].0) && JsTruthy(Some(u[k].1)) && Member(Some(data), u[k].0) == Some(u[k].1)
    {
      var i := k;
      if i < |a| { assert u[k] == a[i]; } else {
      i := i - |a|;
      if i < |b| { assert u[k] == b[i]; } else {
      i := i - |b|;
      if i < |c| { assert u[k] == c[i]; } else {
      i := i - |c|;
      if i < |d| { assert u[k] == d[i]; } else {
      i := i - |d|;
      assert u[k] == e[i];
      }}}}
    }
  }

  /** Each truthy main field of the form has its update, at the place of its `if`. */
  lemma MainUpdatesComplete(data: Json)
    ensures forall f :: IsMainField(f) && JsTruthy(Member(Some(data), f)) ==>
      exists k :: 0 <= k < |MainUpdates(data)| && MainUpdates(data)[k] == (f, Member(Some(data), f).value)
  {
    var a, b, c, d, e := IfTruthy(data, "Name"), IfTruthy(data, "Street"), IfTruthy(data, "City"),
      IfTruthy(data, "ZipCode"), IfTruthy(data, "Country");
    var u := MainUpdates(data);
    assert u == a + b + c + d + e;
    forall f | IsMainField(f) && JsTruthy(Member(Some(data), f))
      ensures exists k :: 0 <= k < |u| && u[k] == (f, Member(Some(data), f).value)
    {
      var v := Member(Some(data), f);
      if f == "Name" {
        assert u[0] == a[0] == (f, v.value);
      } else if f == "Street" {
        assert u[|a|] == b[0] == (f, v.value);
      } else if f == "City" {
        assert u[|a| + |b|] == c[0] == (f, v.value);
      } else if f == "ZipCode" {
        assert u[|a| + |b| + |c|] == d[0] == (f, v.value);
      } else {
        assert u[|a| + |b| + |c| + |d|] == e[0] == (f, v.value);
      }
    }
  }

  /** `updateFirmaData`: one patch for the company, then the commit, whose answer (`results`,
      or a thrown error) is given. Returns the patches the commit sends and the first result,
      or the error the function throws. */
  method UpdateFirmaData(firmaId: Json, updateData: Json, sectionKey: Option<string>,
                         commit: Result<Option<seq<Json>>, string>)
    returns (sent: seq<(Json, SetFields)>, r: Result<Json, string>)
    ensures sent == [(firmaId, PatchFor(sectionKey, updateData))]
    ensures commit.Err? ==> r == Err(commit.error)
    ensures commit.Ok? ==> (r.Ok? <==> commit.value.Some? && |commit.value.value| > 0)
    ensures r.Ok? ==> commit.Ok? && r.value == commit.value.value[0]
    ensures commit.Ok? && r.Err? ==> r.error == NoResults
  {
    var tx := new Transaction();
    if sectionKey == Some("TechnischerAnsprechpartner") || sectionKey == Some("buchhaltung") {
      tx.Patch(firmaId, [(sectionKey.value, ContactObject(sectionKey.value, updateData))]);
    } else {
      var updates := BuildMainUpdates(updateData);
      tx.Patch(firmaId, updates);
    }
    sent := tx.patches;
    match commit
    case Err(e) =>
      r := Err(e);
    case Ok(results) =>
      if results.Some? && |results.value| > 0 {
        r := Ok(results.value[0]);
      } else {
        r := Err(NoResults);
      }
  }

  // ---------------------------------------------------------------------------
  // the loaded user data

  /** `{...j}`: an object copy; an array or a string turns into an object keyed by the decimal
      indices; anything else spreads to `{}`. */
  function Spread(j: Json): (r: Json)
    ensures r.Obj?
  {
    match j
    case Obj(_) => j
    case Arr(items) => Obj(seq(|items|, k requires 0 <= k < |items| => (NatToString(k), items[k])))
    case Str(s) => Obj(seq(|s|, k requires 0 <= k < |s| => (NatToString(k), Str([s[k]]))))
    case _ => Obj([])
  }

  /** `userData[0].projects`; `None` when the access throws or is `undefined`. */
  function ProjectsOf(userData: Json): Option<Json> {
    match Index(userData, 0)
    case None => None
    case Some(user) => Member(Some(user), "projects")
  }

  /** `userData[0].projects[index].firma`; `None` when the access throws or is `undefined`. */
  function FirmaAt(userData: Json, index: nat): Option<Json> {
    match ProjectsOf(userData)
    case None => None
    case Some(projects) =>
      match Index(projects, index)
      case None => None
      case Some(project) => Member(Some(project), "firma")
  }

  /** `j[i] = v` on an array element or an object property that exists. */
  function SetIndex(j: Json, i: nat, v: Json): (r: Json)
    requires Index(j, i).Some?
  {
    if j.Arr? then Arr(j.items[i := v]) else SetMember(j, NatToString(i), v)
  }

  /** `{...userData}` with `[0].projects[index].firma = updatedFirma`. */
  function UpdatedUserData(userData: Json, index: nat, updatedFirma: Json): (r: Json)
    requires FirmaAt(userData, index).Some?
  {
    var user := Index(userData, 0).value;
    var projects := ProjectsOf(userData).value;
    var project := Index(projects, index).value;
    var projects' := SetIndex(projects, index, SetMember(project, "firma", updatedFirma));
    SetMember(Spread(userData), NatToString(0), SetMember(user, "projects", projects'))
  }

  /** The spread copy of the data reads the new company back at the same place, and nothing
      else of that project or that user changes; an array of projects keeps its other ones. */
  lemma UpdatedUserDataReadsBack(userData: Json, index: nat, updatedFirma: Json, k: string, i: nat)
    requires FirmaAt(userData, index).Some?
    ensures FirmaAt(UpdatedUserData(userData, index, updatedFirma), index) == Some(updatedFirma)
    ensures var r := UpdatedUserData(userData, index, updatedFirma);
      var project := Index(ProjectsOf(userData).value, index).value;
      ProjectsOf(r).Some? &&
      Index(ProjectsOf(r).value, index).Some? &&
      (k != "firma" ==> Field(Index(ProjectsOf(r).value, index).value, k) == Field(project, k)) &&
      (ProjectsOf(userData).value.Arr? && i != index ==> Index(ProjectsOf(r).value, i) == Index(ProjectsOf(userData).value, i))
    ensures k != "projects" ==> Field(Index(UpdatedUserData(userData, index, updatedFirma), 0).value, k) == Field(Index(userData, 0).value, k)
  {
    var user := Index(userData, 0).value;
    var projects := ProjectsOf(userData).value;
    var project := Index(projects, index).value;
    var project' := SetMember(project, "firma", updatedFirma);
    var projects' := SetIndex(projects, index, project');
    var user' := SetMember(user, "projects", projects');
    var r := UpdatedUserData(userData, index, updatedFirma);
    FieldOfSetMember(Spread(userData), NatToString(0), user', "");
    assert Index(r, 0) == Some(user');
    FieldOfSetMember(user, "projects", projects', k);
    assert ProjectsOf(r) == Some(projects');
    if !projects.Arr? {
      FieldOfSetMember(projects, NatToString(index), project', "");
    }
    assert Index(projects', index) == Some(project');
    FieldOfSetMember(project, "firma", updatedFirma, k);
  }

  // ---------------------------------------------------------------------------
  // the editing state

  /** Which project each section edits, and the form data of each section; a missing key reads
      as `undefined`. */
  datatype Edits = Edits(editing: map<string, Option<int>>, editedData: map<string, Option<Json>>)

  /** The key the overview form's `onChange` and the initial state use for the main data. */
  const OverviewKeyAsWritten := "firmenübersicht"

  const InitialEdits := Edits(
    map[OverviewKey := None, TechnicalKey := None, AccountingKey := None],
    map[OverviewKeyAsWritten := None, TechnicalKey := None, AccountingKey := None])

  function Lookup(m: map<string, Option<Json>>, k: string): Option<Json> {
    if k in m then m[k] else None
  }

  /** `editedData[section]`: what `handleSave` sends. */
  function Pending(e: Edits, section: string): Option<Json> {
    Lookup(e.editedData, section)
  }

  /** `editedData[key] || fallback`: what a form shows. */
  function Shown(e: Edits, key: string, fallback: Json): Json {
    var d := Lookup(e.editedData, key);
    if JsTruthy(d) then d.value else fallback
  }

  /** `handleEdit`: the section edits project `index`, starting from a copy of `data`. */
  function StartEdit(e: Edits, section: string, index: int, data: Json): Edits {
    Edits(e.editing[section := Some(index)], e.editedData[section := Some(Spread(data))])
  }

  /** `handleCancel`, and the reset after a save. */
  function Cancel(e: Edits, section: string): Edits {
    Edits(e.editing[section := None], e.editedData[section := None])
  }

  /** A form's `onChange`: the new form data under `key`. */
  function Change(e: Edits, key: string, data: Json): Edits {
    e.(editedData := e.editedData[key := Some(data)])
  }

  /** The overview form's `onChange` as written: it stores under `'firmenübersicht'`. */
  function OverviewChangeAsWritten(e: Edits, data: Json): Edits {
    Change(e, OverviewKeyAsWritten, data)
  }

  /** The overview form's `onChange` under the key `handleEdit` and `handleSave` use. */
  function OverviewChange(e: Edits, data: Json): (r: Edits)
    ensures Pending(r, OverviewKey) == Some(data)
    ensures r.editing == e.editing
  {
    Change(e, OverviewKey, data)
  }

  /** Right after `handleEdit`, a save sends the copy of the data the edit started from. */
  lemma EditThenSave(e: Edits, section: string, index: int, data: Json)
    ensures Pending(StartEdit(e, section, index, data), section) == Some(Spread(data))
    ensures StartEdit(e, section, index, data).editing[section] == Some(index)
  {
  }

  /** `handleCancel` resets the given section in both maps and leaves every other key alone. */
  lemma CancelResetsOnlySection(e: Edits, section: string, other: string)
    requires other != section
    ensures Pending(Cancel(e, section), section).None?
    ensures Cancel(e, section).editing[section].None?
    ensures other in Cancel(e, section).editing <==> other in e.editing
    ensures other in e.editing ==> Cancel(e, section).editing[other] == e.editing[other]
    ensures Lookup(Cancel(e, section).editedData, other) == Lookup(e.editedData, other)
  {
  }

  /** As written, an overview change does not reach the save: after the edit starts, whatever
      the user types, `handleSave('firmenuebersicht')` sends the copy taken by `handleEdit`. */
  lemma OverviewChangeAsWrittenIsLost(e: Edits, index: int, snapshot: Json, typed: Json)
    ensures Pending(OverviewChangeAsWritten(StartEdit(e, OverviewKey, index, snapshot), typed), OverviewKey)
      == Some(Spread(snapshot))
  {
  }

  /** An example: the user opens the overview of a company named "Alt GmbH", types "Neu GmbH",
      and saves; the patch sets the old name. Cancelling instead leaves the typed name on
      screen. */
  lemma OverviewChangeAsWrittenExample()
    ensures var snapshot := Obj([("Name", Str("Alt GmbH"))]);
      var typed := Obj([("Name", Str("Neu GmbH"))]);
      var e := OverviewChangeAsWritten(StartEdit(InitialEdits, OverviewKey, 0, snapshot), typed);
      Pending(e, OverviewKey) == Some(snapshot) &&
      PatchFor(SectionKey(OverviewKey), Pending(e, OverviewKey).value) == [("Name", Str("Alt GmbH"))] &&
      Shown(Cancel(e, OverviewKey), OverviewKeyAsWritten, snapshot) == typed
  {
    var snapshot := Obj([("Name", Str("Alt GmbH"))]);
    var typed := Obj([("Name", Str("Neu GmbH"))]);
    var e := OverviewChangeAsWritten(StartEdit(InitialEdits, OverviewKey, 0, snapshot), typed);
    OverviewChangeAsWrittenIsLost(InitialEdits, 0, snapshot, typed);
    assert Pending(e, OverviewKey) == Some(snapshot);
    assert Member(Some(snapshot), "Name") == Some(Str("Alt GmbH"));
    assert Member(Some(snapshot), "Street").None?;
    assert Member(Some(snapshot), "City").None?;
    assert Member(Some(snapshot), "ZipCode").None?;
    assert Member(Some(snapshot), "Country").None?;
  }

  /** With one key, the save sends the latest change, and a cancel clears it from the form. */
  lemma OverviewChangeIsSaved(e: Edits, index: int, snapshot: Json, typed: Json, firma: Json)
    ensures Pending(OverviewChange(StartEdit(e, OverviewKey, index, snapshot), typed), OverviewKey) == Some(typed)
    ensures Shown(Cancel(OverviewChange(e, typed), OverviewKey), OverviewKey, firma) == firma
  {
  }

  // ---------------------------------------------------------------------------
  // the page

  /** The page's state. The overview form stores its changes with `OverviewChange`. */
  class ProfilePage {
    var username: Option<string>
    var userData: Json
    var error: Option<string>
    var edits: Edits
    var successMessages: map<string, Option<string>>

    constructor ()
      ensures username.None? && userData == Null && error.None?
      ensures edits == InitialEdits
      ensures successMessages == map[OverviewKey := None, TechnicalKey := None, AccountingKey := None]
    {
      username := None;
      userData := Null;
      error := None;
      edits := InitialEdits;
      successMessages := map[OverviewKey := None, TechnicalKey := None, AccountingKey := None];
    }

    /** The effect that loads the data once a username is set: `fetchUserData`'s answer or
        its error. */
    method LoadUserData(fetched: Result<Json, string>)
      modifies this
      ensures username == old(username) && edits == old(edits) && successMessages == old(successMessages)
      ensures !(username.Some? && username.value != "") ==> userData == old(userData) && error == old(error)
      ensures username.Some? && username.value != "" ==>
        (fetched.Ok? ==> userData == fetched.value && error == old(error)) &&
        (fetched.Err? ==> userData == old(userData) && error == Some("Fehler beim Laden der Daten"))
    {
      if username.Some? && username.value != "" {
        match fetched
        case Ok(d) => userData := d;
        case Err(_) => error := Some("Fehler beim Laden der Daten");
      }
    }

    method HandleEdit(section: string, index: int, data: Json)
      modifies this
      ensures edits == StartEdit(old(edits), section, index, data)
      ensures username == old(username) && userData == old(userData) && error == old(error)
      ensures successMessages == old(successMessages)
    {
      edits := StartEdit(edits, section, index, data);
    }

    method HandleCancel(section: string)
      modifies this
      ensures edits == Cancel(old(edits), section)
      ensures username == old(username) && userData == old(userData) && error == old(error)
      ensures successMessages == old(successMessages)
    {
      edits := Cancel(edits, section);
    }

    /** The overview form's `onChange`. */
    method OnOverviewChange(data: Json)
      modifies this
      ensures edits == OverviewChange(old(edits), data)
      ensures username == old(username) && userData == old(userData) && error == old(error)
      ensures successMessages == old(successMessages)
    {
      edits := OverviewChange(edits, data);
    }

    /** A contact form's `onChange`. */
    method OnContactChange(section: string, data: Json)
      modifies this
      ensures edits == Change(old(edits), section, data)
      ensures username == old(username) && userData == old(userData) && error == old(error)
      ensures successMessages == old(successMessages)
    {
      edits := Change(edits, section, data);
    }

    /** `handleSave`: `commit` is the transaction's answer and `refreshed` the reloaded data.
        Every error (no form data aside, which returns at once) is caught and only logged, so
        the state stays as it was; `sent` is what the commit sends. */
    method HandleSave(section: string, index: nat, commit: Result<Option<seq<Json>>, string>,
                      refreshed: Result<Json, string>)
      returns (sent: seq<(Json, SetFields)>)
      modifies this
      ensures username == old(username) && error == old(error)
      ensures var data := Pending(old(edits), section);
        var firma := FirmaAt(old(userData), index);
        if !JsTruthy(data) || !JsTruthy(firma) || !JsTruthy(Member(firma, "_id")) then
          sent == [] && userData == old(userData) && edits == old(edits) &&
          successMessages == old(successMessages)
        else
          sent == [(Member(firma, "_id").value, PatchFor(SectionKey(section), data.value))] &&
          if commit.Ok? && commit.value.Some? && |commit.value.value| > 0 then
            edits == Cancel(old(edits), section) &&
            successMessages == old(successMessages)[section := Some(SavedText)] &&
            userData == (if username.Some? && username.value != "" && refreshed.Ok? then refreshed.value
                         else UpdatedUserData(old(userData), index, commit.value.value[0]))
          else
            userData == old(userData) && edits == old(edits) && successMessages == old(successMessages)
    {
      sent := [];
      var data := Pending(edits, section);
      if !JsTruthy(data) {
        return;
      }
      var firma := FirmaAt(userData, index);
      if !JsTruthy(firma) || !JsTruthy(Member(firma, "_id")) {
        return;
      }
      var r;
      sent, r := UpdateFirmaData(Member(firma, "_id").value, data.value, SectionKey(section), commit);
      if r.Err? {
        return;
      }
      userData := UpdatedUserData(userData, index, r.value);
      edits := Cancel(edits, section);
      successMessages := successMessages[section := Some(SavedText)];
      if username.Some? && username.value != "" && refreshed.Ok? {
        userData := refreshed.value;
      }
    }
  }
}
