/** The dashboard page (src/pages/Dashboard.tsx): the realtime updaters of
    the active-SOS list, the mapping between a stored health profile and the
    edit form, the save request, and the respond-button rule. Queries,
    inserts, updates and the realtime channel are outside: their results are
    parameters. */
module Dashboard {
  import opened Wrappers
  import opened JsStrings

  /** An SOS alert row; the columns no logic here reads (position,
      description, timestamps) are not modelled. */
  datatype Alert = Alert(id: string, userId: string, status: string)

  /** A realtime INSERT: the new alert goes first. */
  function OnInsert(prev: seq<Alert>, inserted: Alert): (r: seq<Alert>)
    ensures |r| == |prev| + 1 && r[0] == inserted && r[1..] == prev
  {
    [inserted] + prev
  }

  /** A realtime UPDATE: every alert with the updated row's id is replaced
      by it; everything else stays where it was. */
  function OnUpdate(prev: seq<Alert>, updated: Alert): (r: seq<Alert>)
    ensures |r| == |prev|
    ensures forall i :: 0 <= i < |r| ==> r[i] == if prev[i].id == updated.id then updated else prev[i]
  {
    seq(|prev|, i requires 0 <= i < |prev| => if prev[i].id == updated.id then updated else prev[i])
  }

  /** An UPDATE keeps the list's ids, in order. */
  lemma UpdateKeepsIds(prev: seq<Alert>, updated: Alert)
    ensures var r := OnUpdate(prev, updated);
      forall i :: 0 <= i < |r| ==> r[i].id == prev[i].id
  {
  }

  /** Receiving the same UPDATE twice is the same as receiving it once. */
  lemma UpdateIdempotent(prev: seq<Alert>, updated: Alert)
    ensures OnUpdate(OnUpdate(prev, updated), updated) == OnUpdate(prev, updated)
  {
  }

  /** `alert.status === "active" && alert.user_id !== user?.id` */
  predicate ShowRespondButton(alert: Alert, currentUser: Option<string>)
    ensures ShowRespondButton(alert, currentUser) ==> alert.status == "active"
    ensures currentUser == Some(alert.userId) ==> !ShowRespondButton(alert, currentUser)
  {
    alert.status == "active" && (currentUser.None? || alert.userId != currentUser.value)
  }

  /** Once an UPDATE moves an alert out of "active" (someone responded), no
      copy of it in the list offers the respond button any more, and the
      button on every other alert is as it was. */
  lemma RespondedAlertLosesButton(prev: seq<Alert>, updated: Alert, currentUser: Option<string>)
    requires updated.status != "active"
    ensures var r := OnUpdate(prev, updated);
      forall i :: 0 <= i < |prev| ==>
        (ShowRespondButton(r[i], currentUser) <==> prev[i].id != updated.id && ShowRespondButton(prev[i], currentUser))
  {
  }

  /** A stored health profile, and the save payload, which has the same
      columns (the user id aside). */
  datatype HealthProfile = HealthProfile(
    bloodGroup: Option<string>,
    emergencyContactName: Option<string>,
    emergencyContactPhone: Option<string>,
    allergies: Option<seq<string>>,
    conditions: Option<seq<string>>,
    medications: Option<seq<string>>)

  /** The edit form: every field is text. */
  datatype HealthForm = HealthForm(
    bloodGroup: string,
    emergencyContactName: string,
    emergencyContactPhone: string,
    allergies: string,
    conditions: string,
    medications: string)

  const EmptyForm := HealthForm("", "", "", "", "", "")

  /** `value || ""` on a text column. */
  function TextForm(column: Option<string>): (r: string)
    ensures column.Some? ==> r == column.value
    ensures column.None? ==> r == ""
  {
    column.GetOr("")
  }

  /** `(value || []).join(", ")` on a list column. */
  function ListForm(column: Option<seq<string>>): string {
    match column
    case None => ""
    case Some(items) => Join(items, ", ")
  }

  /** The form filled from a loaded profile. */
  function FormFromProfile(p: HealthProfile): HealthForm {
    HealthForm(TextForm(p.bloodGroup), TextForm(p.emergencyContactName), TextForm(p.emergencyContactPhone),
               ListForm(p.allergies), ListForm(p.conditions), ListForm(p.medications))
  }

  /** `field || null` on a text field: an empty field is saved as null, any
      other verbatim. */
  function TextPayload(field: string): (r: Option<string>)
    ensures r.None? <==> field == ""
    ensures r.Some? ==> r.value == field
  {
    if field == "" then None else Some(field)
  }

  /** `field ? field.split(",").map(s => s.trim()) : null`: an empty field is
      saved as null; otherwise one item per comma-separated piece, trimmed,
      so that stray commas give empty items. */
  function ListPayload(field: string): (r: Option<seq<string>>)
    ensures r.None? <==> field == ""
    ensures r.Some? ==> |r.value| == |Split(field, ',')| >= 1
    ensures r.Some? ==> forall i :: 0 <= i < |r.value| ==>
      r.value[i] == Trim(Split(field, ',')[i]) && IsTrimmed(r.value[i]) && ',' !in r.value[i]
  {
    if field == "" then None
    else
      var pieces := Split(field, ',');
      Some(TrimEach(pieces))
  }

  /** `.map(s => s.trim())` */
  function TrimEach(xs: seq<string>): (r: seq<string>)
    ensures |r| == |xs|
    ensures forall i :: 0 <= i < |r| ==> r[i] == Trim(xs[i])
  {
    seq(|xs|, i requires 0 <= i < |xs| => Trim(xs[i]))
  }

  /** The save payload built from the form. */
  function PayloadFromForm(f: HealthForm): HealthProfile {
    HealthProfile(TextPayload(f.bloodGroup), TextPayload(f.emergencyContactName), TextPayload(f.emergencyContactPhone),
                  ListPayload(f.allergies), ListPayload(f.conditions), ListPayload(f.medications))
  }

  /** Loading then saving a text column: kept, except that an empty string
      comes back as null. */
  lemma TextRoundTrip(column: Option<string>)
    ensures TextPayload(TextForm(column)) == if column == Some("") then None else column
  {
  }

  /** " " + x for every item after the first: the pieces a ", "-join leaves
      between commas. */
  function BlankPrefixed(xs: seq<string>): (r: seq<string>)
    ensures |r| == |xs|
    ensures forall i :: 0 <= i < |xs| ==> r[i] == " " + xs[i]
  {
    seq(|xs|, i requires 0 <= i < |xs| => " " + xs[i])
  }

  /** Joining with ", " is joining with "," after prefixing a blank. */
  lemma {:induction false} JoinCommaBlank(ys: seq<string>)
    requires |ys| >= 1
    ensures ", " + Join(ys, ", ") == "," + Join(BlankPrefixed(ys), ",")
    decreases |ys|
  {
    var b := BlankPrefixed(ys);
    if |ys| > 1 {
      JoinCommaBlank(ys[1..]);
      assert BlankPrefixed(ys[1..]) == b[1..];
      calc {
        ", " + Join(ys, ", ");
        ", " + (ys[0] + ", " + Join(ys[1..], ", "));
        ", " + ys[0] + (", " + Join(ys[1..], ", "));
        ", " + ys[0] + ("," + Join(b[1..], ","));
        "," + (b[0] + "," + Join(b[1..], ","));
        "," + Join(b, ",");
      }
    } else {
      assert ", " + ys[0] == "," + (" " + ys[0]);
    }
  }

  /** The pieces between commas of a ", "-join. */
  function CommaPieces(xs: seq<string>): (r: seq<string>)
    requires |xs| >= 1
    ensures |r| == |xs| && r[0] == xs[0]
    ensures forall i :: 1 <= i < |xs| ==> r[i] == " " + xs[i]
  {
    [xs[0]] + BlankPrefixed(xs[1..])
  }

  /** One unfolding of a join of two or more items. */
  lemma JoinStep(ys: seq<string>, sep: string)
    requires |ys| >= 2
    ensures Join(ys, sep) == ys[0] + (sep + Join(ys[1..], sep))
  {
    assert ys[0] + sep + Join(ys[1..], sep) == ys[0] + (sep + Join(ys[1..], sep));
  }

  /** A ", "-join is the ","-join of its pieces. */
  lemma JoinAsCommaPieces(xs: seq<string>)
    requires |xs| >= 1
    ensures Join(xs, ", ") == Join(CommaPieces(xs), ",")
  {
    var pieces := CommaPieces(xs);
    if |xs| > 1 {
      JoinCommaBlank(xs[1..]);
      assert pieces[1..] == BlankPrefixed(xs[1..]);
      JoinStep(xs, ", ");
      JoinStep(pieces, ",");
    }
  }

  /** Blank-prefixing comma-free items keeps them comma-free. */
  lemma CommaPiecesCommaFree(xs: seq<string>)
    requires |xs| >= 1 && forall i :: 0 <= i < |xs| ==> ',' !in xs[i]
    ensures forall i :: 0 <= i < |xs| ==> ',' !in CommaPieces(xs)[i]
  {
    var pieces := CommaPieces(xs);
    forall i | 0 <= i < |pieces|
      ensures ',' !in pieces[i]
    {
      if i > 0 {
        assert pieces[i] == " " + xs[i];
        assert ',' !in " ";
      }
    }
  }

  /** A ", "-join of comma-free items splits on "," into its pieces. */
  lemma SplitCommaBlankJoin(xs: seq<string>)
    requires |xs| >= 1 && forall i :: 0 <= i < |xs| ==> ',' !in xs[i]
    ensures Split(Join(xs, ", "), ',') == CommaPieces(xs)
  {
    JoinAsCommaPieces(xs);
    CommaPiecesCommaFree(xs);
    SplitJoin(CommaPieces(xs), ',');
  }

  /** Loading then saving a list column: a list of trimmed, comma-free items
      whose join is not empty comes back unchanged; one whose join is empty
      (no items, or a single empty item) comes back as null. */
  lemma ListRoundTrip(items: seq<string>)
    requires forall i :: 0 <= i < |items| ==> IsTrimmed(items[i]) && ',' !in items[i]
    ensures ListPayload(ListForm(Some(items))) == if Join(items, ", ") == "" then None else Some(items)
  {
    var field := Join(items, ", ");
    if field != "" {
      assert items != [];
      SplitCommaBlankJoin(items);
      TrimCommaPieces(items);
      assert ListPayload(field) == Some(TrimEach(CommaPieces(items)));
    }
  }

  /** Trimming the pieces of a ", "-join of trimmed items gives the items. */
  lemma TrimCommaPieces(items: seq<string>)
    requires |items| >= 1 && forall i :: 0 <= i < |items| ==> IsTrimmed(items[i])
    ensures TrimEach(CommaPieces(items)) == items
  {
    var r := TrimEach(CommaPieces(items));
    forall i | 0 <= i < |items|
      ensures r[i] == items[i]
    {
      if i > 0 {
        TrimDropsLeadingBlank(items[i]);
      }
    }
  }

  /** A trailing comma saves an empty item. */
  lemma TrailingCommaGivesEmptyItem()
    ensures ListPayload("Peanuts, ") == Some(["Peanuts", ""])
  {
    PeanutsCommaPieces();
    assert IsTrimmed("Peanuts");
    assert AllWhitespace(" ");
    assert TrimEach(["Peanuts", " "]) == ["Peanuts", ""];
  }

  lemma PeanutsCommaPieces()
    ensures Split("Peanuts, ", ',') == ["Peanuts", " "]
  {
    assert "Peanuts, " == "Peanuts" + [','] + " ";
    FirstSeparator("Peanuts", ',', " ");
    assert Split(" ", ',') == [" "];
  }

  /** A null list column stays null. */
  lemma ListRoundTripNull()
    ensures ListPayload(ListForm(None)) == None
  {
  }

  /** Items with text: trimmed, comma-free and non-empty. */
  predicate CleanItems(column: Option<seq<string>>) {
    column.Some? ==> forall i :: 0 <= i < |column.value| ==>
      IsTrimmed(column.value[i]) && ',' !in column.value[i] && column.value[i] != ""
  }

  /** A profile as a save would write it back: empty text is null, and so is
      an empty list. */
  function Normalized(p: HealthProfile): HealthProfile {
    HealthProfile(NormalText(p.bloodGroup), NormalText(p.emergencyContactName), NormalText(p.emergencyContactPhone),
                  NormalList(p.allergies), NormalList(p.conditions), NormalList(p.medications))
  }

  function NormalText(column: Option<string>): Option<string> {
    if column == Some("") then None else column
  }

  function NormalList(column: Option<seq<string>>): Option<seq<string>> {
    if column == Some([]) then None else column
  }

  /** Load then save, with nothing edited, writes the profile back
      unchanged up to empty values becoming null, provided every list item
      is trimmed, comma-free and non-empty. */
  lemma LoadSaveRoundTrip(p: HealthProfile)
    requires CleanItems(p.allergies) && CleanItems(p.conditions) && CleanItems(p.medications)
    ensures PayloadFromForm(FormFromProfile(p)) == Normalized(p)
  {
    TextRoundTrip(p.bloodGroup);
    TextRoundTrip(p.emergencyContactName);
    TextRoundTrip(p.emergencyContactPhone);
    CleanListRoundTrip(p.allergies);
    CleanListRoundTrip(p.conditions);
    CleanListRoundTrip(p.medications);
  }

  lemma CleanListRoundTrip(column: Option<seq<string>>)
    requires CleanItems(column)
    ensures ListPayload(ListForm(column)) == NormalList(column)
  {
    if column.Some? {
      var items := column.value;
      ListRoundTrip(items);
      if items != [] {
        assert Join(items, ", ") != "" by {
          NonEmptyFirstJoin(items, ", ");
        }
      }
    }
  }

  /** A join starts with its first item. */
  lemma NonEmptyFirstJoin(items: seq<string>, sep: string)
    requires |items| >= 1 && items[0] != ""
    ensures |Join(items, sep)| >= |items[0]| > 0
  {
  }

  /** Which request a save sends. */
  datatype SaveRequest = UpdateProfile(payload: HealthProfile) | InsertProfile(payload: HealthProfile)

  /** An update when a profile was loaded, an insert otherwise. */
  function SaveRequestFor(loaded: Option<HealthProfile>, form: HealthForm): (r: SaveRequest)
    ensures r.UpdateProfile? <==> loaded.Some?
    ensures r.payload == PayloadFromForm(form)
  {
    if loaded.Some? then UpdateProfile(PayloadFromForm(form)) else InsertProfile(PayloadFromForm(form))
  }

  /** The form's inputs. */
  datatype FormField = BloodGroup | EmergencyContactName | EmergencyContactPhone | Allergies | Conditions | Medications

  function FieldOf(f: HealthForm, field: FormField): string {
    match field
    case BloodGroup => f.bloodGroup
    case EmergencyContactName => f.emergencyContactName
    case EmergencyContactPhone => f.emergencyContactPhone
    case Allergies => f.allergies
    case Conditions => f.conditions
    case Medications => f.medications
  }

  /** `setFormData({ ...formData, <field>: value })`: the named field takes
      the value and every other field keeps its own. */
  function WithField(f: HealthForm, field: FormField, value: string): (r: HealthForm)
    ensures forall other :: FieldOf(r, other) == if other == field then value else FieldOf(f, other)
  {
    match field
    case BloodGroup => f.(bloodGroup := value)
    case EmergencyContactName => f.(emergencyContactName := value)
    case EmergencyContactPhone => f.(emergencyContactPhone := value)
    case Allergies => f.(allergies := value)
    case Conditions => f.(conditions := value)
    case Medications => f.(medications := value)
  }

  class DashboardState {
    var healthProfile: Option<HealthProfile>
    var sosAlerts: seq<Alert>
    var loading: bool
    var saving: bool
    var formData: HealthForm

    constructor ()
      ensures healthProfile == None && sosAlerts == [] && loading && !saving && formData == EmptyForm
    {
      healthProfile := None;
      sosAlerts := [];
      loading := true;
      saving := false;
      formData := EmptyForm;
    }

    /** A realtime INSERT on the alerts table. */
    method HandleInsert(inserted: Alert)
      modifies this`sosAlerts
      ensures sosAlerts == OnInsert(old(sosAlerts), inserted)
    {
      sosAlerts := [inserted] + sosAlerts;
    }

    /** A realtime UPDATE on the alerts table. */
    method HandleUpdate(updated: Alert)
      modifies this`sosAlerts
      ensures sosAlerts == OnUpdate(old(sosAlerts), updated)
    {
      sosAlerts := seq(|sosAlerts|, i requires 0 <= i < |sosAlerts| reads this =>
        if sosAlerts[i].id == updated.id then updated else sosAlerts[i]);
    }

    /** `fetchData` with the two query results: a found profile replaces the
        loaded one and refills the form (a missing one leaves both as they
        were); the alert list becomes the query's rows, or empty when the
        query gave none. */
    method FetchData(healthRow: Option<HealthProfile>, activeAlerts: Option<seq<Alert>>)
      modifies this
      ensures healthRow.Some? ==> healthProfile == healthRow && formData == FormFromProfile(healthRow.value)
      ensures healthRow.None? ==> healthProfile == old(healthProfile) && formData == old(formData)
      ensures sosAlerts == activeAlerts.GetOr([])
      ensures !loading && saving == old(saving)
    {
      loading := true;
      if healthRow.Some? {
        healthProfile := healthRow;
        formData := FormFromProfile(healthRow.value);
      }
      sosAlerts := activeAlerts.GetOr([]);
      loading := false;
    }

    /** An edit in one of the form's inputs. */
    method EditField(field: FormField, value: string)
      modifies this`formData
      ensures formData == WithField(old(formData), field, value)
    {
      formData := WithField(formData, field, value);
    }

    /** `saveHealthProfile`: the request sent, and whether the data is then
        fetched again (only when the server reported no error). */
    method SaveHealthProfile(serverError: Option<string>) returns (request: SaveRequest, refetch: bool)
      modifies this`saving
      ensures request == SaveRequestFor(healthProfile, formData)
      ensures refetch <==> serverError.None?
      ensures saving == false
    {
      saving := true;
      var payload := PayloadFromForm(formData);
      if healthProfile.Some? {
        request := UpdateProfile(payload);
      } else {
        request := InsertProfile(payload);
      }
      refetch := serverError.None?;
      saving := false;
    }
  }
}
