/** What `PatientViewer` shows for a given state: the error panel, the three
    sections (only once data is held), the login redirect that replaces the
    demographics when unauthenticated, and the placeholder text used for each
    absent field of an allergy row or a patient. */
module ViewerRender {
  import opened Wrappers
  import opened JsSemantics
  import opened FhirShape
  import opened BundleExtract
  import opened FetchState

  const LoginPath: string := "/login"
  const UnknownText: string := "Unknown"
  const NotSpecifiedText: string := "Not specified"
  const HighText: string := "High"
  const NoAddressText: string := "N/A"

  /** The demographics card, or what replaces it. */
  datatype Demographics =
    | NoPatientInfo
    | RedirectTo(path: string)
    | PatientCard(fullName: string, gender: string, birthDate: string, address: string)

  /** One row of the allergy table; `highlighted` is the high-criticality row style. */
  datatype AllergyRow = AllergyRow(name: string, reaction: string, severity: string, status: string, highlighted: bool)

  datatype AllergyPanel = NoAllergyInfo | AllergyTable(rows: seq<AllergyRow>)

  /** The medication panel. `MedicationTable` is the table branch, reached with
      the resources it would list; its rows are not modelled because mapping
      them throws for every listed resource (each row reads `statement`, which
      an extracted resource never has), so in the source reaching this branch
      ends the render with an exception instead of a table. */
  datatype MedicationPanel = NoMedicationInfo | MedicationTable(medications: seq<Resource>)

  datatype Sections = Sections(demographics: Demographics, allergies: AllergyPanel, medications: MedicationPanel)

  /** The whole component: whether the trigger button is enabled, the error
      panel's text if one shows, and the sections if they show. */
  datatype PageView = PageView(triggerEnabled: bool, errorPanel: Option<string>, sections: Option<Sections>)

  /** A field rendered as JSX text: an absent value renders as nothing. */
  function Text(s: Option<string>): string {
    s.GetOr("")
  }

  /** `arr?.join(sep)` */
  function JoinOpt(arr: Option<seq<string>>, sep: string): (r: Option<string>)
    ensures r.Some? <==> arr.Some?
    ensures r.Some? ==> r.value == Join(arr.value, sep)
  {
    if arr.Some? then Some(Join(arr.value, sep)) else None
  }

  /** `concept?.coding?.[0]?.display` */
  function FirstDisplay(concept: Option<CodeableConcept>): Option<string> {
    if concept.Some? && FirstOf(concept.value.coding).Some? then FirstOf(concept.value.coding).value.display else None
  }

  /** `concept?.coding?.[0]?.code` */
  function FirstCode(concept: Option<CodeableConcept>): Option<string> {
    if concept.Some? && FirstOf(concept.value.coding).Some? then FirstOf(concept.value.coding).value.code else None
  }

  /** `allergy.reaction?.[0]?.manifestation?.[0]?.coding?.[0]?.display` */
  function ReactionDisplay(a: Resource): Option<string> {
    var reaction := FirstOf(a.reaction);
    if reaction.Some? then FirstDisplay(FirstOf(reaction.value.manifestation)) else None
  }

  // ---------------------------------------------------------------------------
  // Allergy rows

  /** One allergy row: each cell shows its field when the path to it is present
      and non-empty, and its placeholder otherwise; a criticality of exactly
      "high" shows as "High" and highlights the row. */
  function AllergyRowOf(a: Resource): (row: AllergyRow)
    ensures row.name != "" && row.reaction != "" && row.severity != "" && row.status != ""
    ensures row.name == (if HasText(FirstDisplay(a.code)) then FirstDisplay(a.code).value else UnknownText)
    ensures row.reaction == (if HasText(ReactionDisplay(a)) then ReactionDisplay(a).value else NotSpecifiedText)
    ensures row.status == (if HasText(FirstCode(a.clinicalStatus)) then FirstCode(a.clinicalStatus).value else UnknownText)
    ensures row.highlighted <==> a.criticality == Some("high")
    ensures row.severity == (if a.criticality == Some("high") then HighText
                             else if HasText(a.criticality) then a.criticality.value
                             else NotSpecifiedText)
  {
    var high := a.criticality == Some("high");
    AllergyRow(
      OrElse(FirstDisplay(a.code), UnknownText),
      OrElse(ReactionDisplay(a), NotSpecifiedText),
      if high then HighText else OrElse(a.criticality, NotSpecifiedText),
      OrElse(FirstCode(a.clinicalStatus), UnknownText),
      high)
  }

  /** `allergies.map(row)` */
  function AllergyRows(allergies: seq<Resource>): (rows: seq<AllergyRow>)
    ensures |rows| == |allergies|
    ensures forall i :: 0 <= i < |allergies| ==> rows[i] == AllergyRowOf(allergies[i])
  {
    seq(|allergies|, i requires 0 <= i < |allergies| => AllergyRowOf(allergies[i]))
  }

  /** `renderAllergies`: the empty-state card when nothing was extracted, else
      one row per extracted allergy, in order. */
  function RenderAllergies(data: Option<Bundle>): (panel: AllergyPanel)
    ensures panel.NoAllergyInfo? <==> ExtractAllergies(data) == []
    ensures panel.AllergyTable? ==> panel.rows == AllergyRows(ExtractAllergies(data))
  {
    var allergies := ExtractAllergies(data);
    if |allergies| == 0 then NoAllergyInfo else AllergyTable(AllergyRows(allergies))
  }

  /** `renderMedications`, up to the rows: the empty-state card when nothing
      was extracted, otherwise the table branch, whose rows throw. */
  function RenderMedications(data: Option<Bundle>): (panel: MedicationPanel)
    ensures panel.NoMedicationInfo? <==> ExtractMedications(data) == []
    ensures panel.MedicationTable? ==> panel.medications == ExtractMedications(data)
  {
    var medications := ExtractMedications(data);
    if |medications| == 0 then NoMedicationInfo else MedicationTable(medications)
  }

  // ---------------------------------------------------------------------------
  // Demographics

  /** `{name?.[0]?.given?.join(" ")}{" "}{name?.[0]?.family}` */
  function FullName(p: Resource): (r: string)
    ensures var n := FirstOf(p.name);
            n.None? ==> r == " "
    ensures var n := FirstOf(p.name);
            n.Some? ==> var given := Text(JoinOpt(n.value.given, " "));
                        |r| == |given| + 1 + |Text(n.value.family)| && given <= r && r[|given|] == ' ' &&
                        r[|given| + 1..] == Text(n.value.family)
    ensures var n := FirstOf(p.name);
            n.Some? && n.value.given.Some? ==> Join(n.value.given.value, " ") <= r
  {
    var n := FirstOf(p.name);
    if n.None? then " "
    else
      var given := Text(JoinOpt(n.value.given, " "));
      var r := given + " " + Text(n.value.family);
      assert given <= r && r[|given| + 1..] == Text(n.value.family);
      r
  }

  /** The address line of the card: the joined lines or "N/A", then the city
      and the postal code, each followed by ", " when what precedes it is set. */
  function FormatAddress(p: Resource): (r: string)
    ensures FirstOf(p.address).None? ==> r == NoAddressText
    ensures r != ""
    ensures var a := FirstOf(p.address);
            a.Some? && HasText(a.value.postalCode) ==>
              |a.value.postalCode.value| <= |r| && r[|r| - |a.value.postalCode.value|..] == a.value.postalCode.value
    ensures var a := FirstOf(p.address);
            a.Some? && HasText(JoinOpt(a.value.line, ", ")) ==> Join(a.value.line.value, ", ") <= r
    ensures var a := FirstOf(p.address);
            !(a.Some? && HasText(JoinOpt(a.value.line, ", "))) ==> NoAddressText <= r
    ensures var a := FirstOf(p.address);
            a.Some? && a.value.line.Some? && HasText(a.value.city) ==>
              r == OrElse(JoinOpt(a.value.line, ", "), NoAddressText) + ", " + a.value.city.value + ", " + OrElse(a.value.postalCode, "")
    ensures var a := FirstOf(p.address);
            a.Some? && a.value.line.Some? && !HasText(a.value.city) ==>
              r == OrElse(JoinOpt(a.value.line, ", "), NoAddressText) + ", " + OrElse(a.value.postalCode, "")
    ensures var a := FirstOf(p.address);
            a.Some? && a.value.line.None? && HasText(a.value.city) ==>
              r == NoAddressText + a.value.city.value + ", " + OrElse(a.value.postalCode, "")
    ensures var a := FirstOf(p.address);
            a.Some? && a.value.line.None? && !HasText(a.value.city) ==>
              r == NoAddressText + OrElse(a.value.postalCode, "")
  {
    var a := FirstOf(p.address);
    var line := if a.Some? then a.value.line else None;
    var city := if a.Some? then a.value.city else None;
    var postalCode := if a.Some? then a.value.postalCode else None;
    var head := OrElse(JoinOpt(line, ", "), NoAddressText);
    var rest := (if line.Some? then ", " else "") + OrElse(city, "") + (if HasText(city) then ", " else "") + OrElse(postalCode, "");
    assert head <= head + rest;
    head + rest
  }

  /** `renderPatientInfo`: no Patient gives the "no information" text; a Patient
      gives the card when authenticated and a redirect to `/login` otherwise. */
  function RenderPatientInfo(data: Option<Bundle>, isAuthenticated: bool): (d: Demographics)
    ensures d.NoPatientInfo? <==> ExtractPatientInfo(data).None?
    ensures d.RedirectTo? <==> ExtractPatientInfo(data).Some? && !isAuthenticated
    ensures d.RedirectTo? ==> d.path == LoginPath
    ensures d.PatientCard? ==> isAuthenticated && d.address == FormatAddress(ExtractPatientInfo(data).value)
    ensures d.PatientCard? ==> var p := ExtractPatientInfo(data).value;
            d.fullName == FullName(p) && d.gender == Text(p.gender) && d.birthDate == Text(p.birthDate)
  {
    match ExtractPatientInfo(data)
    case None => NoPatientInfo
    case Some(p) =>
      if isAuthenticated then PatientCard(FullName(p), Text(p.gender), Text(p.birthDate), FormatAddress(p))
      else RedirectTo(LoginPath)
  }

  // ---------------------------------------------------------------------------
  // The component

  /** What the component renders for its state. */
  function RenderPage(loading: bool, error: Option<string>, patientData: Option<Bundle>, isAuthenticated: bool): (v: PageView)
    ensures v.triggerEnabled <==> !loading
    ensures v.errorPanel.Some? <==> HasText(error)
    ensures v.errorPanel.Some? ==> v.errorPanel == error
    ensures v.sections.Some? <==> patientData.Some?
    ensures v.sections.Some? ==>
              v.sections.value == Sections(RenderPatientInfo(patientData, isAuthenticated),
                                           RenderAllergies(patientData), RenderMedications(patientData))
  {
    PageView(
      !loading,
      if HasText(error) then error else None,
      if patientData.Some? then
        Some(Sections(RenderPatientInfo(patientData, isAuthenticated), RenderAllergies(patientData), RenderMedications(patientData)))
      else None)
  }

  /** Authentication decides only the demographics: the allergy and medication
      sections are the same either way, and the demographics differ only when
      there is a Patient to show. */
  lemma AuthenticationGatesOnlyDemographics(loading: bool, error: Option<string>, patientData: Option<Bundle>)
    requires patientData.Some?
    ensures var signedIn := RenderPage(loading, error, patientData, true).sections.value;
            var signedOut := RenderPage(loading, error, patientData, false).sections.value;
            signedIn.allergies == signedOut.allergies &&
            signedIn.medications == signedOut.medications &&
            (signedIn.demographics == signedOut.demographics <==> ExtractPatientInfo(patientData).None?)
  {
  }

  /** The page after a request that got a status outside 200-299: an error panel
      carrying the status in decimal, and no sections. */
  lemma HttpFailurePage(status: nat, body: Body, isAuthenticated: bool)
    requires !IsOk(status)
    ensures var o := Response(status, body);
            var v := RenderPage(false, ErrorAfter(o), DataAfter(o), isAuthenticated);
            v.triggerEnabled && v.sections.None? && v.errorPanel.Some? &&
            HttpErrorPrefix <= v.errorPanel.value &&
            DecimalValue(v.errorPanel.value[|HttpErrorPrefix|..]) == status
  {
  }

  /** A page showing allergy rows never shows a blank cell. */
  lemma AllergyCellsNeverBlank(data: Option<Bundle>, i: nat)
    requires RenderAllergies(data).AllergyTable? && i < |RenderAllergies(data).rows|
    ensures var row := RenderAllergies(data).rows[i];
            row.name != "" && row.reaction != "" && row.severity != "" && row.status != ""
  {
  }

  // ---------------------------------------------------------------------------
  // A whole summary, end to end

  /** A summary bundle: a Composition, a Patient, one allergy and one medication,
      each under its own full URL. */
  function SummaryBundle(comp: Resource, patient: Resource, allergy: Resource, med: Resource,
                         cu: string, pu: string, au: string, mu: string): Option<Bundle>
  {
    Some(Bundle(Some([Entry(Some(cu), Some(comp)), Entry(Some(pu), Some(patient)),
                      Entry(Some(au), Some(allergy)), Entry(Some(mu), Some(med))])))
  }

  /** The Composition of that bundle: an "Allergies" section listing one
      reference and a "Medications" section listing one. */
  function SummarySections(allergyRef: Reference, medRef: Reference): seq<Section> {
    [Section(Some(AllergiesTitle), Some([allergyRef])), Section(Some(MedicationsTitle), Some([medRef]))]
  }

  /** The preconditions shared by the summary lemmas: resource types, the
      Composition's sections, and full URLs that each contain only their own id. */
  ghost predicate WellFormedSummary(comp: Resource, patient: Resource, cu: string, pu: string, au: string, mu: string,
                                    aty: string, aid: string, mty: string, mid: string)
  {
    && comp.resourceType == Some(CompositionType)
    && patient.resourceType == Some(PatientType)
    && comp.section == Some(SummarySections(Reference(aty + "/" + aid), Reference(mty + "/" + mid)))
    && '/' !in aty && '/' !in aid && '/' !in mty && '/' !in mid
    && au != "" && mu != ""
    && !Includes(cu, aid) && !Includes(pu, aid) && Includes(au, aid)
    && !Includes(cu, mid) && !Includes(pu, mid) && !Includes(au, mid) && Includes(mu, mid)
  }

  lemma {:induction false} SummaryAllergies(comp: Resource, patient: Resource, allergy: Resource, med: Resource,
                                            cu: string, pu: string, au: string, mu: string,
                                            aty: string, aid: string, mty: string, mid: string)
    requires WellFormedSummary(comp, patient, cu, pu, au, mu, aty, aid, mty, mid)
    ensures ExtractAllergies(SummaryBundle(comp, patient, allergy, med, cu, pu, au, mu)) == [allergy]
  {
    var data := SummaryBundle(comp, patient, allergy, med, cu, pu, au, mu);
    var entries := Entries(data);
    var ref := Reference(aty + "/" + aid);
    SecondSegmentOfTypedId(aty, aid);
    assert IsFirstWhere(entries, 0, IsCompositionEntry);
    assert IsFirstWhere(comp.section.value, 0, TitleTest(AllergiesTitle));
    SectionResourcesFromFirstMatches(data, AllergiesTitle, 0, 0);
    ResolveFirstMatch(entries, ref, 2);
    ResolveAllComplete(entries, [ref]);
  }

  lemma {:induction false} SummaryMedications(comp: Resource, patient: Resource, allergy: Resource, med: Resource,
                                              cu: string, pu: string, au: string, mu: string,
                                              aty: string, aid: string, mty: string, mid: string)
    requires WellFormedSummary(comp, patient, cu, pu, au, mu, aty, aid, mty, mid)
    ensures ExtractMedications(SummaryBundle(comp, patient, allergy, med, cu, pu, au, mu)) == [med]
  {
    var data := SummaryBundle(comp, patient, allergy, med, cu, pu, au, mu);
    var entries := Entries(data);
    var ref := Reference(mty + "/" + mid);
    SecondSegmentOfTypedId(mty, mid);
    assert IsFirstWhere(entries, 0, IsCompositionEntry);
    assert AllergiesTitle != MedicationsTitle;
    assert IsFirstWhere(comp.section.value, 1, TitleTest(MedicationsTitle));
    SectionResourcesFromFirstMatches(data, MedicationsTitle, 0, 1);
    ResolveFirstMatch(entries, ref, 3);
    ResolveAllComplete(entries, [ref]);
  }

  /** For the summary of one Patient, one allergy and one medication, when
      authenticated: the Patient's card, one allergy row, and the medication
      table branch listing that medication. In the source that branch throws
      while mapping its row, so the page as a whole is not rendered. */
  lemma SummaryReachesEachSection(comp: Resource, patient: Resource, allergy: Resource, med: Resource,
                                 cu: string, pu: string, au: string, mu: string,
                                 aty: string, aid: string, mty: string, mid: string)
    requires WellFormedSummary(comp, patient, cu, pu, au, mu, aty, aid, mty, mid)
    ensures RenderPage(false, None, SummaryBundle(comp, patient, allergy, med, cu, pu, au, mu), true).sections ==
              Some(Sections(PatientCard(FullName(patient), Text(patient.gender), Text(patient.birthDate), FormatAddress(patient)),
                            AllergyTable([AllergyRowOf(allergy)]),
                            MedicationTable([med])))
  {
    var data := SummaryBundle(comp, patient, allergy, med, cu, pu, au, mu);
    SummaryAllergies(comp, patient, allergy, med, cu, pu, au, mu, aty, aid, mty, mid);
    SummaryMedications(comp, patient, allergy, med, cu, pu, au, mu, aty, aid, mty, mid);
    FindIsFirst(Entries(data), IsPatientEntry, 1);
    assert AllergyRows([allergy]) == [AllergyRowOf(allergy)];
  }
}
