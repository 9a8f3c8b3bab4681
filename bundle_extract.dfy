/** The three extractors of `PatientViewer`: the Patient resource, and the
    resources a Composition section lists (allergies, medications). Every
    absence along the way yields "nothing found", never an error. */
module BundleExtract {
  import opened Wrappers
  import opened JsSemantics
  import opened FhirShape

  const PatientType: string := "Patient"
  const CompositionType: string := "Composition"
  const AllergiesTitle: string := "Allergies"
  const MedicationsTitle: string := "Medications"

  /** `entry.resource && entry.resource.resourceType === ty` */
  predicate HasResourceType(e: Entry, ty: string) {
    e.resource.Some? && e.resource.value.resourceType == Some(ty)
  }

  predicate IsPatientEntry(e: Entry) { HasResourceType(e, PatientType) }

  predicate IsCompositionEntry(e: Entry) { HasResourceType(e, CompositionType) }

  /** `section.title === title` */
  predicate HasTitle(s: Section, title: string) { s.title == Some(title) }

  /** `e.fullUrl && e.fullUrl.includes(key)`: a non-empty full URL containing `key`. */
  predicate UrlMatches(e: Entry, key: string) {
    e.fullUrl.Some? && e.fullUrl.value != "" && Includes(e.fullUrl.value, key)
  }

  /** The entries a lookup scans: an absent list scans like an empty one. */
  function Entries(data: Option<Bundle>): (r: seq<Entry>)
    ensures data.None? || data.value.entry.None? ==> r == []
    ensures data.Some? && data.value.entry.Some? ==> r == data.value.entry.value
  {
    if data.Some? && data.value.entry.Some? then data.value.entry.value else []
  }

  // ---------------------------------------------------------------------------
  // extractPatientInfo

  /** The resource of the first entry whose resource is a Patient; nothing when
      there is no data, no entry list, or no Patient. */
  function ExtractPatientInfo(data: Option<Bundle>): (r: Option<Resource>)
    ensures r.Some? <==> exists i :: 0 <= i < |Entries(data)| && IsPatientEntry(Entries(data)[i])
    ensures r.Some? ==> r.value.resourceType == Some(PatientType)
    ensures r.Some? ==> exists i :: IsFirstWhere(Entries(data), i, IsPatientEntry) && Entries(data)[i].resource == r
  {
    if data.None? || data.value.entry.None? then None
    else
      var entries := data.value.entry.value;
      match Find(entries, IsPatientEntry)
      case None => None
      case Some(i) => assert IsPatientEntry(Entries(data)[i]); entries[i].resource
  }

  // ---------------------------------------------------------------------------
  // Reference resolution: `data.entry.find(e => e.fullUrl && e.fullUrl.includes(id))?.resource`

  /** What `includes` is handed for a reference: its second `/`-separated segment. */
  function ReferenceKey(ref: Reference): string {
    SecondSegment(ref.reference)
  }

  /** The resource of the first entry whose non-empty full URL contains the
      reference's key; nothing when no entry matches or the first match has no
      resource. Containment, not equality, decides the match. */
  function Resolve(entries: seq<Entry>, ref: Reference): (r: Option<Resource>)
    ensures r.Some? ==> exists i :: IsFirstWhere(entries, i, (e: Entry) => UrlMatches(e, ReferenceKey(ref)))
                                    && entries[i].resource == r
    ensures NoneWhere(entries, (e: Entry) => UrlMatches(e, ReferenceKey(ref))) ==> r.None?
  {
    match Find(entries, (e: Entry) => UrlMatches(e, ReferenceKey(ref)))
    case None => None
    case Some(i) => entries[i].resource
  }

  /** `refs.map(resolve)`: one lookup per reference, in the section's order. */
  function Lookups(entries: seq<Entry>, refs: seq<Reference>): (r: seq<Option<Resource>>)
    ensures |r| == |refs|
    ensures forall k :: 0 <= k < |refs| ==> r[k] == Resolve(entries, refs[k])
  {
    seq(|refs|, k requires 0 <= k < |refs| => Resolve(entries, refs[k]))
  }

  /** `refs.map(resolve).filter(Boolean)` */
  function ResolveAll(entries: seq<Entry>, refs: seq<Reference>): (r: seq<Resource>)
    ensures |r| <= |refs|
  {
    Somes(Lookups(entries, refs))
  }

  // ---------------------------------------------------------------------------
  // extractAllergies / extractMedications

  /** The shared body of `extractAllergies` and `extractMedications`: the
      resources listed by the first section titled `title` of the first
      Composition entry, resolved against the entry list; empty when the data,
      the entry list, the Composition, its `section` list, the titled section
      or that section's `entry` list is missing. */
  function SectionResources(data: Option<Bundle>, title: string): (r: seq<Resource>)
    ensures (forall i :: 0 <= i < |Entries(data)| ==> !IsCompositionEntry(Entries(data)[i])) ==> r == []
  {
    if data.None? || data.value.entry.None? then []
    else
      var entries := data.value.entry.value;
      match Find(entries, IsCompositionEntry)
      case None => []
      case Some(c) =>
        assert IsCompositionEntry(Entries(data)[c]);
        var composition := entries[c].resource.value;
        if composition.section.None? then []
        else
          match Find(composition.section.value, (s: Section) => HasTitle(s, title))
          case None => []
          case Some(t) =>
            var section := composition.section.value[t];
            if section.entry.None? then []
            else ResolveAll(entries, section.entry.value)
  }

  function ExtractAllergies(data: Option<Bundle>): (r: seq<Resource>)
    ensures r == SectionResources(data, AllergiesTitle)
  {
    SectionResources(data, "Allergies")
  }

  function ExtractMedications(data: Option<Bundle>): (r: seq<Resource>)
    ensures r == SectionResources(data, MedicationsTitle)
  {
    SectionResources(data, "Medications")
  }

  // ---------------------------------------------------------------------------
  // Which section is consulted, and what absence yields

  /** The section-title test `find` applies to a Composition's sections. */
  function TitleTest(title: string): Section -> bool {
    (s: Section) => HasTitle(s, title)
  }

  /** Only the first Composition entry and, within it, the first section with the
      exact title are consulted: the result is that section's references
      resolved against the whole entry list, or empty when it has no `entry`. */
  lemma SectionResourcesFromFirstMatches(data: Option<Bundle>, title: string, c: nat, t: nat)
    requires IsFirstWhere(Entries(data), c, IsCompositionEntry)
    requires Entries(data)[c].resource.value.section.Some?
    requires IsFirstWhere(Entries(data)[c].resource.value.section.value, t, TitleTest(title))
    ensures var section := Entries(data)[c].resource.value.section.value[t];
            SectionResources(data, title) ==
              if section.entry.None? then [] else ResolveAll(Entries(data), section.entry.value)
  {
  }

  /** A first Composition without a `section` list gives an empty result. */
  lemma NoSectionListGivesEmpty(data: Option<Bundle>, title: string, c: nat)
    requires IsFirstWhere(Entries(data), c, IsCompositionEntry)
    requires Entries(data)[c].resource.value.section.None?
    ensures SectionResources(data, title) == []
  {
  }

  /** A first Composition with no section titled exactly `title` gives an empty
      result, whatever later Compositions hold. */
  lemma NoTitledSectionGivesEmpty(data: Option<Bundle>, title: string, c: nat)
    requires IsFirstWhere(Entries(data), c, IsCompositionEntry)
    requires Entries(data)[c].resource.value.section.Some?
    requires NoneWhere(Entries(data)[c].resource.value.section.value, TitleTest(title))
    ensures SectionResources(data, title) == []
  {
  }

  // ---------------------------------------------------------------------------
  // Properties of reference resolution

  /** The entry that decides a lookup is the first one whose URL matches. */
  lemma ResolveFirstMatch(entries: seq<Entry>, ref: Reference, i: nat)
    requires IsFirstWhere(entries, i, (e: Entry) => UrlMatches(e, ReferenceKey(ref)))
    ensures Resolve(entries, ref) == entries[i].resource
  {
  }

  /** One result per resolving reference: nothing is dropped exactly when every
      reference resolves, and then the i-th result is the i-th reference's resource. */
  lemma ResolveAllComplete(entries: seq<Entry>, refs: seq<Reference>)
    ensures |ResolveAll(entries, refs)| == |refs| <==>
              forall k :: 0 <= k < |refs| ==> Resolve(entries, refs[k]).Some?
    ensures (forall k :: 0 <= k < |refs| ==> Resolve(entries, refs[k]).Some?) ==>
              forall k :: 0 <= k < |refs| ==> ResolveAll(entries, refs)[k] == Resolve(entries, refs[k]).value
  {
    SomesAllPresent(Lookups(entries, refs));
  }

  /** The section's reference order is kept: resolving a concatenation of
      reference lists is the concatenation of the results. */
  lemma ResolveAllAppend(entries: seq<Entry>, a: seq<Reference>, b: seq<Reference>)
    ensures ResolveAll(entries, a + b) == ResolveAll(entries, a) + ResolveAll(entries, b)
  {
    var la, lb, lab := Lookups(entries, a), Lookups(entries, b), Lookups(entries, a + b);
    forall k | 0 <= k < |lab| ensures lab[k] == (la + lb)[k] {
      if k < |a| {
        assert (a + b)[k] == a[k];
      } else {
        assert (a + b)[k] == b[k - |a|];
      }
    }
    assert lab == la + lb;
    SomesAppend(Lookups(entries, a), Lookups(entries, b));
  }

  /** A resource is in the result exactly when some reference resolves to it. */
  lemma ResolveAllMembership(entries: seq<Entry>, refs: seq<Reference>, x: Resource)
    ensures x in ResolveAll(entries, refs) <==>
              exists k :: 0 <= k < |refs| && Resolve(entries, refs[k]) == Some(x)
  {
    SomesMembership(Lookups(entries, refs), x);
    if Some(x) in Lookups(entries, refs) {
      var k :| 0 <= k < |refs| && Lookups(entries, refs)[k] == Some(x);
    }
  }

  // ---------------------------------------------------------------------------
  // Consequences of matching by substring

  /** Containment, not equality: the id `1` resolves to an earlier entry whose
      full URL ends in `11`, not to the entry whose URL ends in `1`. */
  lemma IdOneResolvesToEntryEleven(a: Resource, b: Resource)
    ensures Resolve([Entry(Some("urn:uuid:11"), Some(a)), Entry(Some("urn:uuid:1"), Some(b))],
                    Reference("AllergyIntolerance/1")) == Some(a)
  {
    var entries := [Entry(Some("urn:uuid:11"), Some(a)), Entry(Some("urn:uuid:1"), Some(b))];
    var ref := Reference("AllergyIntolerance/1");
    SecondSegmentOfTypedId("AllergyIntolerance", "1");
    assert "AllergyIntolerance" + "/" + "1" == ref.reference;
    IncludesChar("urn:uuid:11", '1');
    assert "urn:uuid:11"[10] == '1';
    assert UrlMatches(entries[0], ReferenceKey(ref));
    ResolveFirstMatch(entries, ref, 0);
  }

  /** A reference ending in `/` has an empty key, which every string includes:
      it resolves to the first entry with a non-empty full URL. */
  lemma TrailingSlashMatchesFirstUrl(entries: seq<Entry>, ty: string, i: nat)
    requires '/' !in ty
    requires IsFirstWhere(entries, i, (e: Entry) => e.fullUrl.Some? && e.fullUrl.value != "")
    ensures Resolve(entries, Reference(ty + "/")) == entries[i].resource
  {
    var ref := Reference(ty + "/");
    SecondSegmentOfTypedId(ty, "");
    assert ty + "/" + "" == ref.reference;
    IncludesEmpty(entries[i].fullUrl.value);
    ResolveFirstMatch(entries, ref, i);
  }

  /** A reference without `/` is looked up by the text "undefined". */
  lemma SlashlessReferenceSearchesUndefined(entries: seq<Entry>, ref: Reference)
    requires '/' !in ref.reference
    requires forall i :: 0 <= i < |entries| && entries[i].fullUrl.Some? ==> !Includes(entries[i].fullUrl.value, "undefined")
    ensures Resolve(entries, ref).None?
  {
  }

  /** References resolve in the section's order: when a section lists the
      reference to the second entry before the reference to the first, the
      second entry's resource comes first (for instance `Condition/2` then
      `Condition/1` against entries `urn:uuid:1`, `urn:uuid:2`). */
  lemma ReferenceOrderKept(ty: string, id1: string, id2: string, url1: string, url2: string,
                           r1: Resource, r2: Resource)
    requires '/' !in ty && '/' !in id1 && '/' !in id2
    requires url1 != "" && url2 != ""
    requires Includes(url1, id1) && !Includes(url1, id2) && Includes(url2, id2)
    ensures var entries := [Entry(Some(url1), Some(r1)), Entry(Some(url2), Some(r2))];
            ResolveAll(entries, [Reference(ty + "/" + id2), Reference(ty + "/" + id1)]) == [r2, r1]
  {
    var e1, e2 := Entry(Some(url1), Some(r1)), Entry(Some(url2), Some(r2));
    var refs := [Reference(ty + "/" + id2), Reference(ty + "/" + id1)];
    SecondSegmentOfTypedId(ty, id2);
    SecondSegmentOfTypedId(ty, id1);
    ResolveFirstMatch([e1, e2], refs[0], 1);
    ResolveFirstMatch([e1, e2], refs[1], 0);
    ResolveAllComplete([e1, e2], refs);
  }
}
