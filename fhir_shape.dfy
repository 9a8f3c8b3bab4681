/** The part of an HL7 FHIR R4 patient-summary Bundle that the viewer reads.
    The viewer treats the response as untyped JSON and null-checks each field
    it touches; every such field is an `Option` here, `None` standing for a
    field that is absent or `null`. Fields the viewer never reads are omitted. */
module FhirShape {
  import opened Wrappers

  datatype Coding = Coding(code: Option<string>, display: Option<string>)

  datatype CodeableConcept = CodeableConcept(coding: Option<seq<Coding>>)

  datatype Reaction = Reaction(manifestation: Option<seq<CodeableConcept>>)

  datatype HumanName = HumanName(given: Option<seq<string>>, family: Option<string>)

  datatype Address = Address(line: Option<seq<string>>, city: Option<string>, postalCode: Option<string>)

  /** `{ reference: "Type/id" }` inside a Composition section. */
  datatype Reference = Reference(reference: string)

  /** A Composition section: a title and the references it lists. */
  datatype Section = Section(title: Option<string>, entry: Option<seq<Reference>>)

  /** One resource, of whatever type: the union of the fields the viewer reads
      from a Composition (`section`), a Patient (`name` … `address`) and an
      AllergyIntolerance (`code` … `clinicalStatus`). */
  datatype Resource = Resource(
    resourceType: Option<string>,
    section: Option<seq<Section>>,
    name: Option<seq<HumanName>>,
    gender: Option<string>,
    birthDate: Option<string>,
    address: Option<seq<Address>>,
    code: Option<CodeableConcept>,
    reaction: Option<seq<Reaction>>,
    criticality: Option<string>,
    clinicalStatus: Option<CodeableConcept>)

  datatype Entry = Entry(fullUrl: Option<string>, resource: Option<Resource>)

  /** The parsed response body; its `entry` list may be missing. */
  datatype Bundle = Bundle(entry: Option<seq<Entry>>)
}
