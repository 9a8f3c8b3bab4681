# PatientViewer: bundle extraction and fetch state, in Dafny

This project models the logic of `PatientViewer` (`src/components/JsonViewer.tsx`)
in the ips-viewer web app. A user enters a patient id. The component fetches a
patient-summary bundle shaped like an HL7 FHIR R4 Bundle. It then shows:

- the Patient's demographics;
- the allergies and medications listed by the Composition's "Allergies" and
  "Medications" sections.

Four parts are modelled:

- **Extractors** (`bundle_extract.dfy`). `ExtractPatientInfo` returns the first
  Patient resource. `SectionResources(data, title)` is the shared body of
  `extractAllergies` and `extractMedications`. It finds the first Composition,
  then that Composition's first section with the exact title. Each reference's
  second `/`-segment is then resolved to the resource of the first entry whose
  non-empty `fullUrl` contains that segment. Unresolved references are dropped.
  Every absence gives `null` or `[]`, never an error.
- **JavaScript semantics** (`js_semantics.dfy`). The built-ins the extractors
  rely on:
  - `find`, as a first-match index;
  - `.filter(Boolean)`;
  - `join` and `includes`;
  - `split("/")[1]`, which yields the text `"undefined"` when there is no `/`;
  - the decimal rendering of a status code;
  - `||` on strings (an empty string counts as absent).
- **Fetch state** (`fetch_state.dfy`). The class `PatientViewer` has the fields
  `patientId`, `loading`, `error` and `patientData`. `StartFetch` is the part of
  `fetchPatientData` before the `await`. `FinishFetch` is the `try`/`catch`/`finally`
  after it. `FetchPatientData` composes the two. The network exchange is an input
  (`FetchOutcome`).
- **View decisions** (`viewer_render.dfy`). These cover:
  - the error panel;
  - showing the sections only when data is held;
  - the `/login` redirect that replaces the demographics when unauthenticated;
  - the allergy-row placeholders;
  - the address line.

Two behaviours of the code are worth stating up front:

- The code takes the first Composition entry and, in it, the first section with
  the exact title; later Compositions and duplicate titles are never read.
  `SectionResourcesFromFirstMatches` states this.
- A 2xx response whose body is JSON `null` leaves neither an error nor data.
  `ExactlyOneUnlessNullBody` states this.

## Model

| member | source | states |
|---|---|---|
| `JsSemantics.Find` | src/components/JsonViewer.tsx:76-79 | `find` gives the first element satisfying the test: everything before it fails the test, and nothing means no element passes |
| `JsSemantics.FindIsFirst` | src/components/JsonViewer.tsx:88-91 | any index that is a first match is the one `find` returns |
| `JsSemantics.Somes` | src/components/JsonViewer.tsx:107 | `.filter(Boolean)` keeps at most one value per input |
| `JsSemantics.SomesAppend` | src/components/JsonViewer.tsx:134 | `.filter(Boolean)` distributes over concatenation, so order is kept |
| `JsSemantics.SomesAllPresent` | src/components/JsonViewer.tsx:107 | nothing is dropped exactly when every value is present, and then the values are kept position by position |
| `JsSemantics.SomesMembership` | src/components/JsonViewer.tsx:134 | a value survives exactly when it is present in the input |
| `JsSemantics.Join` | src/components/JsonViewer.tsx:155 | `join` of no parts is empty, of one part is that part, and starts with the first part |
| `JsSemantics.JoinConcat` | src/components/JsonViewer.tsx:170 | joining two non-empty lists is joining each with `sep` between them, so `sep` stands between every pair of consecutive parts |
| `JsSemantics.IncludesIff` | src/components/JsonViewer.tsx:105 | `includes` holds exactly when the pattern occurs at some offset of the text |
| `JsSemantics.IncludesChar` | src/components/JsonViewer.tsx:132 | `includes` of a one-character pattern is membership |
| `JsSemantics.IncludesEmpty` | src/components/JsonViewer.tsx:105 | every string includes the empty string |
| `JsSemantics.SecondSegment` | src/components/JsonViewer.tsx:103 | a reference with no `/` is searched for as the text "undefined"; otherwise the key holds no `/` |
| `JsSemantics.SecondSegmentOfTypedId` | src/components/JsonViewer.tsx:103 | the key of `Type/id` is `id` |
| `JsSemantics.SecondSegmentOfLongerPath` | src/components/JsonViewer.tsx:130 | the key of `Type/id/more` is still `id` |
| `JsSemantics.DecimalString` | src/components/JsonViewer.tsx:46 | a status renders as a non-empty string of digits with no leading zero |
| `JsSemantics.DecimalRoundTrip` | src/components/JsonViewer.tsx:46 | reading back the rendered status digits gives the status |
| `JsSemantics.OrElse` | src/components/JsonViewer.tsx:228 | the or-operator with a fallback string gives the value when present and non-empty, the fallback otherwise |
| `JsSemantics.FirstOf` | src/components/JsonViewer.tsx:231 | `arr?.[0]` is present exactly when the array is present and non-empty, and is then its first element |
| `BundleExtract.Entries` | src/components/JsonViewer.tsx:74 | absent data or an absent entry list scans as the empty list; otherwise the entry list itself |
| `BundleExtract.ExtractPatientInfo` | src/components/JsonViewer.tsx:73-83 | a resource is found exactly when some entry holds a Patient; it is the resource of the first such entry; absent data or entry list gives none |
| `BundleExtract.Resolve` | src/components/JsonViewer.tsx:102-105 | a resolved resource belongs to the first entry whose non-empty `fullUrl` contains the reference's key; no matching entry gives none |
| `BundleExtract.Lookups` | src/components/JsonViewer.tsx:101-106 | `map` gives one lookup per reference, the k-th being the k-th reference's resolution |
| `BundleExtract.ResolveAll` | src/components/JsonViewer.tsx:101-107 | at most one resource per reference |
| `BundleExtract.SectionResources` | src/components/JsonViewer.tsx:85-110 | no Composition entry (or no entries, or no data) gives `[]` |
| `BundleExtract.ExtractAllergies` | src/components/JsonViewer.tsx:85-110 | is the section lookup for the title "Allergies" |
| `BundleExtract.ExtractMedications` | src/components/JsonViewer.tsx:112-137 | is the section lookup for the title "Medications" |
| `BundleExtract.SectionResourcesFromFirstMatches` | src/components/JsonViewer.tsx:88-99 | only the first Composition entry and its first exactly-titled section decide the result; a missing `entry` list on that section gives `[]` |
| `BundleExtract.NoSectionListGivesEmpty` | src/components/JsonViewer.tsx:93 | a first Composition without `section` gives `[]` |
| `BundleExtract.NoTitledSectionGivesEmpty` | src/components/JsonViewer.tsx:95-99 | no exactly-titled section in the first Composition gives `[]`, whatever later Compositions hold |
| `BundleExtract.ResolveFirstMatch` | src/components/JsonViewer.tsx:105 | the first entry whose URL matches decides the lookup, even when it has no resource |
| `BundleExtract.ResolveAllComplete` | src/components/JsonViewer.tsx:128-134 | the result has one resource per reference exactly when every reference resolves, and then the k-th result is the k-th reference's resource |
| `BundleExtract.ResolveAllAppend` | src/components/JsonViewer.tsx:101-107 | reference order is kept: resolving a concatenation gives the concatenation of the results |
| `BundleExtract.ResolveAllMembership` | src/components/JsonViewer.tsx:107 | a resource is in the result exactly when some reference resolves to it |
| `BundleExtract.IdOneResolvesToEntryEleven` | src/components/JsonViewer.tsx:132 | containment, not equality: id `1` resolves to an earlier entry whose URL ends in `11` |
| `BundleExtract.TrailingSlashMatchesFirstUrl` | src/components/JsonViewer.tsx:103-105 | a reference ending in `/` resolves to the first entry with a non-empty URL |
| `BundleExtract.SlashlessReferenceSearchesUndefined` | src/components/JsonViewer.tsx:103-105 | a reference without `/` resolves only against URLs containing "undefined" |
| `BundleExtract.ReferenceOrderKept` | src/components/JsonViewer.tsx:101-107 | a section listing the second entry's id before the first's yields the second entry's resource first |
| `FetchState.SummaryUrl` | src/components/JsonViewer.tsx:42 | the request URL is the base URL, a `/`, the patient id, then `/summary` |
| `FetchState.CaughtMessage` | src/components/JsonViewer.tsx:58-60 | an `Error` gives its message; any other thrown value gives "Failed to fetch patient data" |
| `FetchState.HttpErrorMessage` | src/components/JsonViewer.tsx:45-47 | the message starts "HTTP error! Status: ", at least one digit follows it, the digits read back as the status, and a numeral of more than one digit has no leading zero |
| `FetchState.ErrorAfter` | src/components/JsonViewer.tsx:45-67 | a completed request leaves no error exactly when the status is 200-299 and the body parsed; a non-ok status gives the HTTP error; a network failure or an unparsable ok body gives the caught value's message |
| `FetchState.DataAfter` | src/components/JsonViewer.tsx:49-50 | data is held exactly after an ok response whose body parsed to a non-null value, and it is that body |
| `FetchState.ErrorAndDataExclusive` | src/components/JsonViewer.tsx:37-70 | a completed request never leaves both an error and data |
| `FetchState.ExactlyOneUnlessNullBody` | src/components/JsonViewer.tsx:49-50 | exactly one of error and data is set after completion, except after an ok response with a `null` body |
| `FetchState.NotFoundMessage` | src/components/JsonViewer.tsx:45-46 | a 404 leaves the error "HTTP error! Status: 404" and no data |
| `FetchState.PatientViewer.constructor` | src/components/JsonViewer.tsx:21-24 | starts idle: empty id, not loading, no error, no data |
| `FetchState.PatientViewer.SetPatientId` | src/components/JsonViewer.tsx:334 | the input sets the id and nothing else |
| `FetchState.PatientViewer.StartFetch` | src/components/JsonViewer.tsx:28-43 | an empty id changes nothing and requests nothing; otherwise loading is set, error and data are cleared, and the summary URL is requested |
| `FetchState.PatientViewer.FinishFetch` | src/components/JsonViewer.tsx:45-70 | loading ends, and error and data are those the outcome determines; the state invariant is kept |
| `FetchState.PatientViewer.FetchPatientData` | src/components/JsonViewer.tsx:27-71 | the net effect of one trigger: no change for an empty id, otherwise the outcome's error or data with loading off |
| `ViewerRender.JoinOpt` | src/components/JsonViewer.tsx:170 | `arr?.join(sep)` is present exactly when the array is, and is then the array joined with `sep` |
| `ViewerRender.AllergyRowOf` | src/components/JsonViewer.tsx:222-243 | no cell is blank; each cell is its field when that path is present and non-empty, else "Unknown" or "Not specified"; the severity is "High" for "high", else the criticality when non-empty, else "Not specified"; only "high" highlights the row |
| `ViewerRender.AllergyRows` | src/components/JsonViewer.tsx:222 | one row per allergy, in order |
| `ViewerRender.RenderAllergies` | src/components/JsonViewer.tsx:185-203 | the empty-state card shows exactly when no allergy was extracted; otherwise the rows of the extracted allergies |
| `ViewerRender.RenderMedications` | src/components/JsonViewer.tsx:253-269 | the empty-state card shows exactly when no medication was extracted; otherwise the table branch, whose rows throw (rows not modelled) |
| `ViewerRender.FullName` | src/components/JsonViewer.tsx:155-156 | with no name, the name line is a single space; otherwise it is the given names joined by spaces (empty if absent), a space, then the family name (empty if absent) |
| `ViewerRender.FormatAddress` | src/components/JsonViewer.tsx:170-174 | never blank; "N/A" with no address; otherwise the joined lines or "N/A", then ", " when a `line` array is present, then the city and ", " when the city is non-empty, then the postal code |
| `ViewerRender.RenderPatientInfo` | src/components/JsonViewer.tsx:139-182 | no Patient gives "No patient information available"; a Patient gives a redirect to `/login` exactly when unauthenticated, else the card built from that Patient's name, gender, birth date and address |
| `ViewerRender.RenderPage` | src/components/JsonViewer.tsx:326-369 | the trigger is enabled exactly when not loading; the error panel shows exactly for a non-empty error; sections show exactly when data is held, and are then the demographics, allergy and medication renderings of that data |
| `ViewerRender.AuthenticationGatesOnlyDemographics` | src/components/JsonViewer.tsx:363-368 | allergies and medications do not depend on authentication; demographics do exactly when there is a Patient |
| `ViewerRender.HttpFailurePage` | src/components/JsonViewer.tsx:356-369 | after a non-ok status: trigger enabled, error panel carrying the status, no sections |
| `ViewerRender.AllergyCellsNeverBlank` | src/components/JsonViewer.tsx:227-243 | every cell of a rendered allergy row shows text |
| `ViewerRender.SummaryAllergies` | src/components/JsonViewer.tsx:85-110 | in a well-formed one-allergy summary the allergy extractor yields exactly that allergy |
| `ViewerRender.SummaryMedications` | src/components/JsonViewer.tsx:112-137 | in a well-formed one-medication summary the medication extractor yields exactly that medication |
| `ViewerRender.SummaryReachesEachSection` | src/components/JsonViewer.tsx:363-368 | such a summary gives the Patient's card, one allergy row, and the medication table branch listing that medication; in the source that branch throws at line 295, so no page renders |

## Left out

- Network I/O: `fetch`, `await` and `response.json()` are not modelled. Their result is the input `FetchOutcome`, and the request URL is returned. The base URL (`apiUrl`) is a parameter.
- Toasts and `console.log` / `console.error` calls are side effects with no effect on state. This includes the "Please enter a Patient ID" toast.
- React hook scheduling and the batching of `setState`: each method states the net sequential effect.
- JSX markup, CSS classes, icons, the spinner label and the `capitalize` style on gender are presentation only.
- Medication rows (`src/components/JsonViewer.tsx:289-317`) are not modelled. They read `med.statement` and `med.medication`, which an extracted resource does not carry. So line 295 dereferences `undefined` and throws for any non-empty medication list. `RenderMedications` models only the choice between the empty-state card and the table.
- A section reference without a `reference` string makes `split` throw. In the model `Reference.reference` is always a string.
- Response bodies that are JSON `false`, `0` or `""` are not modelled. The only falsy body modelled is `null`. Non-object entries, and `fullUrl` or titles that are not strings, are also not modelled.
- `isAuthenticated` is an input. The auth provider is not part of this model.
- `src/pages/Index.tsx` (layout and the logout redirect built from a cookie) and `src/components/Login.tsx` (navigation to `/auth/login`) are navigation I/O with no logic to state.
