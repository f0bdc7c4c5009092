/**
 * The research-submission form's validation (`validateStep`, `getMissingFields`)
 * over the table of research types and their fields (`RESEARCH_TYPES`).
 */
module SubmissionForm {
  import opened Text
  import opened Wrappers

  /** One form field `{ key, label, required, minLength }` (`label` is a reserved word in Dafny, hence `caption`); a `minLength` of 0 means none. */
  datatype Field = Field(key: string, caption: string, required: bool, minLength: nat)

  /** One research type `{ id, name, fields }` (presentation attributes are not modelled). */
  datatype ResearchType = ResearchType(id: string, name: string, fields: seq<Field>)

  /** The form's text values by field key; a missing key is an unset field. */
  type FormData = map<string, string>

  const ResearchTypes: seq<ResearchType> := [
    ResearchType("journal_article", "Journal Articles", [
      Field("title", "Article Title", true, 0),
      Field("abstract", "Abstract", true, 50),
      Field("journal_name", "Journal Name", true, 0),
      Field("doi", "DOI", false, 0),
      Field("volume_issue", "Volume / Issue", false, 0),
      Field("page_numbers", "Page Numbers", false, 0),
      Field("publication_date", "Publication Date", false, 0),
      Field("issn", "ISSN", false, 0),
      Field("keywords", "Keywords", false, 0),
      Field("co_authors", "Co-Authors", false, 0),
      Field("peer_reviewed", "Peer Reviewed?", true, 0)]),
    ResearchType("conference_paper", "Conference Papers", [
      Field("title", "Paper Title", true, 0),
      Field("abstract", "Abstract", true, 50),
      Field("conference_name", "Conference Name", true, 0),
      Field("conference_location", "Conference Location", true, 0),
      Field("presentation_date", "Presentation Date", true, 0),
      Field("paper_type", "Paper Type", true, 0),
      Field("proceedings_publisher", "Proceedings Publisher", false, 0),
      Field("doi", "DOI", false, 0),
      Field("keywords", "Keywords", false, 0),
      Field("co_authors", "Co-Authors / Presenters", false, 0),
      Field("acceptance_rate", "Acceptance Rate", false, 0)]),
    ResearchType("preprint", "Preprints", [
      Field("title", "Preprint Title", true, 0),
      Field("abstract", "Abstract", true, 50),
      Field("preprint_server", "Preprint Server", true, 0),
      Field("preprint_id", "Preprint ID / URL", true, 0),
      Field("version", "Version Number", true, 0),
      Field("submission_date", "Submission Date", true, 0),
      Field("subject_area", "Subject Area", true, 0),
      Field("under_review", "Submitted to Journal?", false, 0),
      Field("target_journal", "Target Journal (if any)", false, 0),
      Field("keywords", "Keywords", false, 0),
      Field("co_authors", "Co-Authors", false, 0)]),
    ResearchType("thesis", "Theses / Dissertations", [
      Field("title", "Thesis / Dissertation Title", true, 0),
      Field("abstract", "Abstract", true, 50),
      Field("degree_type", "Degree Type", true, 0),
      Field("department", "Department", true, 0),
      Field("university", "University / Institution", true, 0),
      Field("advisor_name", "Advisor / Supervisor Name", true, 0),
      Field("committee_members", "Committee Members", false, 0),
      Field("defense_date", "Defense Date", false, 0),
      Field("submission_date", "Submission Date", true, 0),
      Field("total_pages", "Total Pages", false, 0),
      Field("keywords", "Keywords", false, 0)]),
    ResearchType("technical_report", "Technical Reports", [
      Field("title", "Report Title", true, 0),
      Field("abstract", "Technical Summary", true, 50),
      Field("report_number", "Report Number / ID", true, 0),
      Field("institution", "Issuing Institution", true, 0),
      Field("department", "Department / Division", false, 0),
      Field("report_type", "Report Type", true, 0),
      Field("funding_source", "Funding Source", false, 0),
      Field("publication_date", "Publication Date", true, 0),
      Field("classification", "Classification Level", false, 0),
      Field("keywords", "Keywords", false, 0),
      Field("co_authors", "Contributing Authors", false, 0)]),
    ResearchType("dataset", "Data & Datasets", [
      Field("title", "Dataset Name", true, 0),
      Field("abstract", "Dataset Description", true, 50),
      Field("data_type", "Data Type", true, 0),
      Field("format", "File Format(s)", true, 0),
      Field("size", "Dataset Size", true, 0),
      Field("collection_method", "Collection Methodology", true, 30),
      Field("license", "License", true, 0),
      Field("source_url", "Source / Repository URL", false, 0),
      Field("doi", "DOI (if available)", false, 0),
      Field("date_collected", "Date Range Collected", false, 0),
      Field("keywords", "Keywords", false, 0),
      Field("ethical_approval", "Ethical Approval", false, 0)]),
    ResearchType("book_chapter", "Books & Chapters", [
      Field("title", "Chapter / Book Title", true, 0),
      Field("abstract", "Summary / Abstract", true, 50),
      Field("book_title", "Book Title (if chapter)", false, 0),
      Field("chapter_number", "Chapter Number", false, 0),
      Field("publisher", "Publisher", true, 0),
      Field("isbn", "ISBN", true, 0),
      Field("edition", "Edition", false, 0),
      Field("page_numbers", "Page Numbers", false, 0),
      Field("publication_year", "Publication Year", true, 0),
      Field("editors", "Editor(s)", false, 0),
      Field("co_authors", "Co-Authors", false, 0),
      Field("doi", "DOI", false, 0)]),
    ResearchType("patent", "Patents", [
      Field("title", "Invention Title", true, 0),
      Field("abstract", "Patent Abstract", true, 50),
      Field("patent_number", "Patent / Application Number", true, 0),
      Field("patent_office", "Patent Office", true, 0),
      Field("filing_date", "Filing Date", true, 0),
      Field("grant_date", "Grant Date (if granted)", false, 0),
      Field("patent_status", "Patent Status", true, 0),
      Field("inventors", "Inventors", true, 0),
      Field("assignee", "Assignee / Owner", false, 0),
      Field("classification", "IPC / CPC Classification", false, 0),
      Field("claims_count", "Number of Claims", false, 0),
      Field("priority_date", "Priority Date", false, 0)])
  ]

  /** `types.find((t) => t.id === id)`. */
  function FindType(types: seq<ResearchType>, id: string): (r: Option<ResearchType>)
    ensures r.Some? ==> r.value in types && r.value.id == id
    ensures r.None? ==> forall i :: 0 <= i < |types| ==> types[i].id != id
  {
    if |types| == 0 then None
    else if types[0].id == id then Some(types[0])
    else FindType(types[1..], id)
  }

  /**
   * The shared rule: a field is missing when it is unset, empty or blank once
   * trimmed, or shorter than a `minLength` it has.
   */
  predicate FieldMissing(f: Field, data: FormData) {
    f.key !in data || |Trim(data[f.key])| == 0 || (f.minLength > 0 && |data[f.key]| < f.minLength)
  }

  predicate IsRequired(f: Field) {
    f.required
  }

  function RequiredFields(t: ResearchType): seq<Field> {
    Filter(t.fields, IsRequired)
  }

  /** Every required field of `t` is filled in. */
  predicate Complete(t: ResearchType, data: FormData) {
    var req := RequiredFields(t);
    forall i :: 0 <= i < |req| ==> !FieldMissing(req[i], data)
  }

  function Labels(fs: seq<Field>): (r: seq<string>)
    ensures |r| == |fs|
  {
    seq(|fs|, i requires 0 <= i < |fs| => fs[i].caption)
  }

  /** The labels of the required fields of `t` that are missing, in table order. */
  function MissingLabels(t: ResearchType, data: FormData): seq<string> {
    Labels(Filter(RequiredFields(t), (f: Field) => FieldMissing(f, data)))
  }

  /** `validateStep()` for the wizard's current step, the selected type id, the form's values and whether a file is chosen. */
  function ValidateStep(step: nat, selectedType: string, data: FormData, hasFile: bool): bool {
    if step == 0 then selectedType != ""
    else if step == 1 && FindType(ResearchTypes, selectedType).Some? then
      Complete(FindType(ResearchTypes, selectedType).value, data)
    else step == 2 && hasFile
  }

  /** `getMissingFields()`: nothing for an unknown type, else the missing labels of the selected type. */
  function GetMissingFields(selectedType: string, data: FormData): seq<string> {
    match FindType(ResearchTypes, selectedType)
    case None => []
    case Some(t) => MissingLabels(t, data)
  }

  /** A type's required fields are all filled in exactly when none of them is reported missing. */
  lemma CompleteIffNoMissing(t: ResearchType, data: FormData)
    ensures Complete(t, data) <==> MissingLabels(t, data) == []
  {
    var req := RequiredFields(t);
    var missing := Filter(req, (f: Field) => FieldMissing(f, data));
    if missing != [] {
      assert missing[0] in req && FieldMissing(missing[0], data);
    }
    if !Complete(t, data) {
      var i :| 0 <= i < |req| && FieldMissing(req[i], data);
      assert req[i] in missing;
    }
  }

  /**
   * Every reported label is the label of a required, missing field of the
   * type, and every required field that is missing is reported.
   */
  lemma MissingLabelsExact(t: ResearchType, data: FormData)
    ensures forall k :: 0 <= k < |MissingLabels(t, data)| ==>
      exists f :: f in t.fields && f.required && FieldMissing(f, data) && f.caption == MissingLabels(t, data)[k]
    ensures forall f :: f in t.fields && f.required && FieldMissing(f, data) ==> f.caption in MissingLabels(t, data)
  {
    var req := RequiredFields(t);
    var missing := Filter(req, (f: Field) => FieldMissing(f, data));
    var labels := MissingLabels(t, data);
    forall k | 0 <= k < |labels|
      ensures exists f :: f in t.fields && f.required && FieldMissing(f, data) && f.caption == labels[k]
    {
      assert missing[k] in req;
    }
    forall f | f in t.fields && f.required && FieldMissing(f, data)
      ensures f.caption in labels
    {
      var i :| 0 <= i < |t.fields| && t.fields[i] == f;
      assert f in req;
      var j :| 0 <= j < |req| && req[j] == f;
      assert f in missing;
      var k :| 0 <= k < |missing| && missing[k] == f;
      assert labels[k] == f.caption;
    }
  }

  /**
   * On the details step of a known type, the step validates exactly when no
   * field is reported missing; for an unknown type the step never validates
   * and nothing is reported.
   */
  lemma ValidateIffNoMissing(selectedType: string, data: FormData, hasFile: bool)
    ensures FindType(ResearchTypes, selectedType).Some? ==>
      (ValidateStep(1, selectedType, data, hasFile) <==> GetMissingFields(selectedType, data) == [])
    ensures FindType(ResearchTypes, selectedType).None? ==>
      !ValidateStep(1, selectedType, data, hasFile) && GetMissingFields(selectedType, data) == []
  {
    var found := FindType(ResearchTypes, selectedType);
    if found.Some? {
      CompleteIffNoMissing(found.value, data);
    }
  }

  /** The choice step needs a selected type, and the upload step a file; any later step never validates. */
  lemma OtherSteps(selectedType: string, data: FormData, hasFile: bool, step: nat)
    ensures ValidateStep(0, selectedType, data, hasFile) <==> selectedType != ""
    ensures ValidateStep(2, selectedType, data, hasFile) <==> hasFile
    ensures step > 2 ==> !ValidateStep(step, selectedType, data, hasFile)
  {
  }

  /** Every research type asks first for a required title, then for a required abstract of at least 50 characters. */
  lemma TitleAndAbstractRequired()
    ensures forall i :: 0 <= i < |ResearchTypes| ==>
      && |ResearchTypes[i].fields| >= 2
      && ResearchTypes[i].fields[0].key == "title" && ResearchTypes[i].fields[0].required
      && ResearchTypes[i].fields[1].key == "abstract" && ResearchTypes[i].fields[1].required
      && ResearchTypes[i].fields[1].minLength == 50
  {
  }

  /**
   * A validated details step guarantees a non-blank title and an abstract of
   * at least 50 characters, the two values the submission reads.
   */
  lemma ValidatedHasTitleAndAbstract(selectedType: string, data: FormData, hasFile: bool)
    requires ValidateStep(1, selectedType, data, hasFile)
    requires FindType(ResearchTypes, selectedType).Some?
    ensures "title" in data && |Trim(data["title"])| > 0
    ensures "abstract" in data && |data["abstract"]| >= 50
  {
    var t := FindType(ResearchTypes, selectedType).value;
    TitleAndAbstractRequired();
    var k :| 0 <= k < |ResearchTypes| && ResearchTypes[k] == t;
    CompleteFieldsFilled(t, data, 0);
    CompleteFieldsFilled(t, data, 1);
  }

  /** A complete type has each of its required fields present, non-blank and long enough. */
  lemma CompleteFieldsFilled(t: ResearchType, data: FormData, i: nat)
    requires Complete(t, data) && i < |t.fields| && t.fields[i].required
    ensures t.fields[i].key in data && |Trim(data[t.fields[i].key])| > 0
    ensures t.fields[i].minLength > 0 ==> |data[t.fields[i].key]| >= t.fields[i].minLength
  {
    var req := RequiredFields(t);
    assert t.fields[i] in req;
    var j :| 0 <= j < |req| && req[j] == t.fields[i];
  }
}
