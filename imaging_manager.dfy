/**
 * `ImagingManager`: ImagingStudy, Endpoint and DiagnosticReport resources for
 * chest X-ray studies. Endpoints and reports are cached in the input records
 * themselves, so a second call on the same record returns the first result;
 * an ImagingStudy is never stored and is rebuilt on every call unless one was
 * attached to the record from outside. Fresh UUIDs are parameters.
 */
module ImagingManager {
  import opened Wrappers

  datatype Endpoint = Endpoint(id: string, status: string, connectionType: string, payloadType: string, address: string)

  datatype ImagingStudy = ImagingStudy(id: string, status: string, subject: string,
                                       endpoints: seq<string>, seriesUids: seq<string>)

  datatype DiagnosticReport = DiagnosticReport(id: string, subject: string, status: string,
                                               imagingStudies: seq<string>, conclusion: string)

  const WadoUri: string := "https://www.hl7.org/fhir/codesystem-endpoint-connection-type.html#endpoint-connection-type-dicom-wado-uri"

  /** MImagingStudy: one study of a patient, with the two resources it may carry. */
  class StudyRecord {
    var subjectId: string
    var studyId: string
    var dicomId: string
    var path: string
    var study: Option<ImagingStudy>
    var endpoint: Option<Endpoint>

    constructor(subjectId: string, studyId: string, dicomId: string, path: string)
      ensures this.subjectId == subjectId && this.studyId == studyId
      ensures this.dicomId == dicomId && this.path == path
      ensures study.None? && endpoint.None?
    {
      this.subjectId := subjectId;
      this.studyId := studyId;
      this.dicomId := dicomId;
      this.path := path;
      study := None;
      endpoint := None;
    }
  }

  /** MDiagnosticReport: a radiology report over some studies. */
  class ReportRecord {
    var subjectId: string
    var report: string
    var studies: seq<StudyRecord>
    var diagnosticReport: Option<DiagnosticReport>

    constructor(subjectId: string, report: string, studies: seq<StudyRecord>)
      ensures this.subjectId == subjectId && this.report == report && this.studies == studies
      ensures diagnosticReport.None?
    {
      this.subjectId := subjectId;
      this.report := report;
      this.studies := studies;
      diagnosticReport := None;
    }
  }

  /** A new Endpoint: active, WADO-URI connection, image payload, addressed at the study's path. */
  function NewEndpoint(uuid: string, path: string): (e: Endpoint)
    ensures e.id == uuid && e.address == path
    ensures e.status == "active" && e.connectionType == WadoUri && e.payloadType == "BILD"
  {
    Endpoint(uuid, "active", WadoUri, "BILD", path)
  }

  /** The id a report uses for a study: the attached resource's id, else the study id a fresh resource gets. */
  function StudyRef(m: StudyRecord): string
    reads m
  {
    if m.study.Some? then m.study.value.id else m.studyId
  }

  method CreateEndpoint(m: StudyRecord, uuid: string) returns (ePoint: Endpoint)
    modifies m`endpoint
    ensures old(m.endpoint).Some? ==> ePoint == old(m.endpoint).value
    ensures old(m.endpoint).None? ==> ePoint == NewEndpoint(uuid, m.path)
    ensures m.endpoint == Some(ePoint)
  {
    if m.endpoint.Some? {
      return m.endpoint.value;
    }
    ePoint := NewEndpoint(uuid, m.path);
    m.endpoint := Some(ePoint);
  }

  /** `uuid` is used only when the record has no endpoint yet. */
  method CreateResource(m: StudyRecord, uuid: string) returns (iStudy: ImagingStudy)
    modifies m`endpoint
    ensures m.study.Some? ==> iStudy == m.study.value && m.endpoint == old(m.endpoint)
    ensures m.study.None? ==>
      m.endpoint.Some? && (old(m.endpoint).Some? ==> m.endpoint == old(m.endpoint)) &&
      iStudy == ImagingStudy(m.studyId, "unknown", m.subjectId, [m.endpoint.value.id], [m.dicomId])
    ensures iStudy.id == StudyRef(m)
  {
    if m.study.Some? {
      return m.study.value;
    }
    var ePoint := CreateEndpoint(m, uuid);
    iStudy := ImagingStudy(m.studyId, "unknown", m.subjectId, [ePoint.id], [m.dicomId]);
  }

  /** `endpointUuids[i]` is the id an endpoint created for the i-th study would get. */
  method CreateDiagnosticReport(r: ReportRecord, uuid: string, endpointUuids: seq<string>) returns (dReport: DiagnosticReport)
    requires |endpointUuids| == |r.studies|
    modifies r`diagnosticReport, r.studies
    ensures old(r.diagnosticReport).Some? ==> dReport == old(r.diagnosticReport).value
    ensures old(r.diagnosticReport).None? ==>
      dReport.id == uuid && dReport.subject == r.subjectId && dReport.status == "final" &&
      dReport.conclusion == r.report &&
      |dReport.imagingStudies| == |r.studies| &&
      forall i :: 0 <= i < |r.studies| ==> dReport.imagingStudies[i] == old(StudyRef(r.studies[i]))
    ensures r.diagnosticReport == Some(dReport)
    ensures forall i :: 0 <= i < |r.studies| ==> r.studies[i].study == old(r.studies[i].study)
    ensures old(r.diagnosticReport).None? ==>
      forall i :: 0 <= i < |r.studies| && r.studies[i].study.None? ==> r.studies[i].endpoint.Some?
    ensures forall i :: 0 <= i < |r.studies| && old(r.studies[i].endpoint).Some? ==>
      r.studies[i].endpoint == old(r.studies[i].endpoint)
  {
    if r.diagnosticReport.Some? {
      return r.diagnosticReport.value;
    }
    var studies := r.studies;
    var references := [];
    var i := 0;
    while i < |studies|
      invariant 0 <= i <= |studies|
      invariant r.studies == studies && r.diagnosticReport.None?
      invariant |references| == i
      invariant forall j :: 0 <= j < |studies| ==> studies[j].study == old(studies[j].study) && studies[j].studyId == old(studies[j].studyId)
      invariant forall j :: 0 <= j < i ==> references[j] == old(StudyRef(studies[j]))
      invariant forall j :: 0 <= j < i && studies[j].study.None? ==> studies[j].endpoint.Some?
      invariant forall j :: 0 <= j < |studies| && old(studies[j].endpoint).Some? ==> studies[j].endpoint == old(studies[j].endpoint)
    {
      var iStudy := CreateResource(studies[i], endpointUuids[i]);
      references := references + [iStudy.id];
      i := i + 1;
    }
    dReport := DiagnosticReport(uuid, r.subjectId, "final", references, r.report);
    r.diagnosticReport := Some(dReport);
  }
}
