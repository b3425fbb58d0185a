/** views.py of the lab app: requesting a test on a visit, the lab queue,
    and uploading the result of a request. */
module LabViews {
  import opened Common
  import opened Schema
  import opened Store
  import opened AccountsUtils
  import opened Queries

  const RequestRoles: set<string> := {"doctor", "admin"}
  const LabRoles: set<string> := {"lab", "admin"}

  /** The posted request fields. */
  datatype LabForm = LabForm(test: nat, priority: LabPriority)

  /** The form validates when its other checks pass (`form` is not `None`)
      and the test exists. The test model has no `is_active` field, so the
      form offers every test, inactive ones included. */
  predicate LabFormValid(form: Option<LabForm>, testCount: nat) {
    form.Some? && InRange(form.value.test, testCount)
  }

  /** The request saved for `visit`: status REQUESTED, stamped `now`. */
  function NewLabRequest(visit: nat, f: LabForm, now: Instant): (r: LabRequest)
    ensures r.visit == visit && r.test == f.test && r.priority == f.priority
    ensures r.status == Requested && r.requestedAt == now
  {
    LabRequest(visit, f.test, f.priority, Requested, now)
  }

  // ---------------------------------------------------------------- queue

  /** The statuses the lab queue shows. */
  predicate Pending(s: LabStatus) {
    s == Requested || s == SampleCollected
  }

  /** `lab_queue`: the requests not yet resulted, by request time (row order). */
  function LabQueue(requests: seq<LabRequest>): (r: seq<nat>)
    ensures forall i :: i in r ==> i < |requests| && Pending(requests[i].status)
  {
    OldestFirstSpec(|requests|, (i: nat) => i < |requests| && Pending(requests[i].status));
    OldestFirst(|requests|, (i: nat) => i < |requests| && Pending(requests[i].status))
  }

  /** The queue holds exactly the REQUESTED and SAMPLE_COLLECTED requests,
      each once, oldest first. */
  lemma LabQueueSpec(requests: seq<LabRequest>)
    ensures forall i: nat :: i in LabQueue(requests) <==> i < |requests| && Pending(requests[i].status)
    ensures Ascending(LabQueue(requests))
  {
    OldestFirstSpec(|requests|, (i: nat) => i < |requests| && Pending(requests[i].status));
  }

  /** A new request joins the back of the queue. */
  lemma NewRequestQueued(requests: seq<LabRequest>, visit: nat, f: LabForm, now: Instant)
    ensures LabQueue(requests + [NewLabRequest(visit, f, now)]) == LabQueue(requests) + [|requests|]
  {
    var r' := requests + [NewLabRequest(visit, f, now)];
    OldestFirstFrame(|requests|, (i: nat) => i < |requests| && Pending(requests[i].status),
                     (i: nat) => i < |r'| && Pending(r'[i].status));
  }

  /** The queue behind its gate. */
  function LabQueuePage(u: Viewer, requests: seq<LabRequest>): (r: Page<seq<nat>>)
    ensures StaffGate(u, LabRoles).Some? ==> r == Stop(StaffGate(u, LabRoles).value)
    ensures StaffGate(u, LabRoles).None? ==> r == Show(LabQueue(requests))
  {
    match StaffGate(u, LabRoles)
    case Some(o) => Stop(o)
    case None => Show(LabQueue(requests))
  }

  // ---------------------------------------------------------------- results

  /** The posted result fields. */
  datatype ResultForm = ResultForm(resultText: string, remarks: string)

  /** `getattr(lab_request, "result", None)`: the row of the request's result. */
  function ResultOf(results: seq<LabResult>, request: nat): (r: Option<nat>)
    ensures r.Some? ==> r.value < |results| && results[r.value].request == request
    ensures r.None? ==> forall i :: 0 <= i < |results| ==> results[i].request != request
  {
    if results == [] then None
    else
      var last := |results| - 1;
      if results[last].request == request then Some(last)
      else
        var r := ResultOf(results[..last], request);
        assert forall i :: 0 <= i < last ==> results[..last][i] == results[i];
        r
  }

  /** No request has two results. */
  predicate OneResultEach(results: seq<LabResult>) {
    forall i, j :: 0 <= i < j < |results| ==> results[i].request != results[j].request
  }

  /** The result table after the form is saved: the request's result is
      overwritten in place, or created when it has none. */
  function SaveResult(results: seq<LabResult>, request: nat, f: ResultForm, uploader: Option<nat>): (r: seq<LabResult>)
    ensures |r| >= |results| && LabResult(request, f.resultText, f.remarks, uploader) in r
    ensures forall i :: 0 <= i < |results| && results[i].request != request ==> r[i] == results[i]
  {
    var saved := LabResult(request, f.resultText, f.remarks, uploader);
    match ResultOf(results, request)
    case Some(k) => assert results[k := saved][k] == saved; results[k := saved]
    case None => assert (results + [saved])[|results|] == saved; results + [saved]
  }

  /** After the save the request has exactly one result, holding the
      posted text and the uploader; every other request's results are as
      they were. */
  lemma SaveResultSpec(results: seq<LabResult>, request: nat, f: ResultForm, uploader: Option<nat>)
    requires OneResultEach(results)
    ensures var r := SaveResult(results, request, f, uploader);
      && OneResultEach(r)
      && ResultOf(r, request).Some?
      && r[ResultOf(r, request).value] == LabResult(request, f.resultText, f.remarks, uploader)
      && (forall i :: 0 <= i < |r| && r[i].request != request ==> i < |results| && r[i] == results[i])
      && |r| == |results| + (if ResultOf(results, request).Some? then 0 else 1)
  {
    var r := SaveResult(results, request, f, uploader);
    match ResultOf(results, request)
    case Some(k) => assert r[k].request == request;
    case None => assert r[|results|].request == request;
  }

  /** Uploading twice with the same form and uploader is uploading once. */
  lemma SaveResultIdempotent(results: seq<LabResult>, request: nat, f: ResultForm, uploader: Option<nat>)
    requires OneResultEach(results)
    ensures SaveResult(SaveResult(results, request, f, uploader), request, f, uploader) == SaveResult(results, request, f, uploader)
  {
    SaveResultSpec(results, request, f, uploader);
    var once := SaveResult(results, request, f, uploader);
    var k := ResultOf(once, request).value;
    assert once[k := once[k]] == once;
  }

  /** `lab_request.status = RESULT_READY`, from any status. */
  function Resulted(r: LabRequest): (s: LabRequest)
    ensures s.status == ResultReady && !Pending(s.status)
    ensures s.(status := r.status) == r
  {
    r.(status := ResultReady)
  }

  // ---------------------------------------------------------------- the views

  /** `add_lab_request(visit_id)`: a POST with a valid form appends the
      request to the visit; anything else changes nothing. */
  method AddLabRequest(db: Db, u: Viewer, visitId: nat, isPost: bool, form: Option<LabForm>, now: Instant)
    returns (o: Outcome)
    requires db.Valid()
    modifies db`labRequests
    ensures db.Valid()
    ensures StaffGate(u, RequestRoles).Some? ==> o == StaffGate(u, RequestRoles).value && unchanged(db)
    ensures StaffGate(u, RequestRoles).None? && !InRange(visitId, |db.visits|) ==> o == NotFound && unchanged(db)
    ensures StaffGate(u, RequestRoles).None? && InRange(visitId, |db.visits|) ==>
      if !isPost || !LabFormValid(form, |db.labTests|) then o == Unchanged && unchanged(db)
      else o == Done && db.labRequests == old(db.labRequests) + [NewLabRequest(visitId, form.value, now)]
  {
    var gate := StaffGate(u, RequestRoles);
    if gate.Some? {
      return gate.value;
    }
    if !InRange(visitId, |db.visits|) {
      return NotFound;
    }
    if !isPost || !LabFormValid(form, |db.labTests|) {
      return Unchanged;
    }
    db.labRequests := db.labRequests + [NewLabRequest(visitId, form.value, now)];
    o := Done;
  }

  /** `upload_result(lab_request_id)`: a POST with a valid form saves the
      result as the uploader's and marks the request RESULT_READY, which
      takes it off the queue; a GET or an invalid form changes nothing. */
  method UploadResult(db: Db, u: Viewer, id: nat, isPost: bool, form: Option<ResultForm>) returns (o: Outcome)
    requires db.Valid()
    modifies db`labResults, db`labRequests
    ensures db.Valid()
    ensures StaffGate(u, LabRoles).Some? ==> o == StaffGate(u, LabRoles).value && unchanged(db)
    ensures StaffGate(u, LabRoles).None? && !InRange(id, |db.labRequests|) ==> o == NotFound && unchanged(db)
    ensures StaffGate(u, LabRoles).None? && InRange(id, |old(db.labRequests)|) ==>
      if !isPost || form.None? then o == Unchanged && unchanged(db)
      else
        && o == Done
        && db.labResults == SaveResult(old(db.labResults), id, form.value, u.pk)
        && db.labRequests == old(db.labRequests)[id - 1 := Resulted(old(db.labRequests[id - 1]))]
  {
    var gate := StaffGate(u, LabRoles);
    if gate.Some? {
      return gate.value;
    }
    if !InRange(id, |db.labRequests|) {
      return NotFound;
    }
    if !isPost || form.None? {
      return Unchanged;
    }
    SaveResultSpec(db.labResults, id, form.value, u.pk);
    var saved := LabResult(id, form.value.resultText, form.value.remarks, u.pk);
    var existing := ResultOf(db.labResults, id);
    if existing.Some? {
      db.labResults := db.labResults[existing.value := saved];
    } else {
      db.labResults := db.labResults + [saved];
    }
    db.labRequests := db.labRequests[id - 1 := Resulted(db.labRequests[id - 1])];
    o := Done;
  }
}
