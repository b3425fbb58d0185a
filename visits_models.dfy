/** visits/models.py: the visit row, its status and type, and `has_vitals`. */
module VisitsModels {
  import opened Common

  /** Stored as "OPD", "ER", "FU" and "ADM"; the default is OPD. */
  datatype VisitType = Opd | Emergency | FollowUp | Admission

  /** The visit status flow; the default is OPEN. */
  datatype VisitStatus = Open | WaitingDoctor | InConsult | Closed

  const DefaultVisitType := Opd
  const DefaultVisitStatus := Open

  /** The eight vitals fields, each nullable, as integers in the field's own
      unit (DecimalFields in hundredths or tenths), plus the free-text note. */
  datatype Vitals = Vitals(
    heightCm: Option<int>,
    weightKg: Option<int>,
    bpSystolic: Option<int>,
    bpDiastolic: Option<int>,
    temperatureC: Option<int>,
    pulseBpm: Option<int>,
    respRate: Option<int>,
    spo2: Option<int>,
    triageNote: string)

  const NoVitals := Vitals(None, None, None, None, None, None, None, None, "")

  /** The doctor's consultation fields. */
  datatype Notes = Notes(
    chiefComplaint: string,
    historyOfPresentIllness: string,
    examination: string,
    diagnosisPrimary: string,
    diagnosisSecondary: string,
    treatmentPlan: string,
    doctorNotes: string)

  const NoNotes := Notes("", "", "", "", "", "", "")

  datatype Visit = Visit(
    patient: nat,
    visitNumber: string,
    visitType: VisitType,
    status: VisitStatus,
    createdAt: Instant,
    doctor: Option<nat>,
    notes: Notes,
    closedAt: Option<Instant>,
    vitals: Vitals)

  /** Python truthiness of a nullable number: null and zero are false. */
  predicate Truthy(x: Option<int>) {
    x.Some? && x.value != 0
  }

  /** `Visit.has_vitals`: `any([...])` over the eight vitals fields. */
  predicate HasVitals(v: Vitals)
    ensures HasVitals(v) ==>
      || v.bpSystolic.Some? || v.bpDiastolic.Some? || v.temperatureC.Some? || v.pulseBpm.Some?
      || v.respRate.Some? || v.spo2.Some? || v.weightKg.Some? || v.heightCm.Some?
  {
    || Truthy(v.bpSystolic) || Truthy(v.bpDiastolic) || Truthy(v.temperatureC)
    || Truthy(v.pulseBpm) || Truthy(v.respRate) || Truthy(v.spo2)
    || Truthy(v.weightKg) || Truthy(v.heightCm)
  }

  /** A visit whose eight fields are all null has no vitals. */
  lemma NoVitalsWhenAllNull(v: Vitals)
    requires v.heightCm == v.weightKg == v.bpSystolic == v.bpDiastolic == None
    requires v.temperatureC == v.pulseBpm == v.respRate == v.spo2 == None
    ensures !HasVitals(v)
  {
  }

  /** Recorded zeros count as absent: only a non-zero reading makes vitals present. */
  lemma HasVitalsIff(v: Vitals)
    ensures HasVitals(v) <==>
      exists x :: x in [v.heightCm, v.weightKg, v.bpSystolic, v.bpDiastolic,
                        v.temperatureC, v.pulseBpm, v.respRate, v.spo2] && Truthy(x)
  {
    var xs := [v.heightCm, v.weightKg, v.bpSystolic, v.bpDiastolic,
               v.temperatureC, v.pulseBpm, v.respRate, v.spo2];
    if HasVitals(v) {
      if Truthy(v.heightCm) { assert xs[0] in xs; }
      else if Truthy(v.weightKg) { assert xs[1] in xs; }
      else if Truthy(v.bpSystolic) { assert xs[2] in xs; }
      else if Truthy(v.bpDiastolic) { assert xs[3] in xs; }
      else if Truthy(v.temperatureC) { assert xs[4] in xs; }
      else if Truthy(v.pulseBpm) { assert xs[5] in xs; }
      else if Truthy(v.respRate) { assert xs[6] in xs; }
      else { assert xs[7] in xs; }
    }
  }

  /** The triage note plays no part. */
  lemma TriageNoteIgnored(v: Vitals, note: string)
    ensures HasVitals(v.(triageNote := note)) == HasVitals(v)
  {
  }
}
