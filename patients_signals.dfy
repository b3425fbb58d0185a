/** patients/signals.py: the post-save hook that gives a new patient its
    hospital number. */
module PatientsSignals {
  import opened Common
  import opened Text
  import opened Schema
  import opened Store

  /** The number the hook assigns to the patient with primary key `id`. */
  function HospitalNumberFor(id: nat): (r: string)
    ensures |r| >= 10 && r[..4] == HospitalPrefix
  {
    PrefixedId(HospitalPrefix, id)
  }

  /** Distinct patients get distinct hospital numbers. */
  lemma HospitalNumbersDistinct(a: nat, b: nat)
    requires a != b
    ensures HospitalNumberFor(a) != HospitalNumberFor(b)
  {
    if HospitalNumberFor(a) == HospitalNumberFor(b) {
      PrefixedIdInjective(HospitalPrefix, a, b);
    }
  }

  /** Some patient other than the one in row `k` holds hospital number `n`. */
  predicate HeldByOther(patients: seq<Patient>, k: nat, n: string) {
    exists j :: 0 <= j < |patients| && j != k && patients[j].hospitalNumber == n
  }

  /** `set_hospital_number(instance, created)` for the patient in row `k`:
      only on the creating save and only over a blank number, and only the
      hospital number is written. When another patient already holds the
      number, the unique column rejects the save and nothing is written. */
  method SetHospitalNumber(db: Db, k: nat, created: bool) returns (o: Outcome)
    requires k < |db.patients|
    modifies db`patients
    ensures !created || old(db.patients[k].hospitalNumber) != "" ==> o == Unchanged && db.patients == old(db.patients)
    ensures created && old(db.patients[k].hospitalNumber) == "" && HeldByOther(old(db.patients), k, HospitalNumberFor(k + 1)) ==>
      o == Failed(HospitalNumberTaken) && db.patients == old(db.patients)
    ensures created && old(db.patients[k].hospitalNumber) == "" && !HeldByOther(old(db.patients), k, HospitalNumberFor(k + 1)) ==>
      o == Done && db.patients == old(db.patients)[k := old(db.patients[k]).(hospitalNumber := HospitalNumberFor(k + 1))]
    ensures old(db.Linked()) ==> db.Linked()
  {
    if !created || db.patients[k].hospitalNumber != "" {
      return Unchanged;
    }
    if HeldByOther(db.patients, k, HospitalNumberFor(k + 1)) {
      return Failed(HospitalNumberTaken);
    }
    db.patients := db.patients[k := db.patients[k].(hospitalNumber := HospitalNumberFor(k + 1))];
    o := Done;
  }

  const HospitalNumberTaken := "UNIQUE constraint failed: patients_patient.hospital_number"

  /** A patient just appended to a numbered table finds its number free, and
      numbering it leaves the table numbered. */
  lemma HookNumbersNewPatient(patients: seq<Patient>, p: Patient)
    requires PatientsNumbered(patients)
    ensures !HeldByOther(patients + [p], |patients|, HospitalNumberFor(|patients| + 1))
    ensures PatientsNumbered(patients + [p.(hospitalNumber := HospitalNumberFor(|patients| + 1))])
  {
    PatientNumberFree(patients, p);
    PatientNumberKept(patients, p.(hospitalNumber := HospitalNumberFor(|patients| + 1)));
  }

  lemma PatientNumberFree(patients: seq<Patient>, p: Patient)
    requires PatientsNumbered(patients)
    ensures !HeldByOther(patients + [p], |patients|, HospitalNumberFor(|patients| + 1))
  {
    var n := HospitalNumberFor(|patients| + 1);
    var ps := patients + [p];
    forall j | 0 <= j < |ps| && j != |patients|
      ensures ps[j].hospitalNumber != n
    {
      assert ps[j] == patients[j];
      assert patients[j].hospitalNumber == PrefixedId(HospitalPrefix, j + 1);
      if patients[j].hospitalNumber == n {
        HospitalNumbersDistinct(j + 1, |patients| + 1);
      }
    }
  }

  lemma PatientNumberKept(patients: seq<Patient>, p: Patient)
    requires PatientsNumbered(patients) && p.hospitalNumber == HospitalNumberFor(|patients| + 1)
    ensures PatientsNumbered(patients + [p])
  {
    var numbered := patients + [p];
    forall id | 1 <= id <= |numbered|
      ensures numbered[id - 1].hospitalNumber == PrefixedId(HospitalPrefix, id)
    {
      if id <= |patients| {
        assert numbered[id - 1] == patients[id - 1];
      }
    }
  }
}
