/** pharmacy/models.py: drugs, prescription items and `Drug.__str__`. */
module PharmacyModels {
  import opened Common

  /** `price` is nullable, in cents. The model has two activity flags. */
  datatype Drug = Drug(
    name: string,
    strength: string,
    dosageForm: string,
    active: bool,
    price: Option<int>,
    isActive: bool)

  /** The prescription status; the default is PENDING. */
  datatype RxStatus = Pending | Dispensed | Cancelled

  const DefaultRxStatus := Pending

  datatype Prescription = Prescription(
    visit: nat,
    drug: nat,
    dose: string,
    frequency: string,
    duration: string,
    instructions: string,
    status: RxStatus,
    price: int,
    createdAt: Instant)

  /** The label `Drug.__str__` builds. */
  function DrugLabel(d: Drug): (r: string)
    ensures |r| >= |d.name| && r[..|d.name|] == d.name
    ensures d.strength == "" && d.dosageForm == "" ==> r == d.name
  {
    d.name
    + (if d.strength != "" then " " + d.strength else "")
    + (if d.dosageForm != "" then " (" + d.dosageForm + ")" else "")
  }

  /** `Drug.__str__`: starts from the name and appends the non-blank parts. */
  method DrugToString(d: Drug) returns (s: string)
    ensures s == DrugLabel(d)
  {
    s := d.name;
    if d.strength != "" {
      s := s + " " + d.strength;
    }
    if d.dosageForm != "" {
      s := s + " (" + d.dosageForm + ")";
    }
  }

  /** The label starts with the name; with both extras blank it is just the name. */
  lemma DrugLabelShape(d: Drug)
    ensures |DrugLabel(d)| >= |d.name| && DrugLabel(d)[..|d.name|] == d.name
    ensures d.strength == "" && d.dosageForm == "" ==> DrugLabel(d) == d.name
    ensures d.strength != "" ==> DrugLabel(d)[|d.name|..|d.name| + 1 + |d.strength|] == " " + d.strength
    ensures d.dosageForm != "" ==>
      var n := |DrugLabel(d)|;
      n >= |d.dosageForm| + 3 && DrugLabel(d)[n - |d.dosageForm| - 3..] == " (" + d.dosageForm + ")"
  {
  }
}
