/** The staff totals computed when the daily form is saved: total doctors
    and total nurses over five departments. */
module Staffing {
  import opened Wrappers

  /** A submitted form field as `int(...)` sees it: missing, an integer, or
      text that does not convert. */
  datatype Field = Absent | Number(n: int) | Malformed

  datatype DepartmentStaff = DepartmentStaff(doctors: Field, nurses: Field)

  /** The staffing part of the form. Surgery and gynecology fields are read
      with a default of 0; the other three departments have no default. */
  datatype StaffForm = StaffForm(
    emergency: DepartmentStaff,
    pediatrics: DepartmentStaff,
    internalMedicine: DepartmentStaff,
    surgery: DepartmentStaff,
    gynecology: DepartmentStaff)

  datatype StaffTotals = StaffTotals(doctors: int, nurses: int)

  /** `int(...)` of a field read without a default: a missing field raises. */
  function Required(f: Field): Option<int> {
    match f
    case Number(n) => Some(n)
    case Absent => None
    case Malformed => None
  }

  /** `int(...)` of a field read with default 0. */
  function Defaulted(f: Field): Option<int> {
    match f
    case Number(n) => Some(n)
    case Absent => Some(0)
    case Malformed => None
  }

  /** The sum of converted counts; None as soon as one conversion raised. */
  function Total(counts: seq<Option<int>>): (r: Option<int>)
    ensures r.Some? <==> forall i :: 0 <= i < |counts| ==> counts[i].Some?
    ensures r.Some? && (forall i :: 0 <= i < |counts| ==> counts[i].value >= 0) ==>
      && r.value >= 0
      && (forall i :: 0 <= i < |counts| ==> counts[i].value <= r.value)
      && (r.value == 0 <==> forall i :: 0 <= i < |counts| ==> counts[i].value == 0)
  {
    if counts == [] then Some(0)
    else if counts[0].None? then None
    else
      var rest := Total(counts[1..]);
      if rest.None? then None else Some(counts[0].value + rest.value)
  }

  function DoctorCounts(form: StaffForm): seq<Option<int>> {
    [Required(form.emergency.doctors), Required(form.pediatrics.doctors),
     Required(form.internalMedicine.doctors), Defaulted(form.surgery.doctors),
     Defaulted(form.gynecology.doctors)]
  }

  function NurseCounts(form: StaffForm): seq<Option<int>> {
    [Required(form.emergency.nurses), Required(form.pediatrics.nurses),
     Required(form.internalMedicine.nurses), Defaulted(form.surgery.nurses),
     Defaulted(form.gynecology.nurses)]
  }

  /** Total doctors and total nurses; None when a conversion raises, which
      abandons the save. The totals exist exactly when the three departments
      without a default give numbers for both counts and surgery and
      gynecology give numbers or nothing; each total is then the five-term
      sum, a missing surgery or gynecology count taken as 0. */
  function StaffTotalsOf(form: StaffForm): (r: Option<StaffTotals>)
    ensures r.Some? <==>
      && form.emergency.doctors.Number? && form.pediatrics.doctors.Number?
      && form.internalMedicine.doctors.Number?
      && !form.surgery.doctors.Malformed? && !form.gynecology.doctors.Malformed?
      && form.emergency.nurses.Number? && form.pediatrics.nurses.Number?
      && form.internalMedicine.nurses.Number?
      && !form.surgery.nurses.Malformed? && !form.gynecology.nurses.Malformed?
    ensures r.Some? ==>
      r.value.doctors ==
        form.emergency.doctors.n + form.pediatrics.doctors.n + form.internalMedicine.doctors.n
        + Defaulted(form.surgery.doctors).value + Defaulted(form.gynecology.doctors).value
    ensures r.Some? ==>
      r.value.nurses ==
        form.emergency.nurses.n + form.pediatrics.nurses.n + form.internalMedicine.nurses.n
        + Defaulted(form.surgery.nurses).value + Defaulted(form.gynecology.nurses).value
  {
    var d := DoctorCounts(form);
    var n := NurseCounts(form);
    var doctors := Total(d);
    var nurses := Total(n);
    assert doctors.Some? <==> d[0].Some? && d[1].Some? && d[2].Some? && d[3].Some? && d[4].Some?;
    assert nurses.Some? <==> n[0].Some? && n[1].Some? && n[2].Some? && n[3].Some? && n[4].Some?;
    if doctors.Some? && nurses.Some? then
      TotalOfFive(d);
      TotalOfFive(n);
      Some(StaffTotals(doctors.value, nurses.value))
    else None
  }

  /** The total of five counts is their five-term sum. */
  lemma TotalOfFive(c: seq<Option<int>>)
    requires |c| == 5 && forall i :: 0 <= i < 5 ==> c[i].Some?
    ensures Total(c) == Some(c[0].value + c[1].value + c[2].value + c[3].value + c[4].value)
  {
    var c1 := c[1..];
    var c2 := c1[1..];
    var c3 := c2[1..];
    var c4 := c3[1..];
    assert c4[1..] == [];
    assert Total(c4) == Some(c[4].value);
    assert Total(c3) == Some(c[3].value + c[4].value);
    assert Total(c2) == Some(c[2].value + c[3].value + c[4].value);
    assert Total(c1) == Some(c[1].value + c[2].value + c[3].value + c[4].value);
  }
}
