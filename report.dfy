/** Bounds on the clearance over the input form's ranges, and a worked
    example. The form limits age to 1..120 years, weight to 1..300 kg and
    creatinine to 0.1..20 mg/dL. */
module Report {
  import opened Clearance
  import opened Staging

  /** The input form's bounds on age, weight and creatinine. */
  predicate FormInputs(age: real, weight: real, creatinine: real) {
    1.0 <= age <= 120.0 && 1.0 <= weight <= 300.0 && 0.1 <= creatinine <= 20.0
  }

  /** Within the form's bounds the guard is never taken and the clearance lies
      between its value at the oldest, lightest, highest-creatinine woman
      (20 * 1 / 1440 * 0.85) and at the youngest, heaviest, lowest-creatinine
      man (139 * 300 / 7.2). */
  lemma FormBounds(age: real, weight: real, creatinine: real, sex: string)
    requires FormInputs(age, weight, creatinine)
    ensures 17.0 / 1440.0 <= CockcroftGault(age, weight, creatinine, sex) <= 41700.0 / 7.2
  {
    var r := CockcroftGault(age, weight, creatinine, sex);
    // lower end: older, lighter, more creatinine, female
    AntitoneInAge(age, 120.0, weight, creatinine, sex);
    MonotoneInWeight(120.0, 1.0, weight, creatinine, sex);
    AntitoneInCreatinine(120.0, 1.0, creatinine, 20.0, sex);
    FemaleAtMostMale(120.0, 1.0, 20.0, sex);
    assert CockcroftGault(120.0, 1.0, 20.0, FEMALE) == 17.0 / 1440.0;
    // upper end: younger, heavier, less creatinine, male
    AntitoneInAge(1.0, age, weight, creatinine, sex);
    MonotoneInWeight(1.0, weight, 300.0, creatinine, sex);
    AntitoneInCreatinine(1.0, 300.0, 0.1, creatinine, sex);
    SexAtMostMale(1.0, 300.0, 0.1, sex);
    assert CockcroftGault(1.0, 300.0, 0.1, MALE) == 41700.0 / 7.2;
  }

  /** A 40-year-old man of 70 kg with creatinine 1.0 mg/dL: 7000 / 72, about
      97.22 mL/min, stage Normal; a woman with the same values gets 0.85 of it,
      about 82.64 mL/min, stage Leve. */
  lemma Example()
    ensures CockcroftGault(40.0, 70.0, 1.0, MALE) == 7000.0 / 72.0
    ensures Classify(CockcroftGault(40.0, 70.0, 1.0, MALE)) == Normal
    ensures CockcroftGault(40.0, 70.0, 1.0, FEMALE) == 5950.0 / 72.0
    ensures Recommend(CockcroftGault(40.0, 70.0, 1.0, FEMALE)).0 == "Leve"
  {
    var female := CockcroftGault(40.0, 70.0, 1.0, FEMALE);
    assert InBand(female, Leve);
  }
}
