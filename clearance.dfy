/** Creatinine clearance by the Cockcroft-Gault formula.

    The estimate, in mL/min, is ((140 - age) * weight) / (72 * creatinine),
    multiplied by 0.85 for a woman. A creatinine of exactly zero is guarded and
    gives 0.0 instead of a division by zero. Nothing else is guarded: a negative
    or zero weight, an age above 140 or a negative creatinine all give the value
    the formula gives. Arithmetic is over mathematical reals. */
module Clearance {

  /** The sex string the formula treats as female; every other string is male. */
  const FEMALE: string := "Mujer"
  /** The sex string the input form offers for a man. */
  const MALE: string := "Hombre"

  /** The sex constant of the formula. */
  function SexFactor(sex: string): (k: real)
    ensures 0.0 < k <= 1.0
    ensures k == 1.0 <==> sex != FEMALE
    ensures k < 1.0 ==> k == 0.85
  {
    if sex == FEMALE then 0.85 else 1.0
  }

  /** The Cockcroft-Gault clearance, in mL/min, for an age in years, a weight
      in kg, a serum creatinine in mg/dL and a sex string. */
  function CockcroftGault(age: real, weight: real, creatinine: real, sex: string): (r: real)
    ensures creatinine == 0.0 ==> r == 0.0
    ensures creatinine != 0.0 ==> r * (72.0 * creatinine) == (140.0 - age) * weight * SexFactor(sex)
  {
    var k := SexFactor(sex);
    if creatinine == 0.0 then 0.0
    else
      var numerator := (140.0 - age) * weight;
      var denominator := 72.0 * creatinine;
      (numerator / denominator) * k
  }

  /** The guard: a creatinine of zero gives 0.0 whatever the age, weight and sex. */
  lemma ZeroCreatinine(age: real, weight: real, sex: string)
    ensures CockcroftGault(age, weight, 0.0, sex) == 0.0
  {
  }

  /** With equal age, weight and creatinine, the female result is 0.85 times
      the result for any other sex string. */
  lemma FemaleFactor(age: real, weight: real, creatinine: real, other: string)
    requires other != FEMALE
    ensures CockcroftGault(age, weight, creatinine, FEMALE)
            == 0.85 * CockcroftGault(age, weight, creatinine, other)
  {
  }

  /** Every sex string other than the female one behaves like the male one. */
  lemma OtherSexIsMale(age: real, weight: real, creatinine: real, sex: string)
    requires sex != FEMALE
    ensures CockcroftGault(age, weight, creatinine, sex)
            == CockcroftGault(age, weight, creatinine, MALE)
  {
  }

  /** For a positive weight and creatinine, the sign of the clearance is the
      sign of 140 - age: positive below 140 years, zero at 140, negative above
      (nothing guards the last case). */
  lemma Sign(age: real, weight: real, creatinine: real, sex: string)
    requires weight > 0.0 && creatinine > 0.0
    ensures CockcroftGault(age, weight, creatinine, sex) > 0.0 <==> age < 140.0
    ensures CockcroftGault(age, weight, creatinine, sex) == 0.0 <==> age == 140.0
    ensures CockcroftGault(age, weight, creatinine, sex) < 0.0 <==> age > 140.0
  {
    var r := CockcroftGault(age, weight, creatinine, sex);
    var d := 72.0 * creatinine;
    var n := (140.0 - age) * weight * SexFactor(sex);
    assert r * d == n;
    assert n > 0.0 <==> age < 140.0 by {
      PositiveProduct(140.0 - age, weight * SexFactor(sex));
      assert n == (140.0 - age) * (weight * SexFactor(sex));
    }
    assert n < 0.0 <==> age > 140.0 by {
      PositiveProduct(age - 140.0, weight * SexFactor(sex));
      assert -n == (age - 140.0) * (weight * SexFactor(sex));
    }
    PositiveProduct(r, d);
    PositiveProduct(-r, d);
  }

  /** For y > 0, x * y has the sign of x. */
  lemma PositiveProduct(x: real, y: real)
    requires y > 0.0
    ensures x * y > 0.0 <==> x > 0.0
    ensures x * y == 0.0 <==> x == 0.0
  {
  }

  /** Scaling the weight by t scales the clearance by t. */
  lemma WeightScaling(age: real, weight: real, creatinine: real, sex: string, t: real)
    ensures CockcroftGault(age, t * weight, creatinine, sex)
            == t * CockcroftGault(age, weight, creatinine, sex)
  {
    if creatinine != 0.0 {
      var d := 72.0 * creatinine;
      var k := SexFactor(sex);
      calc {
        CockcroftGault(age, t * weight, creatinine, sex);
        (140.0 - age) * (t * weight) / d * k;
        { assert (140.0 - age) * (t * weight) == t * ((140.0 - age) * weight); }
        t * ((140.0 - age) * weight) / d * k;
        t * (((140.0 - age) * weight) / d * k);
      }
    }
  }

  /** Scaling a non-zero creatinine by a non-zero t divides the clearance by t. */
  lemma CreatinineScaling(age: real, weight: real, creatinine: real, sex: string, t: real)
    requires t != 0.0
    ensures t * CockcroftGault(age, weight, t * creatinine, sex)
            == CockcroftGault(age, weight, creatinine, sex)
  {
    if creatinine != 0.0 {
      var n := (140.0 - age) * weight;
      var k := SexFactor(sex);
      var d := 72.0 * creatinine;
      assert 72.0 * (t * creatinine) == t * d;
      calc {
        t * CockcroftGault(age, weight, t * creatinine, sex);
        t * (n / (t * d) * k);
        { assert t * (n / (t * d)) == n / d; }
        n / d * k;
      }
    }
  }

  /** Away from the guard the clearance is a product: (140 - age) times
      weight times the sex factor over 72 * creatinine. */
  lemma AsProduct(age: real, weight: real, creatinine: real, sex: string)
    requires creatinine != 0.0
    ensures CockcroftGault(age, weight, creatinine, sex)
            == (140.0 - age) * (weight * (SexFactor(sex) / (72.0 * creatinine)))
  {
    var d := 72.0 * creatinine;
    var k := SexFactor(sex);
    calc {
      CockcroftGault(age, weight, creatinine, sex);
      ((140.0 - age) * weight) / d * k;
      ((140.0 - age) * weight) * (k / d);
      (140.0 - age) * (weight * (k / d));
    }
  }

  /** Away from the guard the clearance is one quotient: (140 - age) times
      weight times the sex factor, over 72 * creatinine. */
  lemma AsQuotient(age: real, weight: real, creatinine: real, sex: string)
    requires creatinine != 0.0
    ensures CockcroftGault(age, weight, creatinine, sex)
            == (140.0 - age) * weight * SexFactor(sex) / (72.0 * creatinine)
  {
    var d := 72.0 * creatinine;
    var n := (140.0 - age) * weight;
    var k := SexFactor(sex);
    assert n / d * k == n * k / d;
  }

  /** Multiplying by a non-negative number keeps the order. */
  lemma MulMonotone(x: real, y: real, z: real)
    requires x <= y && z >= 0.0
    ensures x * z <= y * z
  {
    assert y * z - x * z == (y - x) * z;
  }

  /** Dividing a non-negative number by a larger positive number gives no more. */
  lemma DivAntitone(n: real, c1: real, c2: real)
    requires n >= 0.0 && 0.0 < c1 <= c2
    ensures n / c2 <= n / c1
  {
    var q1, q2 := n / c1, n / c2;
    assert q1 * c1 == n && q2 * c2 == n;
    MulMonotone(c1, c2, q1);
    assert (q1 - q2) * c2 == q1 * c2 - n;
    PositiveProduct(q1 - q2, c2);
  }

  /** Older is never better: for a non-negative weight and a positive
      creatinine, the clearance does not increase with age. */
  lemma AntitoneInAge(age1: real, age2: real, weight: real, creatinine: real, sex: string)
    requires age1 <= age2 && weight >= 0.0 && creatinine > 0.0
    ensures CockcroftGault(age2, weight, creatinine, sex) <= CockcroftGault(age1, weight, creatinine, sex)
  {
    var c := weight * (SexFactor(sex) / (72.0 * creatinine));
    MulMonotone(0.0, weight, SexFactor(sex) / (72.0 * creatinine));
    AsProduct(age1, weight, creatinine, sex);
    AsProduct(age2, weight, creatinine, sex);
    MulMonotone(140.0 - age2, 140.0 - age1, c);
  }

  /** For an age of at most 140 and a positive creatinine, the clearance does
      not decrease with weight. */
  lemma MonotoneInWeight(age: real, weight1: real, weight2: real, creatinine: real, sex: string)
    requires weight1 <= weight2 && age <= 140.0 && creatinine > 0.0
    ensures CockcroftGault(age, weight1, creatinine, sex) <= CockcroftGault(age, weight2, creatinine, sex)
  {
    var k := SexFactor(sex) / (72.0 * creatinine);
    AsProduct(age, weight1, creatinine, sex);
    AsProduct(age, weight2, creatinine, sex);
    MulMonotone(weight1, weight2, k);
    MulMonotone(weight1 * k, weight2 * k, 140.0 - age);
    assert (140.0 - age) * (weight1 * k) == (weight1 * k) * (140.0 - age);
    assert (140.0 - age) * (weight2 * k) == (weight2 * k) * (140.0 - age);
  }

  /** For an age of at most 140 and a non-negative weight, a higher positive
      creatinine never gives a higher clearance. */
  lemma AntitoneInCreatinine(age: real, weight: real, creatinine1: real, creatinine2: real, sex: string)
    requires 0.0 < creatinine1 <= creatinine2 && age <= 140.0 && weight >= 0.0
    ensures CockcroftGault(age, weight, creatinine2, sex) <= CockcroftGault(age, weight, creatinine1, sex)
  {
    var n := (140.0 - age) * weight * SexFactor(sex);
    MulMonotone(0.0, 140.0 - age, weight);
    MulMonotone(0.0, (140.0 - age) * weight, SexFactor(sex));
    AsQuotient(age, weight, creatinine1, sex);
    AsQuotient(age, weight, creatinine2, sex);
    DivAntitone(n, 72.0 * creatinine1, 72.0 * creatinine2);
  }

  /** For an age of at most 140, a non-negative weight and a positive
      creatinine, the female result never exceeds the result for any other
      sex string. */
  lemma FemaleAtMostMale(age: real, weight: real, creatinine: real, sex: string)
    requires age <= 140.0 && weight >= 0.0 && creatinine > 0.0
    ensures CockcroftGault(age, weight, creatinine, FEMALE) <= CockcroftGault(age, weight, creatinine, sex)
  {
    // the male value is at least its value at age 140, which is zero
    AntitoneInAge(age, 140.0, weight, creatinine, MALE);
    assert CockcroftGault(140.0, weight, creatinine, MALE) == 0.0;
    FemaleFactor(age, weight, creatinine, MALE);
    if sex != FEMALE {
      OtherSexIsMale(age, weight, creatinine, sex);
    }
  }

  /** For an age of at most 140, a non-negative weight and a positive
      creatinine, no sex string gives more than the male one. */
  lemma SexAtMostMale(age: real, weight: real, creatinine: real, sex: string)
    requires age <= 140.0 && weight >= 0.0 && creatinine > 0.0
    ensures CockcroftGault(age, weight, creatinine, sex) <= CockcroftGault(age, weight, creatinine, MALE)
  {
    if sex == FEMALE {
      FemaleAtMostMale(age, weight, creatinine, MALE);
    } else {
      OtherSexIsMale(age, weight, creatinine, sex);
    }
  }
}
