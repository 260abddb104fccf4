# Calculadora renal: a Dafny model

This project models the computational core of a one-page clinical calculator.
The calculator estimates creatinine clearance (mL/min) by the Cockcroft-Gault
formula. It then sorts the value into one of five stages (Normal, Leve,
Moderada, Severa, Terminal). Each stage comes with its own advisory text.

- `clearance.dfy`, module `Clearance`: `calcular_cockcroft_gault` is
  `CockcroftGault(age, weight, creatinine, sex)`. The source parameters
  `edad`, `peso`, `creatinina` and `sexo` become `age`, `weight`, `creatinine`
  and `sex`. Numbers are Dafny `real`s. The sex is the source's string, and only
  the literal `"Mujer"` gets the factor 0.85. The zero-creatinine guard is
  modelled as written. For a positive weight and creatinine, an age above 140
  gives a negative clearance. Nothing in the source guards against it, and
  `Sign` states it as it is.
- `staging.dfy`, module `Staging`: `obtener_recomendacion` is
  `Recommend(clearance)`. It returns the source's (label, advice) pair, built
  from `Classify` and the stage's `Label()` and `Advice()`. `Classify` is the
  ordered if/elif chain. `InBand` is the band table: one condition per stage,
  with no order between them. The bands are proved to be a partition of the
  reals (exclusive and covering every real), the chain is proved to agree
  with them, and the stage is proved monotone in the clearance.
- `report.dfy`, module `Report`: bounds on the clearance over the input
  form's ranges, and a worked example.

`streamlit_app.py` has no body-surface-area correction, no height input and
no advice that depends on sex: each stage has one fixed advice string.

## Model

| member | source | states |
|---|---|---|
| `Clearance.SexFactor` | streamlit_app.py:8 | the factor is 1.0 exactly when the sex string is not "Mujer", and 0.85 otherwise |
| `Clearance.CockcroftGault` | streamlit_app.py:4-17 | creatinine 0 gives 0.0; any other creatinine gives the exact formula of lines 13-17, stated as r * (72 * creatinine) = (140 - age) * weight * factor, which fixes r since 72 * creatinine is non-zero |
| `Clearance.ZeroCreatinine` | streamlit_app.py:10-11 | creatinine exactly 0 gives 0.0 for every age, weight and sex |
| `Clearance.FemaleFactor` | streamlit_app.py:8-16 | with the same age, weight and creatinine, "Mujer" gives exactly 0.85 times the result for any other sex string |
| `Clearance.OtherSexIsMale` | streamlit_app.py:8 | every sex string other than "Mujer" gives the same result as "Hombre" |
| `Clearance.Sign` | streamlit_app.py:13-16 | for weight > 0 and creatinine > 0: positive iff age < 140, zero iff age = 140, negative iff age > 140 |
| `Clearance.WeightScaling` | streamlit_app.py:10-16 | multiplying the weight by t multiplies the clearance by t, the zero guard included |
| `Clearance.CreatinineScaling` | streamlit_app.py:10-16 | multiplying the creatinine by a non-zero t divides the clearance by t |
| `Clearance.AntitoneInAge` | streamlit_app.py:13-16 | for weight >= 0 and creatinine > 0, a higher age never gives a higher clearance |
| `Clearance.MonotoneInWeight` | streamlit_app.py:13-16 | for age <= 140 and creatinine > 0, a higher weight never gives a lower clearance |
| `Clearance.AntitoneInCreatinine` | streamlit_app.py:13-16 | for age <= 140 and weight >= 0, a higher positive creatinine never gives a higher clearance |
| `Clearance.FemaleAtMostMale` | streamlit_app.py:8-16 | for age <= 140, weight >= 0 and creatinine > 0, "Mujer" never gives more than any other sex string |
| `Clearance.SexAtMostMale` | streamlit_app.py:8-16 | for age <= 140, weight >= 0 and creatinine > 0, no sex string gives more than "Hombre" |
| `Staging.Classify` | streamlit_app.py:19-29 | the chain's stage is one whose band contains the value |
| `Staging.Recommend` | streamlit_app.py:19-29 | the pair returned is the label and the advice of the band that contains the value; the five label strings (`Stage.Label`) and advice strings (`Stage.Advice`) are those of lines 21-29 |
| `Staging.BandsExclusive` | streamlit_app.py:20-29 | no real value lies in two bands |
| `Staging.BandsCover` | streamlit_app.py:20-29 | every real value, negative ones included, lies in some band |
| `Staging.ClassifyIff` | streamlit_app.py:20-29 | the chain returns a stage if and only if the value lies in that stage's band |
| `Staging.Boundaries` | streamlit_app.py:20-29 | 90 and 60 are Leve, 30 is Moderada, 15 is Severa; 90.0001 is Normal, 59.999 Moderada, 29.999 Severa, 14.999, 0 and -1 Terminal |
| `Staging.Monotone` | streamlit_app.py:20-29 | if c1 <= c2, the stage of c2 is never more severe than the stage of c1 (Normal < Leve < Moderada < Severa < Terminal) |
| `Staging.LabelsDistinct` | streamlit_app.py:21-29 | two stages have the same label if and only if they are the same stage |
| `Staging.AdviceFollowsLabel` | streamlit_app.py:21-29 | two clearance values with the same label get the same advice |
| `Report.FormBounds` | streamlit_app.py:67-71 | for ages 1..120, weights 1..300 and creatinine 0.1..20, the clearance lies between 17/1440 and 41700/7.2 |
| `Report.Example` | streamlit_app.py:76-77 | age 40, weight 70, creatinine 1.0 give 7000/72 for "Hombre" (Normal) and 5950/72 for "Mujer" (Leve) |

## Left out

- Page setup, input widgets, the button and output display (streamlit_app.py:57-89): user-interface code. The widget ranges appear only as the precondition of `Report.FormBounds`.
- `crear_gauge` (streamlit_app.py:31-54): it only builds a chart with the plotting library. Its colour bands repeat the stage thresholds.
- The two-decimal formatting of the result (streamlit_app.py:82): display only.
- Floating-point rounding: the arithmetic is over mathematical reals, not IEEE doubles.
- Body-surface-area correction, a height input, advice phrased by sex and a logo image: `streamlit_app.py` has none of them, so there is nothing to model.
