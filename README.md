# Fairness Implementation Playbook: decision rules

The playbook is a single-page Streamlit site made of guidance text, checklists and
small interactive widgets. Three of those widgets hold decision logic. This project
models them in Dafny and proves what they promise:

- **Multi-Factor Risk Classification Calculator** (`risk_classification.dfy`, module
  `RiskClassification`). Four qualitative answers are asked: domain impact, autonomy
  level, decision impact and scale. Each answer is weighted 1, 3 or 5 through a
  fixed table. The weights are summed into a score shown as "score / 20". The score
  is bucketed into "Minimal / Low Risk", "Limited Risk" or "High Risk". Answers are
  kept as the option labels the sliders show. The tables are `map<string, int>`
  values. A slider's order of options is a `seq<string>`, which is the key order of
  its table.
- **Governance gate check** (`governance_gates.dfy`, module `GovernanceGates`). Four
  checkboxes are shown. The project is cleared for deployment only when Python's
  `all` holds over the four of them. `all` is modelled as a recursive function over
  a sequence of flags.
- **Model-card choice** (`model_card_review.dfy`, module `ModelCardReview`). A radio
  offers three classifiers and starts with none selected. The selection maps to a
  fixed verdict and its display tone (success, warning or error). No selection
  gives no verdict.

`wrappers.dfy` holds the `Option` type used for the radio's empty selection and for
the absent verdict.

## Model

| member | source | states |
|---|---|---|
| `RiskClassification.TableWeights` | app.py:1220-1228 | each factor's table is keyed by exactly its slider's three options, gives 1 to the lowest, 3 to the middle and 5 to the highest; the options are distinct and each slider starts on its middle option |
| `RiskClassification.FactorScore` | app.py:1220-1223 | the lookup of a valid answer in its factor's table contributes 1, 3 or 5 |
| `RiskClassification.WeightByPosition` | app.py:1220-1228 | an answer's weight is 2 × its slider position + 1, so a higher option always weighs more |
| `RiskClassification.TotalScore` | app.py:1230 | the sum of the four weights lies in [4, 20], matching the "/ 20" shown, and is even |
| `RiskClassification.EveryEvenScoreReachable` | app.py:1220-1230 | every even score from 4 to 20 is produced by some answers, so the calculator's scores are exactly the even numbers in [4, 20] |
| `RiskClassification.Classify` | app.py:1232-1236 | the tier partitions the scores: below 8 is "Minimal / Low Risk", 8 to 12 inclusive is "Limited Risk", above 12 is "High Risk" |
| `RiskClassification.LabelsDistinct` | app.py:1232-1236 | the three tiers are shown with three different texts |
| `RiskClassification.ClassifyMonotone` | app.py:1232-1236 | a higher score never gives a less severe tier |
| `RiskClassification.RaisingAnswersNeverLowersTier` | app.py:1225-1236 | answers whose every slider is at least as high give a score and a tier at least as high |
| `RiskClassification.RaisingOneFactorNeverLowersTier` | app.py:1225-1236 | moving any single slider to a higher option keeps the answers valid and never lowers the tier |
| `RiskClassification.WithAnswer` | app.py:1225-1228 | moving one slider changes that factor's answer only |
| `RiskClassification.DefaultAnswersAreLimitedRisk` | app.py:1225-1236 | the starting answers (Medium, Human over the loop, Affects Opportunities, 1k - 100k people) score 12, which is "Limited Risk" |
| `RiskClassification.ExtremeAnswers` | app.py:1220-1236 | all-lowest answers score 4 ("Minimal / Low Risk") and all-highest answers score 20 ("High Risk") |
| `GovernanceGates.All` | app.py:566 | `all` of a list of flags holds exactly when every flag holds |
| `GovernanceGates.CheckGates` | app.py:561-569 | the project is cleared if and only if all four gates are ticked, and blocked otherwise |
| `GovernanceGates.AnyUncheckedGateBlocks` | app.py:566-569 | whichever single gate is unticked, the project cannot proceed |
| `ModelCardReview.VerdictFor` | app.py:822-840 | Model B gives "Correct", Model A "Risky", Model C "Very Risky", and no selection (or any other text) gives no verdict; each verdict comes from exactly one selection |
| `ModelCardReview.OnlyModelBIsCorrect` | app.py:822-840 | every option of the radio gets a verdict, and it is "Correct" only for Model B |

## Left out

- Page rendering (headers, markdown, expanders, tabs, metrics, popovers, download buttons): presentation with no logic. The verdict and gate messages are kept as text; the long explanatory paragraphs under each verdict are not.
- The widgets themselves: the model takes the sliders', checkboxes' and radio's current values as parameters. Session state and reruns belong to Streamlit.
- Altair charts (app.py:645-653, app.py:964-971): foreign rendering calls.
- The fairlearn `MetricFrame` and sklearn accuracy disaggregation and the pandas gap (app.py:1013-1037): foreign library calls over floating-point accuracies.
- The modality-dominance weighted score (app.py:1078-1099) and the "fairness boost" reallocation (app.py:949-962): floating-point arithmetic for a demo.
- `fair_rerank` and `check_demographic_parity` (app.py:938-947, app.py:247-262): string literals displayed as code, never executed.
- The RASCI table, heatmap data, model card and compliance addendum templates (app.py:517-532, app.py:639-643, app.py:586-614, app.py:1345-1364): static literal data.
