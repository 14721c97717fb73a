# Formulation R&D agents: a Dafny model

This project models the decision core of an agentic formulation-R&D prototype.

- **The formulation-intelligence agent** scores a pool of candidate formulations with four fitted models. It clamps irritation to [0, 1] and stability to [15, 365] days. It filters the pool by optional thresholds and ranks the survivors by a fixed-weight utility. It returns the top `n` rows, stamped `PROP-001`, `PROP-002`, ….
- **The evidence-readiness agent** joins development notes, grouped per experiment, onto the formulation table. Rows without notes read "No notes.". It scores each row's urgency and keeps the `top_n` most urgent rows, each with a trace string.
- **The orchestrator** re-ranks a proposal table under a named policy. The names are `balanced`, `speed_to_clinic` and `low_risk`; any other name falls back to `balanced`.
- **The synthetic-data generator** contributes its deterministic rules:
  - the `EXP-00000` id scheme;
  - the clamps on irritation, stability and QC-fail probability;
  - the QC-failure threshold;
  - the observation rule that turns a formulation row into a note;
  - the loop that builds one note per sampled row.

## How it is modelled

- **Tables.** A pandas table is a `seq` of records, one datatype per table shape: `Scored`, `Rated`, `Proposal`, `PolicyRanked`, `MergedRow`, `PackRow`.
- **Numbers.** Columns are exact `real`s.
- **pandas primitives.** Boolean-mask filtering, `head`, `sort_values(ascending=False)` and `" ".join` are functions in module `Frames`. Each has a contract, except `Join`, whose property is stated by the lemma `JoinStartsWithFirst`.
- **Sorting.** The sort is proved to return a descending permutation. pandas' default sort is not stable, so nothing is claimed about the order among equal keys. Instead, `SortedDescUnique` shows that, without ties, every descending arrangement is the same one.
- **Fitted models.** The four models are injected functions `Features -> real`.
- **Random values.** Every random draw is an input: the candidate pool, the sigmoid values of the noisy latent scores, the uniform QC draws, the sampled row positions, and the note numbers and review statuses.
- **Proposal and evidence pipelines.** These are vectorised in the source, with no loops, so they are functions.
- **Note generation.** The note-generation loop builds a list step by step, so it is a `method` with a `while` loop. It is proved against the specification function `Observation`.

Modules:

| module | file | models |
|---|---|---|
| `Frames` | frames.dfy | filtering, `head`, descending sort, column projection, join, clip |
| `Format` | format.dfy | zero-padded decimal ids and their read-back |
| `Schema` | schema.dfy | feature, formulation and note records |
| `Agents` | agents.dfy | `score`, `propose_next_experiments`, `build_evidence_pack` |
| `Orchestrator` | orchestrator.dfy | `orchestrate` |
| `DataGen` | data_gen.dfy | id scheme, clamps, QC rule, observation rule, note loop |
| `Scenario` | scenario.dfy | a five-candidate worked example |

### Behaviour of the code worth noting

- **Unknown policy names.** `orchestrate` raises no error on an unknown policy name. It silently uses the balanced weights (orchestrator.py:9-10). `PolicyWeights` does the same, and `FallbackScoresAsUtility` and `FallbackKeepsStrictRanking` state what that fallback means.
- **Sort stability.** `sort_values` is called with pandas' default algorithm (agents.py:57, agents.py:71, orchestrator.py:18), which does not promise stability. The model therefore claims only a descending permutation. `ProposeWithoutTies` shows the result is fully determined when no two utilities tie.
- **Threshold validation.** The code checks no threshold against its column's range, so the model accepts any threshold.
- **Fail probability.** The code clamps irritation and stability but not the fail probability (agents.py:24-26). `ScoreRow` states that the column is the model's probability unchanged.

## Model

| member | source | states |
|---|---|---|
| Frames.Clip | agents.py:24-25 | `np.clip`: the result lies in [lo, hi]; it is x inside the range, lo below it and hi above it |
| Frames.Where | agents.py:45 | `df[mask]`: kept rows pass the mask and come from the input; every input row that passes is kept; no row occurs more often than in the input |
| Frames.WhereCounts | agents.py:45 | `df[mask]` keeps every copy of a passing row and no copy of a failing one |
| Frames.WhereIsSubseq | agents.py:43-49 | filtering keeps the surviving rows in their original relative order |
| Frames.WhereAnd | agents.py:44-49 | two successive filters are one filter by the conjunction of their masks |
| Frames.Head | agents.py:57 | `head(n)`: the first min(n, len) rows; for a negative n, all but the last \|n\| rows |
| Frames.SortDesc | agents.py:57 | `sort_values(ascending=False)`: a permutation of the input, in non-increasing key order |
| Frames.InsertDescSorted | agents.py:57 | inserting a row into a descending table keeps it descending |
| Frames.TopOfSortDominates | agents.py:57 | no row left out by `head` after the descending sort has a key above the last row kept |
| Frames.SortedDescUnique | agents.py:57 | with pairwise distinct keys, two descending arrangements of the same rows are equal |
| Frames.ProjectPermutation | orchestrator.py:18 | rearranging rows rearranges any column of them the same way (same multiset) |
| Frames.JoinStartsWithFirst | data_gen.py:85 | a space-joined list of strings begins with its first string |
| Format.ValueOfDecimal | agents.py:58 | the decimal rendering of a number reads back to that number |
| Format.PaddedDecimal | data_gen.py:50 | `{i:05d}`: digits only, reads back to i, at least `width` long, exactly `width` long when i fits |
| Agents.ScoreRow | agents.py:20-27 | features pass through; permeability and fail probability are the models' values unchanged; irritation is `Clip` of the irritation model's value to [0, 1] and stability `Clip` of the stability model's value to [15, 365], so each is unchanged when already inside |
| Agents.Score | agents.py:20-27 | one scored row per input row, in input order, each within the clamps |
| Agents.ConstraintsAreConjunctive | agents.py:43-49 | the three optional successive filters equal one filter by the conjunction of the supplied thresholds |
| Agents.ApplyConstraints | agents.py:43-49 | filtering never adds rows: the survivors are a sub-multiset of the scored rows (what survives is stated by ConstraintFilterExact) |
| Agents.ConstraintFilterExact | agents.py:43-49 | a row survives exactly when it is an input row that meets every supplied threshold; each passing row keeps all its copies and each failing row none; survivors keep their order |
| Agents.ConstraintsCompose | agents.py:43-49 | thresholds with distinct keys filter the same together as in two successive calls |
| Agents.AdmitsUnion | agents.py:43-49 | a row meets two dictionaries' thresholds (distinct keys) exactly when it meets their union's |
| Agents.NoConstraintsKeepAll | agents.py:43 | no dictionary, or an empty one, removes no row |
| Agents.Utility | agents.py:51-56 | no contract of its own: Rate attaches it to every survivor, ProposeOrdered ranks by it, and Orchestrator.FallbackScoresAsUtility shows it is the balanced policy score |
| Agents.Rate | agents.py:51-56 | every surviving row gets the fixed-weight utility column |
| Agents.ProposalId | agents.py:58 | no contract of its own: ProposalIdDecodes and ProposalIdInjective state its format and injectivity |
| Agents.ProposalIdDecodes | agents.py:58 | `PROP-{i:03d}` starts with `PROP-`, its digits read back to i, and it has 8 characters for ranks 1..999 |
| Agents.ProposalIdInjective | agents.py:58 | distinct ranks get distinct proposal ids |
| Agents.StampIds | agents.py:58 | row i of the top rows gets id `ProposalId(i + 1)`, with its other columns unchanged |
| Agents.StampIdsDistinct | agents.py:58 | no two stamped rows share a proposal id |
| Agents.UnstampStampIds | agents.py:58 | stamping ids changes nothing but the id column |
| Agents.ProposeNextExperiments | agents.py:29-59 | at most `len(candidates)` proposals, at most n when n >= 0, the i-th stamped `ProposalId(i + 1)`; the lemmas ProposeLength to ProposeWithoutTies below state the rest |
| Agents.ProposeLength | agents.py:57-59 | min(n, survivors) proposals (all but the last \|n\| when n < 0); none, not an error, when nothing survives |
| Agents.ProposeOrdered | agents.py:51-57 | proposals come in non-increasing utility, each with its own row's utility |
| Agents.ProposeIds | agents.py:58 | ids are PROP-001, PROP-002, … in output order, pairwise distinct |
| Agents.ProposeFromSurvivors | agents.py:41-49 | every proposal is a scored candidate that meets every supplied threshold and lies within the clamps |
| Agents.ProposalsFromRated | agents.py:43-58 | the proposals, ids aside, are a sub-multiset of the rated survivors |
| Agents.ProposeKeepsBest | agents.py:57 | no surviving row left out has a utility above the last proposal |
| Agents.ProposeWithoutTies | agents.py:57-58 | without ties in utility, the proposals are the top of any descending arrangement of the survivors |
| Agents.GroupNotes | agents.py:63 | no contract of its own: GroupNotesJoins states which experiments get a group and what it holds |
| Agents.GroupNotesJoins | agents.py:63 | an experiment has a notes group exactly when it has notes; the group is its observations joined by single spaces, in note order |
| Agents.MergeNotesSpec | agents.py:63-65 | the left join keeps every formulation row once, in order, with its own joined notes or "No notes." |
| Agents.MergeNotes | agents.py:63-65 | no contract of its own: MergeNotesSpec states the left join and the "No notes." fill |
| Agents.Priority | agents.py:66-70 | no contract of its own: EvidencePackSpec states that every pack row carries it and EvidencePackKeepsMostUrgent that the pack ranks by it |
| Agents.BuildEvidencePack | agents.py:62-73 | no contract of its own: EvidencePackSpec, UnpackPackRows and EvidencePackKeepsMostUrgent state its length, order, columns and selection |
| Agents.EvidencePackSpec | agents.py:66-72 | min(top_n, rows) rows in non-increasing priority, each with its priority formula and trace `Data row exp_id=…` |
| Agents.UnpackPackRows | agents.py:71-72 | adding priority and trace columns changes no other column |
| Agents.EvidencePackKeepsMostUrgent | agents.py:71 | the pack is drawn from the merged table, and no row left out is more urgent than the last row kept |
| Orchestrator.PolicyWeights | orchestrator.py:5-10 | `speed_to_clinic` and `low_risk` select their own weights (if and only if); every other name gets the balanced weights; all weights are positive |
| Orchestrator.PolicyScore | orchestrator.py:12-17 | no contract of its own: Annotate attaches it to every row and FallbackScoresAsUtility relates it to the utility |
| Orchestrator.Orchestrate | orchestrator.py:3-18 | no contract of its own: OrchestratePermutes, OrchestrateOrdered and SameIdsAsInput state that it rearranges the input into non-increasing policy score |
| Orchestrator.Annotate | orchestrator.py:12-17 | every row gets its policy score and keeps its proposal |
| Orchestrator.OrchestratePermutes | orchestrator.py:18 | the output is the input proposals rearranged, each carrying its own policy score |
| Orchestrator.OrchestrateOrdered | orchestrator.py:18 | the output is in non-increasing policy score |
| Orchestrator.FallbackScoresAsUtility | orchestrator.py:9-17 | under balanced or an unknown name, each row's policy score equals its proposal utility |
| Orchestrator.SameIdsAsInput | orchestrator.py:18 | re-ranking keeps exactly the input's proposal ids, with multiplicity |
| Orchestrator.TwoPoliciesSameIds | orchestrator.py:3-18 | two policies applied to one proposal table yield the same multiset of ids |
| Orchestrator.FallbackKeepsStrictRanking | orchestrator.py:9-18 | re-ranking proposals with distinct utilities under balanced keeps their order |
| DataGen.ExpId | data_gen.py:50 | no contract of its own: ExpIdDecodes and ExpIdInjective state its format and injectivity |
| DataGen.ExpIdDecodes | data_gen.py:50 | `EXP-{i:05d}` starts with `EXP-`, reads back to i, and has 9 characters below 100000 |
| DataGen.ExpIdInjective | data_gen.py:50 | distinct rows get distinct experiment ids |
| DataGen.IrritationRisk | data_gen.py:34 | irritation risk is the sigmoid value clipped to [0, 1], so it lies in [0, 1] |
| DataGen.StabilityDays | data_gen.py:44 | stability is 365 times the sigmoid value clipped to [15, 365], so it lies in [15, 365] days |
| DataGen.QcFailProb | data_gen.py:46 | QC fail probability is 0.15 irritation + 0.25 (1 - stability/365) clipped to [0, 0.9], so it lies in [0, 0.9] |
| DataGen.QcFailProbUnclipped | data_gen.py:46 | for in-range irritation and stability the raw probability is at most 0.4, so the 0.9 cap never applies |
| DataGen.QcFail | data_gen.py:47 | qc_fail is 0 or 1, and 1 exactly when the uniform draw is below the probability |
| DataGen.FormulationRow | data_gen.py:49-63 | no contract of its own: GenerateFormulations states every column of the row it builds |
| DataGen.GenerateFormulations | data_gen.py:49-63 | one row per draw: row i has id `EXP-` i and its drawn features, permeability 100 times its signal, the clipped irritation and stability, and qc_fail from its uniform draw against the clipped fail probability; all three clamps hold |
| DataGen.GeneratedIdsDistinct | data_gen.py:50 | no two generated rows share an experiment id |
| DataGen.Clauses | data_gen.py:71-81 | no contract of its own: ClausesFireIff and ClausesOrdered state which clauses appear and in what order |
| DataGen.Observation | data_gen.py:71-85 | no contract of its own: ObservationStartsWithFirstClause states its shape, and CollectClauses and GenerateSyntheticDevNotes are proved against it |
| DataGen.ClausesFireIff | data_gen.py:71-81 | each clause appears exactly when its threshold holds; the default clause appears exactly when none holds, and then alone |
| DataGen.ClausesOrdered | data_gen.py:71-81 | clauses appear in the fixed order of the four checks, each at most once |
| DataGen.ObservationStartsWithFirstClause | data_gen.py:71-85 | an observation has at least one clause and begins with the text of its first clause |
| DataGen.CollectClauses | data_gen.py:71-81 | the four checks in order, each appending its clause, then the default when none applied, yield exactly the clauses of the observation rule |
| DataGen.WriteNote | data_gen.py:71-87 | one pass of the note loop writes the note for that row: drawn id, the row's exp_id, its observation, drawn review status |
| DataGen.GenerateSyntheticDevNotes | data_gen.py:66-88 | refuses a negative sample size; otherwise one note per sampled row, with that row's experiment id and observation, the drawn note number and review status |
| Scenario.RatedPool | agents.py:51-56 | the five-candidate pool rates to the five rows written out |
| Scenario.ExpectedRanksSurvivors | agents.py:51-57 | the 4th, 1st, 2nd, 3rd, 5th order is a descending arrangement of the rated pool, with no ties |
| Scenario.ScenarioProposals | agents.py:57-58 | with no constraints and n = 10, the proposals are the 4th, 1st, 2nd, 3rd and 5th candidate, in that order |
| Scenario.ScenarioRanking | agents.py:57-58 | the scenario yields five proposals in that order, stamped PROP-001 to PROP-005 |
| Scenario.ScenarioBalancedKeepsOrder | orchestrator.py:3-18 | re-ranking the scenario's proposals under balanced keeps their order |

## Left out

- `FormulationIntelligenceAgent.__init__` (agents.py:10-18) loads the four models from joblib files. The models are parameters here. As written, its default-directory line (agents.py:12) ends in a bare `/`.
- The random number generator and the sampling distributions (uniform, log-normal, normal) are not modelled. Every draw is an input, including the 600-row candidate pool of `propose_next_experiments` and the positions chosen by `DataFrame.sample`.
- The latent formulas and `sigmoid` of `generate_synthetic_formulation_data` are not modelled. The model takes the sigmoid outputs as inputs, because `exp` and `log` are outside exact real arithmetic.
- Floating-point rounding is not modelled. All arithmetic is exact `real` arithmetic.
- Frames.SortDesc: it fixes one descending order (insertion order among ties). No member claims anything about ties, because pandas' default sort does not promise an order for them.
- `reset_index(drop=True)` is not modelled: rows carry no index in the model.
- Missing values (NaN) in any column are not modelled.
- A model that fails to produce a value is not modelled. The models are total functions.
- DataGen.GenerateSyntheticDevNotes: with no sampled row (`n_notes=0` or an empty table), the source builds a DataFrame with no columns at all, and `build_evidence_pack` then raises `KeyError('exp_id')` at agents.py:63. The model returns an empty note list instead, and `BuildEvidencePack` gives every row "No notes.". The application always asks for 200 notes (app.py:94).
- DataGen.GenerateSyntheticDevNotes: a pool smaller than requested yields `min(len, n)` notes, as in the source. The note-number range 100000..999998 and the review-status weights belong to the random draws, which are inputs.
- app.py (the user interface), train_models.py (model fitting) and authoring.py (report text) are not part of this model.
