/** The deterministic rules of the synthetic-data generator. The random
    draws (feature values, the sigmoid outputs of the latent formulas, the
    uniform draws for QC failure, the sampled rows, note numbers and review
    statuses) are inputs. */
module DataGen {
  import opened Frames
  import opened Format
  import opened Schema

  // =====================================================================
  // Formulation table

  /** `EXP-` followed by the 0-based row number, zero-padded to five digits. */
  function ExpId(i: nat): string
  {
    "EXP-" + PaddedDecimal(i, 5)
  }

  /** An experiment id reads back to its row number, so ids are distinct. */
  lemma ExpIdDecodes(i: nat)
    ensures ExpId(i)[..4] == "EXP-"
    ensures Value(ExpId(i)[4..]) == i
    ensures i < 100000 ==> |ExpId(i)| == 9
  {
    assert ExpId(i)[4..] == PaddedDecimal(i, 5);
    assert Pow10(5) == 100000;
  }

  lemma ExpIdInjective(i: nat, j: nat)
    ensures ExpId(i) == ExpId(j) ==> i == j
  {
    ExpIdDecodes(i);
    ExpIdDecodes(j);
  }

  /** What one row draws: its features, the sigmoid values of the three
      noisy latent scores, and the uniform number that decides QC failure. */
  datatype RowDraw = RowDraw(
    features: Features,
    permeabilitySignal: real,
    irritationSignal: real,
    stabilitySignal: real,
    qcUniform: real)

  function IrritationRisk(signal: real): (r: real)
    ensures r == Clip(signal, 0.0, 1.0)
    ensures 0.0 <= r <= 1.0
  {
    Clip(signal, 0.0, 1.0)
  }

  function StabilityDays(signal: real): (r: real)
    ensures r == Clip(365.0 * signal, 15.0, 365.0)
    ensures 15.0 <= r <= 365.0
  {
    Clip(365.0 * signal, 15.0, 365.0)
  }

  function QcFailProb(irritation: real, stability: real): (r: real)
    ensures r == Clip(0.15 * irritation + 0.25 * (1.0 - stability / 365.0), 0.0, 0.9)
    ensures 0.0 <= r <= 0.9
  {
    Clip(0.15 * irritation + 0.25 * (1.0 - stability / 365.0), 0.0, 0.9)
  }

  /** With the two inputs inside their own clamps the raw probability lies in
      [0, 0.4], so the upper bound of 0.9 never applies. */
  lemma QcFailProbUnclipped(irritation: real, stability: real)
    requires 0.0 <= irritation <= 1.0 && 15.0 <= stability <= 365.0
    ensures QcFailProb(irritation, stability) == 0.15 * irritation + 0.25 * (1.0 - stability / 365.0)
    ensures QcFailProb(irritation, stability) <= 0.4
  {
    assert 0.0 <= stability / 365.0 <= 1.0;
  }

  /** A row fails QC when its uniform draw falls below its probability. */
  function QcFail(uniform: real, prob: real): (r: int)
    ensures r == 0 || r == 1
    ensures r == 1 <==> uniform < prob
  {
    if uniform < prob then 1 else 0
  }

  function FormulationRow(i: nat, d: RowDraw): Formulation
  {
    var irritation := IrritationRisk(d.irritationSignal);
    var stability := StabilityDays(d.stabilitySignal);
    Formulation(ExpId(i), d.features, 100.0 * d.permeabilitySignal, irritation, stability,
      QcFail(d.qcUniform, QcFailProb(irritation, stability)))
  }

  /** `generate_synthetic_formulation_data`, one row per draw. */
  function GenerateFormulations(draws: seq<RowDraw>): (r: seq<Formulation>)
    ensures |r| == |draws|
    ensures forall i :: 0 <= i < |r| ==>
      && r[i].expId == ExpId(i)
      && r[i].features == draws[i].features
      && r[i].permeabilityScore == 100.0 * draws[i].permeabilitySignal
      && r[i].irritationRisk == IrritationRisk(draws[i].irritationSignal)
      && r[i].stabilityDays == StabilityDays(draws[i].stabilitySignal)
      && r[i].qcFail == QcFail(draws[i].qcUniform, QcFailProb(r[i].irritationRisk, r[i].stabilityDays))
      && 0.0 <= r[i].irritationRisk <= 1.0
      && 15.0 <= r[i].stabilityDays <= 365.0
      && (r[i].qcFail == 0 || r[i].qcFail == 1)
  {
    seq(|draws|, i requires 0 <= i < |draws| => FormulationRow(i, draws[i]))
  }

  /** No two generated rows share an experiment id. */
  lemma GeneratedIdsDistinct(draws: seq<RowDraw>)
    ensures var rows := GenerateFormulations(draws);
      forall i, j :: 0 <= i < j < |rows| ==> rows[i].expId != rows[j].expId
  {
    var rows := GenerateFormulations(draws);
    forall i, j | 0 <= i < j < |rows|
      ensures rows[i].expId != rows[j].expId
    {
      ExpIdInjective(i, j);
    }
  }

  // =====================================================================
  // Development notes

  /** The five observation clauses, in their fixed order. */
  datatype Clause = StabilityConcern | TolerabilityConcern | PermeabilityStrong | QcOutOfSpec | WithinBounds

  function ClauseText(c: Clause): string
  {
    match c
    case StabilityConcern => "Stability concern: accelerated degradation observed."
    case TolerabilityConcern => "Tolerability concern: irritation proxy elevated."
    case PermeabilityStrong => "Permeability signal strong; favorable delivery profile."
    case QcOutOfSpec => "QC observation: out-of-spec event recorded in run."
    case WithinBounds => "Development observation: within expected bounds."
  }

  /** Position of a clause in the fixed order; the default clause comes last. */
  function ClauseRank(c: Clause): nat
  {
    match c
    case StabilityConcern => 0
    case TolerabilityConcern => 1
    case PermeabilityStrong => 2
    case QcOutOfSpec => 3
    case WithinBounds => 4
  }

  predicate StabilityFires(r: Formulation) { r.stabilityDays < 120.0 }
  predicate TolerabilityFires(r: Formulation) { r.irritationRisk > 0.65 }
  predicate PermeabilityFires(r: Formulation) { r.permeabilityScore > 70.0 }
  predicate QcFires(r: Formulation) { r.qcFail == 1 }

  predicate AnyFires(r: Formulation)
  {
    StabilityFires(r) || TolerabilityFires(r) || PermeabilityFires(r) || QcFires(r)
  }

  /** The clauses of one row's observation, in the order of the four checks,
      or the default clause when none applies. */
  function Clauses(r: Formulation): seq<Clause>
  {
    var fired :=
      (if StabilityFires(r) then [StabilityConcern] else [])
      + (if TolerabilityFires(r) then [TolerabilityConcern] else [])
      + (if PermeabilityFires(r) then [PermeabilityStrong] else [])
      + (if QcFires(r) then [QcOutOfSpec] else []);
    if fired == [] then [WithinBounds] else fired
  }

  /** The observation text: the clause texts joined by single spaces. */
  function Observation(r: Formulation): string
  {
    Join(Project(Clauses(r), ClauseText), " ")
  }

  /** Each clause is present exactly when its threshold holds, and the
      default clause exactly when none holds, and then alone. */
  lemma ClausesFireIff(r: Formulation)
    ensures StabilityConcern in Clauses(r) <==> r.stabilityDays < 120.0
    ensures TolerabilityConcern in Clauses(r) <==> r.irritationRisk > 0.65
    ensures PermeabilityStrong in Clauses(r) <==> r.permeabilityScore > 70.0
    ensures QcOutOfSpec in Clauses(r) <==> r.qcFail == 1
    ensures WithinBounds in Clauses(r) <==> !AnyFires(r)
    ensures !AnyFires(r) ==> Clauses(r) == [WithinBounds]
  {
  }

  /** The clauses of an observation appear in the fixed order, each once. */
  lemma ClausesOrdered(r: Formulation)
    ensures forall i, j :: 0 <= i < j < |Clauses(r)| ==> ClauseRank(Clauses(r)[i]) < ClauseRank(Clauses(r)[j])
  {
  }

  /** An observation begins with the text of its first clause: the first
      threshold that holds, or the default clause. */
  lemma ObservationStartsWithFirstClause(r: Formulation)
    ensures |Clauses(r)| > 0
    ensures var first := ClauseText(Clauses(r)[0]);
      |Observation(r)| >= |first| && Observation(r)[..|first|] == first
  {
    var cs := Clauses(r);
    assert |cs| > 0;
    JoinOfProjectStarts(cs, ClauseText, " ");
  }

  /** What one note draws: its random note number and review status. */
  datatype NoteDraw = NoteDraw(noteNumber: nat, reviewStatus: string)

  /** The body of the note loop: the four checks in order, each appending
      its clause, then the default clause when none applied. */
  method CollectClauses(row: Formulation) returns (obs: seq<Clause>)
    ensures obs == Clauses(row)
    ensures |obs| > 0
  {
    obs := [];
    if row.stabilityDays < 120.0 {
      obs := obs + [StabilityConcern];
    }
    if row.irritationRisk > 0.65 {
      obs := obs + [TolerabilityConcern];
    }
    if row.permeabilityScore > 70.0 {
      obs := obs + [PermeabilityStrong];
    }
    if row.qcFail == 1 {
      obs := obs + [QcOutOfSpec];
    }
    if obs == [] {
      obs := obs + [WithinBounds];
    }
  }

  /** The note written for one sampled row. */
  function NoteFor(row: Formulation, d: NoteDraw): Note
  {
    Note("NOTE-" + Decimal(d.noteNumber), row.expId, Observation(row), d.reviewStatus)
  }

  /** One pass of the note loop: the clauses of the row, joined by single
      spaces, with the drawn id and review status. */
  method WriteNote(row: Formulation, d: NoteDraw) returns (note: Note)
    ensures note == NoteFor(row, d)
  {
    var obs := CollectClauses(row);
    note := Note("NOTE-" + Decimal(d.noteNumber), row.expId, Join(Project(obs, ClauseText), " "), d.reviewStatus);
  }

  /** `generate_synthetic_dev_notes`: `picks` are the row positions chosen by
      the sampling step, `draws` the per-note random values. A negative
      sample size is refused, as the sampler does. */
  method GenerateSyntheticDevNotes(df: seq<Formulation>, nNotes: int, picks: seq<nat>, draws: seq<NoteDraw>)
    returns (r: Result<seq<Note>>)
    requires nNotes >= 0 ==> |picks| == Min(|df|, nNotes)
    requires forall k :: 0 <= k < |picks| ==> picks[k] < |df|
    requires forall k, l :: 0 <= k < l < |picks| ==> picks[k] != picks[l]
    requires |draws| == |picks|
    ensures nNotes < 0 <==> r.Error?
    ensures r.Ok? ==> |r.value| == Min(|df|, nNotes)
    ensures r.Ok? ==> forall k :: 0 <= k < |r.value| ==>
      && r.value[k].expId == df[picks[k]].expId
      && r.value[k].observation == Observation(df[picks[k]])
      && r.value[k].noteId == "NOTE-" + Decimal(draws[k].noteNumber)
      && r.value[k].reviewStatus == draws[k].reviewStatus
  {
    if nNotes < 0 {
      return Error("a negative number of rows was requested");
    }
    var rows: seq<Note> := [];
    var k := 0;
    while k < |picks|
      invariant 0 <= k <= |picks|
      invariant |rows| == k
      invariant forall l :: 0 <= l < k ==> rows[l] == NoteFor(df[picks[l]], draws[l])
    {
      var note := WriteNote(df[picks[k]], draws[k]);
      ghost var before := rows;
      rows := rows + [note];
      assert forall l :: 0 <= l < k ==> rows[l] == before[l];
      k := k + 1;
    }
    return Ok(rows);
  }
}
