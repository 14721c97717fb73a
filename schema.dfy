/** The row records shared by the agents and the synthetic-data generator.
    Column names follow the source; numbers are exact reals, not IEEE
    doubles. */
module Schema {

  /** The eight model inputs, in the order of the FEATURES list. */
  datatype Features = Features(
    apiLoad: real,
    solventRatio: real,
    polymerPct: real,
    surfactantPct: real,
    ph: real,
    viscosity: real,
    processTemp: real,
    mixTime: real)

  /** One row of the synthetic formulation table. */
  datatype Formulation = Formulation(
    expId: string,
    features: Features,
    permeabilityScore: real,
    irritationRisk: real,
    stabilityDays: real,
    qcFail: int)

  /** One development note about an experiment. */
  datatype Note = Note(
    noteId: string,
    expId: string,
    observation: string,
    reviewStatus: string)
}
