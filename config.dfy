/** The constants of src/penguin_classifier/config.py that the core reads. */
module Config {

  /** Paths of the two CSV files, relative to the project root. */
  const RAW_DATA_PATH: string := "data/raw/data.csv"
  const PROCESSED_DATA_PATH: string := "data/processed/prediction_history.csv"

  /** Column order of the prediction log. */
  const CSV_HEADER: seq<string> := [
    "species",
    "island",
    "bill_length_mm",
    "bill_depth_mm",
    "flipper_length_mm",
    "body_mass_g",
    "sex"
  ]

  const NUMERICAL_FEATURES: seq<string> := [
    "bill_length_mm",
    "bill_depth_mm",
    "flipper_length_mm",
    "body_mass_g"
  ]

  /** Declared input range of a numeric feature (used by the input widgets only). */
  datatype Constraint = Constraint(min: real, max: real, default: real)

  const FEATURE_CONSTRAINTS: map<string, Constraint> := map[
    "bill_length_mm" := Constraint(25.0, 65.0, 40.0),
    "bill_depth_mm" := Constraint(10.0, 25.0, 20.0),
    "flipper_length_mm" := Constraint(150.0, 250.0, 200.0),
    "body_mass_g" := Constraint(2000.0, 7500.0, 4000.0)
  ]

  predicate WithinConstraint(feature: string, x: real)
  {
    feature in FEATURE_CONSTRAINTS
    && FEATURE_CONSTRAINTS[feature].min <= x <= FEATURE_CONSTRAINTS[feature].max
  }

  /** Every numeric feature, and nothing else, has a declared range, and each default lies inside it. */
  lemma ConstraintsCoverNumericFeatures()
    ensures forall f :: f in FEATURE_CONSTRAINTS <==> f in NUMERICAL_FEATURES
    ensures forall f :: f in FEATURE_CONSTRAINTS ==> WithinConstraint(f, FEATURE_CONSTRAINTS[f].default)
  {
  }
}
