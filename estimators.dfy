/**
 * The estimator factory: a closed dispatch from a model name to a fixed
 * classifier configuration. The classifiers themselves are foreign code;
 * only the configuration the factory selects is modelled.
 */
module Estimators {
  import opened Wrappers

  /** The four estimator kinds the factory knows. */
  datatype Kind = Ridge | HistGradientBoosting | XGBoost | LightGBM

  /** An unfitted classifier with its hyper-parameters. */
  datatype Estimator =
    | RidgeClassifier
    | HistGradientBoostingClassifier(randomState: int)
    | XGBClassifier(objective: string, randomState: int, nEstimators: nat, learningRate: real, maxDepth: nat,
                    subsample: real, colsampleBytree: real, treeMethod: string, nJobs: int)
    | LGBMClassifier(randomState: int, nEstimators: nat, learningRate: real, numLeaves: nat,
                     subsample: real, colsampleBytree: real, nJobs: int)
  {
    function KindOf(): Kind {
      match this
      case RidgeClassifier => Ridge
      case HistGradientBoostingClassifier(_) => HistGradientBoosting
      case XGBClassifier(_, _, _, _, _, _, _, _, _) => XGBoost
      case LGBMClassifier(_, _, _, _, _, _, _) => LightGBM
    }

    /** The seed the estimator is built with, if it takes one. */
    function Seed(): Option<int> {
      match this
      case RidgeClassifier => None
      case HistGradientBoostingClassifier(s) => Some(s)
      case XGBClassifier(_, s, _, _, _, _, _, _, _) => Some(s)
      case LGBMClassifier(s, _, _, _, _, _, _) => Some(s)
    }
  }

  /** The exception raised for a name the factory does not know. */
  datatype FactoryError = ValueError(message: string)

  /** The name the factory accepts for each kind. */
  function NameOf(k: Kind): string {
    match k
    case Ridge => "ridge"
    case HistGradientBoosting => "histgradientboosting"
    case XGBoost => "xgboost"
    case LightGBM => "lightgbm"
  }

  const ModelNames: set<string> := {"ridge", "histgradientboosting", "xgboost", "lightgbm"}

  /** part occurs in text starting at position k. */
  predicate OccursAt(text: string, part: string, k: nat) {
    k + |part| <= |text| && text[k..k + |part|] == part
  }

  predicate Contains(text: string, part: string) {
    exists k: nat | k <= |text| :: OccursAt(text, part, k)
  }

  /**
   * The estimator for a model name. Exactly the four known names succeed, each
   * with an estimator of its own kind; any other name fails with a ValueError
   * whose message contains the name.
   */
  function MakeEstimatorForName(name: string): (r: Result<Estimator, FactoryError>)
    ensures r.Success? <==> name in ModelNames
    ensures r.Success? ==> NameOf(r.value.KindOf()) == name
    ensures r.Failure? ==> Contains(r.error.message, name)
  {
    if name == "ridge" then
      Success(RidgeClassifier)
    else if name == "histgradientboosting" then
      Success(HistGradientBoostingClassifier(42))
    else if name == "xgboost" then
      Success(XGBClassifier("reg:squarederror", 42, 300, 0.1, 6, 0.8, 0.8, "hist", -1))
    else if name == "lightgbm" then
      Success(LGBMClassifier(42, 300, 0.05, 31, 0.8, 0.8, -1))
    else
      var message := "Unknown model name: " + name;
      assert OccursAt(message, name, |message| - |name|);
      Failure(ValueError(message))
  }

  /** Each kind's name parses back to that kind: the dispatch is total on the four names and distinguishes them. */
  lemma {:induction false} NamesRoundTrip(k: Kind)
    ensures MakeEstimatorForName(NameOf(k)).Success?
    ensures MakeEstimatorForName(NameOf(k)).value.KindOf() == k
  {
  }

  /** The factory's fixed configurations: seed 42 for the three seeded kinds, and the boosting parameters. */
  lemma {:induction false} FixedConfigurations()
    ensures MakeEstimatorForName("ridge").value.Seed().None?
    ensures forall n :: n in ModelNames - {"ridge"} ==> MakeEstimatorForName(n).value.Seed() == Some(42)
    ensures var x := MakeEstimatorForName("xgboost").value;
              x.nEstimators == 300 && x.maxDepth == 6 && x.learningRate == 0.1 && x.objective == "reg:squarederror"
              && x.subsample == 0.8 && x.colsampleBytree == 0.8 && x.treeMethod == "hist" && x.nJobs == -1
    ensures var l := MakeEstimatorForName("lightgbm").value;
              l.nEstimators == 300 && l.numLeaves == 31 && l.learningRate == 0.05
              && l.subsample == 0.8 && l.colsampleBytree == 0.8 && l.nJobs == -1
  {
  }
}
