/**
 * Concrete records: the four sample rows the inference script feeds to a
 * loaded model, and a batch of a single customer record.
 * The fitted parameters and the classifier stay arbitrary.
 */
module Scenarios {
  import opened Wrappers
  import opened Records
  import opened Preprocessing
  import opened CustomerLayout

  /** A customer record holding exactly the eleven model fields, as a data frame row has them. */
  function CustomerRecord(creditScore: real, age: real, tenure: real, balance: real, numofProducts: real,
                          hasCrCard: real, isActiveMember: real, estimatedSalary: real, isZeroBalance: real,
                          gender: string, geography: string): Record
  {
    map["creditScore" := Num(creditScore), "age" := Num(age), "tenure" := Num(tenure),
        "balance" := Num(balance), "numofProducts" := Num(numofProducts), "hasCrCard" := Num(hasCrCard),
        "isActiveMember" := Num(isActiveMember), "estimatedSalary" := Num(estimatedSalary),
        "isZeroBalance" := Num(isZeroBalance), "gender" := Str(gender), "geography" := Str(geography)]
  }

  /** Every such record transforms, whatever its gender and geography strings. */
  lemma {:induction false} CustomerRecordAlwaysTransforms(fit: Fitted, creditScore: real, age: real, tenure: real, balance: real,
                                       numofProducts: real, hasCrCard: real, isActiveMember: real,
                                       estimatedSalary: real, isZeroBalance: real, gender: string, geography: string)
    requires FitsConfig(BuildPreprocessing(), fit)
    ensures Transform(BuildPreprocessing(), fit,
                      CustomerRecord(creditScore, age, tenure, balance, numofProducts, hasCrCard, isActiveMember,
                                     estimatedSalary, isZeroBalance, gender, geography)).Success?
  {
    var rec := CustomerRecord(creditScore, age, tenure, balance, numofProducts, hasCrCard, isActiveMember,
                              estimatedSalary, isZeroBalance, gender, geography);
    assert forall n :: n in NumericNames + CategoricalNames ==> n in rec;
    assert forall k :: k in rec && k != "gender" && k != "geography" ==> rec[k].Num?;
    assert forall i :: 0 <= i < |NumericNames| ==> NumericNames[i] != "gender" && NumericNames[i] != "geography";
    CustomerRecordTransforms(fit, rec);
  }

  /** The four sample rows of the inference script. */
  function SampleBatch(): seq<Record> {
    [ CustomerRecord(740.0, 54.0, 1.0, 126418.0, 1.0, 1.0, 0.0, 134420.0, 1.0, "Male", "Germany"),
      CustomerRecord(530.0, 38.0, 2.0, 342311.0, 1.0, 0.0, 0.0, 89121.0, 0.0, "Female", "Germany"),
      CustomerRecord(789.0, 60.0, 3.0, 564633.0, 2.0, 0.0, 0.0, 32123.0, 0.0, "Female", "Germany"),
      CustomerRecord(630.0, 45.0, 8.0, 112435.0, 1.0, 0.0, 0.0, 432.0, 0.0, "Female", "Spain") ]
  }

  /**
   * Predicting the sample batch yields four outputs, the i-th being the
   * classifier's output on the i-th row (the last row's "Spain" is covered,
   * seen in fitting or not, by UnseenGeographyGivesZeros).
   */
  lemma {:induction false} SampleBatchPredicts<L>(fit: Fitted, classify: seq<real> -> L)
    requires FitsConfig(BuildPreprocessing(), fit)
    ensures Predict(BuildPreprocessing(), fit, classify, SampleBatch()).Success?
    ensures |Predict(BuildPreprocessing(), fit, classify, SampleBatch()).value| == 4
    ensures forall i :: 0 <= i < 4 ==>
      Predict(BuildPreprocessing(), fit, classify, SampleBatch()).value[i]
      == classify(Transform(BuildPreprocessing(), fit, SampleBatch()[i]).value)
  {
    var b := SampleBatch();
    forall i | 0 <= i < |b| ensures Transform(BuildPreprocessing(), fit, b[i]).Success? {
      if i == 0 {
        CustomerRecordAlwaysTransforms(fit, 740.0, 54.0, 1.0, 126418.0, 1.0, 1.0, 0.0, 134420.0, 1.0, "Male", "Germany");
      } else if i == 1 {
        CustomerRecordAlwaysTransforms(fit, 530.0, 38.0, 2.0, 342311.0, 1.0, 0.0, 0.0, 89121.0, 0.0, "Female", "Germany");
      } else if i == 2 {
        CustomerRecordAlwaysTransforms(fit, 789.0, 60.0, 3.0, 564633.0, 2.0, 0.0, 0.0, 32123.0, 0.0, "Female", "Germany");
      } else {
        CustomerRecordAlwaysTransforms(fit, 630.0, 45.0, 8.0, 112435.0, 1.0, 0.0, 0.0, 432.0, 0.0, "Female", "Spain");
      }
    }
  }

  /** A record whose geography was not seen in fitting transforms, with an all-zero geography block. */
  lemma {:induction false} UnseenGeographyGivesZeros(fit: Fitted, creditScore: real, age: real, tenure: real, balance: real,
                                  numofProducts: real, hasCrCard: real, isActiveMember: real,
                                  estimatedSalary: real, isZeroBalance: real, gender: string, geography: string)
    requires FitsConfig(BuildPreprocessing(), fit)
    ensures |fit| == 2 && |fit[1]| == 5
    ensures var rec := CustomerRecord(creditScore, age, tenure, balance, numofProducts, hasCrCard, isActiveMember,
                                      estimatedSalary, isZeroBalance, gender, geography);
      && Transform(BuildPreprocessing(), fit, rec).Success?
      && BlockStart(fit, 3) + Width(fit[1][3]) <= |Transform(BuildPreprocessing(), fit, rec).value|
      && (Str(geography) !in fit[1][3].categories ==>
            forall k :: BlockStart(fit, 3) <= k < BlockStart(fit, 3) + Width(fit[1][3]) ==>
              Transform(BuildPreprocessing(), fit, rec).value[k] == 0.0)
  {
    var rec := CustomerRecord(creditScore, age, tenure, balance, numofProducts, hasCrCard, isActiveMember,
                              estimatedSalary, isZeroBalance, gender, geography);
    CustomerRecordAlwaysTransforms(fit, creditScore, age, tenure, balance, numofProducts, hasCrCard, isActiveMember,
                                   estimatedSalary, isZeroBalance, gender, geography);
    FittedShape(fit);
    CategoricalBlock(fit, rec, 3);
    assert CategoricalNames[3] == "geography" && rec["geography"] == Str(geography);
    if Str(geography) !in fit[1][3].categories {
      UnknownCategoryGivesZeros(fit, rec, 3);
    }
  }

  /** A batch of one customer record gives exactly one prediction, the classifier's output on its row. */
  lemma {:induction false} SingleCustomerPredicts<L>(fit: Fitted, classify: seq<real> -> L)
    requires FitsConfig(BuildPreprocessing(), fit)
    ensures var rec := CustomerRecord(740.0, 54.0, 1.0, 126418.0, 1.0, 1.0, 0.0, 134420.0, 1.0, "Male", "Germany");
            && Predict(BuildPreprocessing(), fit, classify, [rec]).Success?
            && Predict(BuildPreprocessing(), fit, classify, [rec]).value == [classify(Transform(BuildPreprocessing(), fit, rec).value)]
  {
    CustomerRecordAlwaysTransforms(fit, 740.0, 54.0, 1.0, 126418.0, 1.0, 1.0, 0.0, 134420.0, 1.0, "Male", "Germany");
  }
}
