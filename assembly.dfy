/**
 * What happens after the form is submitted: `input_data` becomes a one-row
 * frame whose columns are forced into the model's order, the classifier
 * gives a prediction for that row, and the prediction picks the result card.
 */
module Assembly {
  import opened Wrappers
  import opened Widgets
  import opened Catalogue
  import opened FormResolver

  /** The one-row frame `input_df[features]`, or the `KeyError` pandas raises. */
  datatype Frame = Selected(row: seq<int>) | KeyError(missing: seq<FeatureName>)

  /** The row of `input_data` read in the order of `features`. */
  function Columns(inputData: map<FeatureName, int>, features: seq<FeatureName>): (row: seq<int>)
    requires forall f :: f in features ==> f in inputData
    ensures |row| == |features|
    ensures forall i :: 0 <= i < |features| ==> row[i] == inputData[features[i]]
  {
    if features == [] then []
    else [inputData[features[0]]] + Columns(inputData, features[1..])
  }

  /**
   * Lines 214-217: `pd.DataFrame([input_data])[features]`. The selection
   * succeeds exactly when every name of `features` is a column; extra
   * columns are dropped. Otherwise it fails, naming the missing columns in
   * the order of `features`.
   */
  function Project(inputData: map<FeatureName, int>, features: seq<FeatureName>): (r: Frame)
    ensures r.Selected? <==> forall f :: f in features ==> f in inputData
    ensures r.Selected? ==> |r.row| == |features|
    ensures r.Selected? ==> forall i :: 0 <= i < |features| ==> r.row[i] == inputData[features[i]]
    ensures r.KeyError? ==> r.missing != []
    ensures r.KeyError? ==> forall f :: f in r.missing <==> f in features && f !in inputData
  {
    RemainingMembers(features, inputData.Keys);
    var missing := Remaining(features, inputData.Keys);
    if missing == [] then Selected(Columns(inputData, features))
    else
      assert missing[0] in features;
      KeyError(missing)
  }

  /**
   * The projection depends only on the values of the declared features: a
   * key the model does not declare never changes it.
   */
  lemma ProjectIgnoresExtraKeys(d1: map<FeatureName, int>, d2: map<FeatureName, int>, features: seq<FeatureName>)
    requires forall f :: f in features ==> (f in d1 <==> f in d2)
    requires forall f :: f in features && f in d1 ==> d1[f] == d2[f]
    ensures Project(d1, features) == Project(d2, features)
  {
    RemainingDependsOnFeaturesOnly(features, d1.Keys, d2.Keys);
    if Project(d1, features).Selected? {
      assert Project(d1, features).row == Project(d2, features).row;
    }
  }

  /** The two result cards of lines 224-242. */
  datatype Card = RiskCard | SafeCard

  /** Line 224: only the prediction 1 shows the dropout-risk card. */
  function VerdictFor(prediction: int): (card: Card)
    ensures card == RiskCard <==> prediction == 1
    ensures card == SafeCard <==> prediction != 1
  {
    if prediction == 1 then RiskCard else SafeCard
  }

  /**
   * The loaded bundle: `model_data['model']`, reduced to the prediction it
   * gives for one row, and `model_data['features']`.
   */
  datatype ModelBundle = ModelBundle(predict: seq<int> -> int, features: seq<FeatureName>)

  /** What the main column shows. */
  datatype Screen = NoModel | AwaitingSubmit | Verdict(card: Card, row: seq<int>)

  /**
   * Lines 60-257: with no model nothing is shown; otherwise the form is
   * rendered, and once it is submitted the row in model order is classified
   * and its card shown. The projection never fails, because the form fills
   * every declared feature.
   */
  method RunPage(modelData: Option<ModelBundle>, user: (FeatureName, Widget) -> int, submit: bool)
    returns (shown: seq<FeatureName>, screen: Screen)
    ensures modelData.None? ==> shown == [] && screen == NoModel
    ensures modelData.Some? ==> shown == FormLayout(modelData.value.features)
    ensures modelData.Some? && !submit ==> screen == AwaitingSubmit
    ensures modelData.Some? && submit ==> screen.Verdict?
    ensures screen.Verdict? ==>
      var features := modelData.value.features;
      && |screen.row| == |features|
      && (forall i :: 0 <= i < |features| ==> screen.row[i] == user(features[i], WidgetFor(features[i])))
      && screen.card == VerdictFor(modelData.value.predict(screen.row))
    ensures screen.Verdict? && Honest(user) ==>
      forall i :: 0 <= i < |modelData.value.features| ==>
        InDeclaredDomain(modelData.value.features[i], screen.row[i])
  {
    if modelData.None? {
      return [], NoModel;
    }
    var model := modelData.value.predict;
    var features := modelData.value.features;
    var inputData;
    inputData, shown := ResolveForm(features, user);
    if !submit {
      return shown, AwaitingSubmit;
    }
    var inputDf := Project(inputData, features);
    var row := inputDf.row;
    var prediction := model(row);
    screen := Verdict(VerdictFor(prediction), row);
  }

  /** Example: the row follows the model's order, not the order the keys were stored in. */
  lemma ProjectExample()
    ensures Project(map["Address_U" := 1, "Age" := 17, "Number_of_Failures" := 0],
                    ["Age", "Number_of_Failures", "Address_U"]) == Selected([17, 0, 1])
  {
    var r := Project(map["Address_U" := 1, "Age" := 17, "Number_of_Failures" := 0],
                     ["Age", "Number_of_Failures", "Address_U"]);
    assert r.Selected?;
    assert r.row == [17, 0, 1];
  }

  /** A model that declares only a scale feature and a yes/no feature: the scale slider comes first. */
  lemma LayoutExample()
    ensures FormLayout(["Internet_Access_yes", "Health_Status"]) == ["Health_Status", "Internet_Access_yes"]
  {
    var features := ["Internet_Access_yes", "Health_Status"];
    CatalogueHasNoDuplicates();
    assert "Health_Status" in CatalogueOrder && "Internet_Access_yes" !in CatalogueOrder;
    SelectSingle(CatalogueOrder, "Health_Status", features);
    var catalogued := set n | n in CatalogueOrder;
    assert features[1..] == ["Health_Status"];
    assert Remaining(["Health_Status"], catalogued) == [];
    assert Remaining(features, catalogued) == ["Internet_Access_yes"];
  }

  /** Number_of_Failures accepts 4 but not 5, and an uncatalogued feature only 0 and 1. */
  lemma DomainExamples()
    ensures InDeclaredDomain("Number_of_Failures", 4)
    ensures !InDeclaredDomain("Number_of_Failures", 5)
    ensures !InDeclaredDomain("Internet_Access_yes", 2)
  {
    KnownNamesClassified();
    ClassifyMatchesCatalogue("Internet_Access_yes");
    CatalogueHasNoDuplicates();
  }
}
