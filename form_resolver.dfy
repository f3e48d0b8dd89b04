/**
 * The sidebar form: starting from an empty `input_data`, it asks for each
 * catalogued feature the model declares, then asks a yes/no question for
 * every declared feature still missing. Each capture method returns the new
 * `input_data` and the names whose widgets it rendered, in rendering order.
 */
module FormResolver {
  import opened Widgets
  import opened Catalogue

  /** The names of `order` that the model declares, kept in the order of `order`. */
  function Select(order: seq<FeatureName>, features: seq<FeatureName>): (r: seq<FeatureName>)
    ensures |r| <= |order|
  {
    if order == [] then []
    else
      var before := Select(order[..|order| - 1], features);
      var name := order[|order| - 1];
      if name in features then before + [name] else before
  }

  lemma SelectSnoc(order: seq<FeatureName>, name: FeatureName, features: seq<FeatureName>)
    ensures Select(order + [name], features)
         == if name in features then Select(order, features) + [name] else Select(order, features)
  {
    assert (order + [name])[..|order|] == order;
  }

  lemma {:induction false} SelectAppend(a: seq<FeatureName>, b: seq<FeatureName>, features: seq<FeatureName>)
    ensures Select(a + b, features) == Select(a, features) + Select(b, features)
  {
    if b != [] {
      var b' := b[..|b| - 1];
      assert a + b == (a + b') + [b[|b| - 1]];
      assert b == b' + [b[|b| - 1]];
      SelectAppend(a, b', features);
      SelectSnoc(a + b', b[|b| - 1], features);
      SelectSnoc(b', b[|b| - 1], features);
    } else {
      assert a + b == a;
    }
  }

  lemma {:induction false} SelectMembers(order: seq<FeatureName>, features: seq<FeatureName>)
    ensures forall x :: x in Select(order, features) <==> x in order && x in features
    ensures NoDuplicates(order) ==> NoDuplicates(Select(order, features))
  {
    if order != [] {
      var before := order[..|order| - 1];
      assert order == before + [order[|order| - 1]];
      SelectMembers(before, features);
      SelectSnoc(before, order[|order| - 1], features);
    }
  }

  /** The user's answer to each feature's catalogue widget. */
  function Answers(user: (FeatureName, Widget) -> int): FeatureName -> int {
    f => user(f, WidgetFor(f))
  }

  /** When `order` and `features` share no name, nothing is selected. */
  lemma {:induction false} SelectNone(order: seq<FeatureName>, features: seq<FeatureName>)
    requires forall y :: y in order ==> y !in features
    ensures Select(order, features) == []
  {
    if order != [] {
      assert order[|order| - 1] in order;
      assert forall y :: y in order[..|order| - 1] ==> y in order;
      SelectNone(order[..|order| - 1], features);
    }
  }

  /** When `x` is the only name `order` and `features` share, and `order` lists it once, only `x` is selected. */
  lemma {:induction false} SelectSingle(order: seq<FeatureName>, x: FeatureName, features: seq<FeatureName>)
    requires NoDuplicates(order) && x in order && x in features
    requires forall y :: y in order && y in features ==> y == x
    ensures Select(order, features) == [x]
  {
    var before := order[..|order| - 1];
    var last := order[|order| - 1];
    assert order == before + [last];
    assert forall y :: y in before ==> y in order;
    if last == x {
      assert forall k :: 0 <= k < |before| ==> before[k] != last;
      SelectNone(before, features);
    } else {
      SelectSingle(before, x, features);
    }
  }

  /**
   * What the catalogued branches leave in `input_data`: every name of `order`
   * that the model declares is set to `ask`'s answer for it, in order.
   */
  function Capture(inputData: map<FeatureName, int>, order: seq<FeatureName>, features: seq<FeatureName>,
                   ask: FeatureName -> int): map<FeatureName, int>
  {
    if order == [] then inputData
    else
      var before := Capture(inputData, order[..|order| - 1], features, ask);
      var name := order[|order| - 1];
      if name in features then before[name := ask(name)] else before
  }

  lemma CaptureSnoc(inputData: map<FeatureName, int>, order: seq<FeatureName>, name: FeatureName,
                    features: seq<FeatureName>, ask: FeatureName -> int)
    ensures Capture(inputData, order + [name], features, ask)
         == if name in features then Capture(inputData, order, features, ask)[name := ask(name)]
            else Capture(inputData, order, features, ask)
  {
    assert (order + [name])[..|order|] == order;
  }

  /**
   * The captured keys are the old keys plus the declared names of `order`;
   * those hold the answers and every other key keeps its value.
   */
  lemma {:induction false} CaptureEntries(inputData: map<FeatureName, int>, order: seq<FeatureName>,
                                          features: seq<FeatureName>, ask: FeatureName -> int)
    ensures forall f :: f in Capture(inputData, order, features, ask) <==> f in inputData || (f in order && f in features)
    ensures forall f :: f in Capture(inputData, order, features, ask) ==>
      Capture(inputData, order, features, ask)[f] == if f in order && f in features then ask(f) else inputData[f]
  {
    if order != [] {
      var before := order[..|order| - 1];
      assert order == before + [order[|order| - 1]];
      CaptureEntries(inputData, before, features, ask);
      CaptureSnoc(inputData, before, order[|order| - 1], features, ask);
    }
  }

  /** `[f for f in features if f not in input_data]`, with `captured` the keys of `input_data`. */
  function Remaining(features: seq<FeatureName>, captured: set<FeatureName>): (r: seq<FeatureName>)
    ensures |r| <= |features|
  {
    if features == [] then []
    else (if features[0] !in captured then [features[0]] else []) + Remaining(features[1..], captured)
  }

  lemma {:induction false} RemainingMembers(features: seq<FeatureName>, captured: set<FeatureName>)
    ensures forall x :: x in Remaining(features, captured) <==> x in features && x !in captured
    ensures NoDuplicates(features) ==> NoDuplicates(Remaining(features, captured))
  {
    if features != [] {
      assert features == [features[0]] + features[1..];
      RemainingMembers(features[1..], captured);
    }
  }

  /** Filtering distributes over concatenation, so `Remaining` keeps the order of `features`. */
  lemma {:induction false} RemainingAppend(a: seq<FeatureName>, b: seq<FeatureName>, captured: set<FeatureName>)
    ensures Remaining(a + b, captured) == Remaining(a, captured) + Remaining(b, captured)
  {
    if a != [] {
      assert (a + b)[1..] == a[1..] + b;
      assert (a + b)[0] == a[0];
      RemainingAppend(a[1..], b, captured);
    } else {
      assert a + b == b;
    }
  }

  /** The only thing `Remaining` looks at is which names of `features` are captured. */
  lemma {:induction false} RemainingDependsOnFeaturesOnly(features: seq<FeatureName>, c1: set<FeatureName>, c2: set<FeatureName>)
    requires forall f :: f in features ==> (f in c1 <==> f in c2)
    ensures Remaining(features, c1) == Remaining(features, c2)
  {
    if features != [] {
      RemainingDependsOnFeaturesOnly(features[1..], c1, c2);
    }
  }

  /**
   * One `if "<name>" in features:` block of lines 77-154: when the model
   * declares `name`, render `widget` and store the answer. `visited` lists
   * the blocks already run.
   */
  method AskIfDeclared(features: seq<FeatureName>, name: FeatureName, widget: Widget,
                       user: (FeatureName, Widget) -> int, inputData: map<FeatureName, int>,
                       shown: seq<FeatureName>, ghost visited: seq<FeatureName>)
    returns (out: map<FeatureName, int>, shown': seq<FeatureName>)
    requires WidgetFor(name) == widget
    requires inputData == Capture(map[], visited, features, Answers(user))
    requires shown == Select(visited, features)
    ensures out == Capture(map[], visited + [name], features, Answers(user))
    ensures shown' == Select(visited + [name], features)
  {
    out, shown' := inputData, shown;
    if name in features {
      assert Answers(user)(name) == user(name, WidgetFor(name));
      out := out[name := user(name, widget)];
      shown' := shown' + [name];
    }
    CaptureSnoc(map[], visited, name, features, Answers(user));
    SelectSnoc(visited, name, features);
  }

  /** Lines 77-154: the seven features with a dedicated widget, in this order. */
  method CaptureKnown(features: seq<FeatureName>, user: (FeatureName, Widget) -> int)
    returns (inputData: map<FeatureName, int>, shown: seq<FeatureName>)
    ensures inputData == Capture(map[], KnownOrder, features, Answers(user))
    ensures shown == Select(KnownOrder, features)
  {
    KnownNamesClassified();
    inputData, shown := map[], [];
    ghost var visited: seq<FeatureName> := [];
    assert WidgetFor("Age") == AgeWidget;
    inputData, shown := AskIfDeclared(features, "Age", AgeWidget, user, inputData, shown, visited);
    visited := visited + ["Age"];
    assert WidgetFor("Mother_Education") == MotherEducationWidget;
    inputData, shown := AskIfDeclared(features, "Mother_Education", MotherEducationWidget, user, inputData, shown, visited);
    visited := visited + ["Mother_Education"];
    assert WidgetFor("Father_Education") == FatherEducationWidget;
    inputData, shown := AskIfDeclared(features, "Father_Education", FatherEducationWidget, user, inputData, shown, visited);
    visited := visited + ["Father_Education"];
    assert WidgetFor("Travel_Time") == TravelTimeWidget;
    inputData, shown := AskIfDeclared(features, "Travel_Time", TravelTimeWidget, user, inputData, shown, visited);
    visited := visited + ["Travel_Time"];
    assert WidgetFor("Study_Time") == StudyTimeWidget;
    inputData, shown := AskIfDeclared(features, "Study_Time", StudyTimeWidget, user, inputData, shown, visited);
    visited := visited + ["Study_Time"];
    assert WidgetFor("Number_of_Failures") == FailuresWidget;
    inputData, shown := AskIfDeclared(features, "Number_of_Failures", FailuresWidget, user, inputData, shown, visited);
    visited := visited + ["Number_of_Failures"];
    assert WidgetFor("Address_U") == AddressWidget;
    inputData, shown := AskIfDeclared(features, "Address_U", AddressWidget, user, inputData, shown, visited);
    visited := visited + ["Address_U"];
    assert visited == KnownOrder;
  }

  /** Lines 158-178: the loop over `scale_features_map.items()`. */
  method CaptureScales(features: seq<FeatureName>, inputData: map<FeatureName, int>, user: (FeatureName, Widget) -> int)
    returns (out: map<FeatureName, int>, shown: seq<FeatureName>)
    ensures out == Capture(inputData, ScaleOrder, features, Answers(user))
    ensures shown == Select(ScaleOrder, features)
  {
    out, shown := inputData, [];
    for i := 0 to |ScaleOrder|
      invariant out == Capture(inputData, ScaleOrder[..i], features, Answers(user))
      invariant shown == Select(ScaleOrder[..i], features)
    {
      var fName := ScaleOrder[i];
      ScaleOrderListsScaleLabels();
      var fLabel := ScaleLabels[fName];
      ClassifyMatchesCatalogue(fName);
      if fName in features {
        assert WidgetFor(fName) == ScaleWidget(fLabel);
        assert Answers(user)(fName) == user(fName, WidgetFor(fName));
        out := out[fName := user(fName, ScaleWidget(fLabel))];
        shown := shown + [fName];
      }
      assert ScaleOrder[..i + 1] == ScaleOrder[..i] + [fName];
      CaptureSnoc(inputData, ScaleOrder[..i], fName, features, Answers(user));
      SelectSnoc(ScaleOrder[..i], fName, features);
    }
    assert ScaleOrder[..|ScaleOrder|] == ScaleOrder;
  }

  /** Lines 182-203: a yes/no radio for every declared feature not yet captured. */
  method FillRemaining(features: seq<FeatureName>, inputData: map<FeatureName, int>, user: (FeatureName, Widget) -> int)
    returns (out: map<FeatureName, int>, shown: seq<FeatureName>)
    ensures forall f :: f in out <==> f in inputData || f in features
    ensures forall f :: f in inputData ==> out[f] == inputData[f]
    ensures forall f :: f in out && f !in inputData ==> out[f] == user(f, FallbackWidget(f))
    ensures shown == Remaining(features, inputData.Keys)
  {
    var remainingFeatures := Remaining(features, inputData.Keys);
    RemainingMembers(features, inputData.Keys);
    out, shown := inputData, [];
    for k := 0 to |remainingFeatures|
      invariant forall f :: f in out <==> f in inputData || f in remainingFeatures[..k]
      invariant forall f :: f in inputData ==> out[f] == inputData[f]
      invariant forall f :: f in out && f !in inputData ==> out[f] == user(f, FallbackWidget(f))
      invariant shown == remainingFeatures[..k]
    {
      var col := remainingFeatures[k];
      out := out[col := user(col, FallbackWidget(col))];
      shown := shown + [col];
      assert remainingFeatures[..k + 1] == remainingFeatures[..k] + [col];
    }
    assert remainingFeatures[..|remainingFeatures|] == remainingFeatures;
  }

  /**
   * The order in which the form renders its widgets for `features`: the
   * catalogue's declared features in catalogue order, then every other
   * declared feature in the model's order.
   */
  function FormLayout(features: seq<FeatureName>): seq<FeatureName> {
    Select(CatalogueOrder, features) + Remaining(features, set n | n in CatalogueOrder)
  }

  lemma NoDuplicatesConcat(a: seq<FeatureName>, b: seq<FeatureName>)
    requires NoDuplicates(a) && NoDuplicates(b)
    requires forall x :: x in a ==> x !in b
    ensures NoDuplicates(a + b)
  {
    forall i, j | 0 <= i < j < |a + b|
      ensures (a + b)[i] != (a + b)[j]
    {
      if j < |a| {
        assert (a + b)[i] == a[i] && (a + b)[j] == a[j];
      } else if i < |a| {
        assert (a + b)[i] == a[i] && (a + b)[j] == b[j - |a|];
        assert a[i] in a && b[j - |a|] in b;
      } else {
        assert (a + b)[i] == b[i - |a|] && (a + b)[j] == b[j - |a|];
      }
    }
  }

  /**
   * Every declared feature gets exactly one widget: the layout lists each
   * name of `features` and nothing else, and when the model declares no
   * name twice, no name is rendered twice.
   */
  lemma FormLayoutCoversFeatures(features: seq<FeatureName>)
    ensures forall f :: f in FormLayout(features) <==> f in features
    ensures NoDuplicates(features) ==> NoDuplicates(FormLayout(features))
  {
    var known := Select(CatalogueOrder, features);
    var rest := Remaining(features, set n | n in CatalogueOrder);
    SelectMembers(CatalogueOrder, features);
    RemainingMembers(features, set n | n in CatalogueOrder);
    CatalogueHasNoDuplicates();
    if NoDuplicates(features) {
      NoDuplicatesConcat(known, rest);
    }
  }

  /**
   * Lines 69-203 as a whole: the form asks exactly the declared features,
   * each through its catalogue widget (the yes/no fallback for the rest),
   * and when the user answers inside each widget's domain every stored
   * value lies in that feature's declared domain.
   */
  method ResolveForm(features: seq<FeatureName>, user: (FeatureName, Widget) -> int)
    returns (inputData: map<FeatureName, int>, shown: seq<FeatureName>)
    ensures forall f :: f in inputData <==> f in features
    ensures forall f :: f in inputData ==> inputData[f] == user(f, WidgetFor(f))
    ensures Honest(user) ==> forall f :: f in inputData ==> InDeclaredDomain(f, inputData[f])
    ensures shown == FormLayout(features)
  {
    var known, shownKnown := CaptureKnown(features, user);
    var scaled, shownScales := CaptureScales(features, known, user);
    CaptureEntries(map[], KnownOrder, features, Answers(user));
    CaptureEntries(known, ScaleOrder, features, Answers(user));
    var shownRest;
    inputData, shownRest := FillRemaining(features, scaled, user);
    shown := shownKnown + shownScales + shownRest;

    CatalogueHasNoDuplicates();
    forall f | f in inputData
      ensures inputData[f] == user(f, WidgetFor(f))
    {
      ClassifyMatchesCatalogue(f);
    }
    forall f | f in inputData && Honest(user)
      ensures InDeclaredDomain(f, inputData[f])
    {
      KindWidgetIsDeclared(Classify(f), f);
    }
    SelectAppend(KnownOrder, ScaleOrder, features);
    RemainingDependsOnFeaturesOnly(features, scaled.Keys, set n | n in CatalogueOrder);
  }
}
