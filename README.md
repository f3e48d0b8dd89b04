# Student dropout early-warning form, modelled in Dafny

The application is a Streamlit page in front of a trained dropout classifier.
It loads a bundle holding the classifier and its ordered list of feature
names. It builds a sidebar form from that list, fills a dictionary
`input_data` with one integer per feature, and then reorders that dictionary
into the classifier's column order. The prediction it gets back selects
either the "at risk" card or the "safe" card.

This project models that pipeline:

- `Widgets` (widgets.dfy): the five Streamlit input widgets the form uses,
  reduced to the values each one can return. The person filling the form is
  an oracle `user(name, widget)`. `Honest(user)` says that every well-formed
  widget answers only with a value of its own domain.
- `Catalogue` (catalogue.dfy): the fixed catalogue of feature names.
  - Seven features have a dedicated widget.
  - `scale_features_map` is a dict, kept as its iteration order
    `ScaleOrder` plus its mapping `ScaleLabels`.
  - `binary_map` and the label of the yes/no fallback.
  - `WidgetFor(name)` is the widget the form renders for a feature.
  - `InDeclaredDomain(name, v)` is the documented domain of that feature.
- `FormResolver` (form_resolver.dfy): the form block itself.
  - `CaptureKnown` runs the seven guarded assignments.
  - `CaptureScales` runs the loop over `scale_features_map.items()`.
  - `FillRemaining` runs the fallback loop over `remaining_features`.
  - `ResolveForm` runs the three in sequence.
  - Each method returns the new `input_data` and the names whose widgets it
    rendered, in rendering order.
  - The methods are proved against the functions `Capture`, `Select` and
    `Remaining`, and the properties are proved about those functions.
- `Assembly` (assembly.dfy):
  - the column selection `input_df[features]`, with pandas' `KeyError` path;
  - the verdict branch;
  - `RunPage`, the whole page from the loaded bundle to the result card.

Two behaviours of the code worth knowing:

- **Rendering order.** The form renders the catalogued features in catalogue
  order, then the remaining ones in the model's order (`FormLayout`,
  `LayoutExample`). It does not render them in the order of `features`.
- **When the selection fails.** `input_df[features]` fails exactly when some
  name of `features` is not a key of `input_data`. Extra keys are simply
  dropped (`Project`). The selection does not fail merely because the key set
  differs from the feature set.

## Model

| member | source | states |
|---|---|---|
| Catalogue.KindWidgetIsDeclared | app.py:78-203 | each widget of the form is accepted by Streamlit, admits exactly the documented values for its kind (Age 15-22, education 0-4, travel and study time 1-4, failures 0-4, address and fallback 0/1, scales 1-5) and starts on the documented default (17, 2, 2, 0, 1, 3, …) |
| Catalogue.ClassifyMatchesCatalogue | app.py:77-203 | a name escapes the yes/no fallback exactly when it is one of the thirteen catalogued names; a scale name gets the slider labelled with its `scale_features_map` entry |
| Catalogue.KnownNamesClassified | app.py:77-154 | each of the seven dedicated branches is taken for its own feature name |
| Catalogue.Classify | app.py:77-203 | which branch of the form handles a name: one of the seven dedicated branches by exact name, a scale slider for a key of `scale_features_map`, and the yes/no fallback otherwise |
| Catalogue.WidgetFor | app.py:77-203 | the widget the form renders for a name, namely the one of the branch `Classify` picks |
| Catalogue.FallbackWidget | app.py:196-203 | the fallback `st.radio` over the options [0, 1]; it is accepted by Streamlit, starts on 0 and admits exactly 0 and 1 |
| Catalogue.FallbackLabelsCanCollide | app.py:196 | the distinct names "A_B" and "A B" receive the same fallback radio |
| Catalogue.ReplaceUnderscores | app.py:196 | `col.replace('_', ' ')` keeps the length, turns every `_` into a space, changes no other character and leaves no `_` |
| Catalogue.FallbackLabel | app.py:182-196 | the fallback label is `binary_map[col]` when `col` is a key, otherwise `col` with underscores replaced (same length); it never contains `_` |
| Catalogue.CatalogueHasNoDuplicates | app.py:77-178 | no catalogued name is listed twice, and the catalogue is the seven dedicated names plus the keys of `scale_features_map` |
| Catalogue.ScaleOrderListsScaleLabels | app.py:158-172 | the iteration order of `scale_features_map` lists exactly its keys, each once |
| FormResolver.Select | app.py:77-178 | the catalogue names, in catalogue order, whose `if name in features` guard holds, i.e. the widgets the guarded walk renders; never longer than the walk |
| FormResolver.Capture | app.py:77-178 | the dictionary the guarded walk leaves: starting from the given map, each name of the walk that `features` declares is set to its answer, in walk order |
| FormResolver.SelectMembers | app.py:77-178 | a guarded catalogue walk keeps exactly the catalogue names that `features` declares, and keeps them distinct |
| FormResolver.SelectAppend | app.py:77-178 | walking the dedicated names and then the scale names selects the concatenation of the two selections |
| FormResolver.CaptureEntries | app.py:77-178 | the catalogue branches add exactly the declared catalogue names as keys; each gets the user's answer to its widget, and every other key is left as it was |
| FormResolver.AskIfDeclared | app.py:77-154 | one `if name in features` block extends `input_data` and the rendered list exactly as one more step of the catalogue walk |
| FormResolver.CaptureKnown | app.py:77-154 | the seven guarded assignments leave `input_data` equal to the catalogue walk over the dedicated names, and they render exactly those names that `features` declares, in catalogue order |
| FormResolver.CaptureScales | app.py:158-178 | the loop visits `scale_features_map` in its declared order; it sets a slider answer for exactly the scale names in `features` and leaves every other key unchanged |
| FormResolver.Remaining | app.py:190 | `[f for f in features if f not in input_data]`, with the keys of `input_data` passed as a set; never longer than `features` |
| FormResolver.RemainingMembers | app.py:190 | `remaining_features` holds exactly the names of `features` that are not yet keys, and has no duplicates when `features` has none |
| FormResolver.RemainingAppend | app.py:190 | the comprehension distributes over concatenation, so the order of `features` is preserved |
| FormResolver.RemainingDependsOnFeaturesOnly | app.py:190 | `remaining_features` depends only on which names of `features` are keys |
| FormResolver.FillRemaining | app.py:182-203 | the fallback adds exactly the declared features that are still missing, never changes a captured value, stores the user's answer to the yes/no radio for each new key, and renders `remaining_features` in order |
| FormResolver.SelectNone | app.py:77-178 | a catalogue walk that meets no declared name adds nothing |
| FormResolver.SelectSingle | app.py:77-178 | a catalogue walk that meets one declared name once renders only that name |
| FormResolver.FormLayout | app.py:69-203 | the order in which the form renders its widgets: the declared catalogue names in catalogue order, followed by `remaining_features` in the model's order |
| FormResolver.FormLayoutCoversFeatures | app.py:69-203 | the form renders a widget for every declared feature and for nothing else, and renders no name twice when the model declares none twice |
| FormResolver.ResolveForm | app.py:69-203 | after the form block the key set of `input_data` is exactly the set of declared features; each value is the user's answer to that feature's widget, and it lies in the feature's declared domain when the user answers honestly; the widgets appear in the catalogue-then-remaining layout |
| Assembly.Columns | app.py:214-217 | with every feature present, the row has one entry per feature, and entry i is `input_data[features[i]]` |
| Assembly.Project | app.py:214-217 | the selection succeeds exactly when every declared feature is a key; it then yields the row in model order, and otherwise it fails naming exactly the missing features (never none) |
| Assembly.ProjectIgnoresExtraKeys | app.py:214-217 | two dictionaries that agree on the declared features give the same projection, whatever other keys they hold |
| Assembly.VerdictFor | app.py:224-242 | the risk card is shown exactly when the prediction is 1, and the safe card for any other prediction |
| Assembly.RunPage | app.py:60-257 | without a model nothing is shown; with one the form is rendered, and after submit the row passed to the classifier has one entry per declared feature in model order, each entry being the user's answer to that feature's widget and inside its declared domain for an honest user; the card is the verdict for the classifier's prediction on that row |
| Assembly.ProjectExample | app.py:214-217 | a dictionary filled as Address_U, Age, Number_of_Failures projects onto ["Age", "Number_of_Failures", "Address_U"] as [17, 0, 1] |
| Assembly.LayoutExample | app.py:172-203 | for the features ["Internet_Access_yes", "Health_Status"] the scale slider is rendered before the yes/no radio |
| Assembly.DomainExamples | app.py:135-142 | Number_of_Failures accepts 4 but not 5, and an uncatalogued feature does not accept 2 |

## Left out

- Page configuration, CSS, headers, the sidebar header, the dividers and the
  info column (app.py:7-44, 57-58, 71-72, 168-170, 192-193, 205-209, 246-253)
  are presentation only. The dividers' conditions, `any(...)` over the scale
  names and `if remaining_features:`, decide only whether a rule is drawn.
- `load_model` reads a file with joblib behind Streamlit's resource cache and
  reports errors on the page (app.py:47-54). This is I/O. `RunPage` takes its
  result as an `Option`. `None` stands for a failed load. A loaded bundle that
  Python treats as false (an empty dict) is not modelled separately.
- `model.predict` is an opaque, pre-trained classifier from a foreign library.
  It is a function parameter of the bundle. `model.predict_proba` and the
  percentage it displays (app.py:222, 229, 240) are floating point and string
  formatting, and they are left out.
- The option captions given through `format_func`, and the `help` texts, only
  change what is displayed. The model keeps the stored integer values and the
  widget labels.
- FormResolver.FillRemaining: the model does not capture Streamlit's
  duplicate-widget error. Two fallback radios for different remaining names
  can have the same label and the same options. This happens when a name is
  repeated in `features`, when two names differ only in `_` against space
  (`FallbackLabelsCanCollide`), or when a name's underscored form equals a
  `binary_map` label. Streamlit then stops the script at the second
  `st.radio` (app.py:198-203). The model instead stores an answer for every
  remaining name, and a repeated name's second answer overwrites the first.
- What takes place inside Streamlit between renders is not modelled: reruns,
  widget state, and the form's submit button keeping its values. The form is
  one pass in which each widget returns the user's current answer.
- `pd.DataFrame([input_data])` is reduced to the column selection that
  follows it. Column dtypes and the index are not modelled. The frame's own
  column order, which follows the order of insertion into `input_data`, is
  not represented either: a Dafny map carries no order. The selection by
  `features` discards that order in any case.
- FormResolver.Remaining: the property that `remaining_features` is a
  subsequence of `features` is stated as membership (`RemainingMembers`) plus
  distribution over concatenation (`RemainingAppend`). No explicit
  index-embedding function is given.
