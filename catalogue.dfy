/**
 * The fixed catalogue of features the student form knows how to ask for:
 * seven features with a dedicated widget, six features on a 1-5 scale, and
 * the yes/no fallback for every other feature the model declares.
 */
module Catalogue {
  import opened Wrappers
  import opened Widgets

  type FeatureName = string

  // The dedicated widgets, in the order the form checks for their features.

  const AgeWidget := NumberInput("Umur Siswa", 15, 22, 17)
  /** Education levels 0 (no schooling) to 4 (higher education). */
  const EducationLevels: seq<int> := [0, 1, 2, 3, 4]
  const MotherEducationWidget := SelectBox("Pendidikan Terakhir Ibu", EducationLevels)
  const FatherEducationWidget := SelectBox("Pendidikan Terakhir Ayah", EducationLevels)
  const TravelTimeWidget :=
    SelectSlider("Berapa lama waktu yang ditempuh untuk sampai ke kelas?", [1, 2, 3, 4], 2)
  const StudyTimeWidget :=
    NumberInput("Berapa jam waktu yang dihabiskan untuk belajar? (Skala 1-4)", 1, 4, 2)
  const FailuresWidget := NumberInput("Berapa kali gagal kelas?", 0, 4, 0)
  /** Address_U: 1 is urban, 0 is rural; the radio lists 1 first. */
  const AddressWidget := Radio("Apakah siswa tinggal di perkotaan?", [1, 0])

  const KnownOrder: seq<FeatureName> :=
    ["Age", "Mother_Education", "Father_Education", "Travel_Time",
     "Study_Time", "Number_of_Failures", "Address_U"]

  // scale_features_map, a Python dict: its iteration order and its mapping.

  const ScaleOrder: seq<FeatureName> :=
    ["Family_Relationship", "Free_Time", "Going_Out", "Health_Status",
     "Weekday_Alcohol_Consumption", "Weekend_Alcohol_Consumption"]

  const ScaleLabels: map<FeatureName, string> := map[
    "Family_Relationship" := "Kualitas Hubungan Keluarga",
    "Free_Time" := "Waktu Luang sepulang sekolah",
    "Going_Out" := "Frekuensi Keluar Main/Nongkrong",
    "Health_Status" := "Status Kesehatan",
    "Weekday_Alcohol_Consumption" := "Konsumsi Alkohol (Hari Kerja)",
    "Weekend_Alcohol_Consumption" := "Konsumsi Alkohol (Akhir Pekan)"
  ]

  function ScaleWidget(caption: string): Widget {
    Slider(caption, 1, 5, 3)
  }

  /** Every catalogued feature, in the order the form renders their widgets. */
  const CatalogueOrder: seq<FeatureName> := KnownOrder + ScaleOrder

  predicate Catalogued(name: FeatureName) {
    name in CatalogueOrder
  }

  predicate NoDuplicates(s: seq<FeatureName>) {
    forall i, j :: 0 <= i < j < |s| ==> s[i] != s[j]
  }

  /** The dict's iteration order lists each of its keys exactly once. */
  lemma ScaleOrderListsScaleLabels()
    ensures forall n :: n in ScaleOrder <==> n in ScaleLabels
    ensures NoDuplicates(ScaleOrder)
  {
  }

  lemma CatalogueHasNoDuplicates()
    ensures NoDuplicates(CatalogueOrder)
    ensures forall n :: Catalogued(n) <==> n in KnownOrder || n in ScaleLabels
  {
  }

  // binary_map and the label of the yes/no fallback.

  const BinaryMap: map<FeatureName, string> := map[
    "Wants_Higher_Education_yes" := "Ingin Lanjut Kuliah?",
    "Extra_Curricular_Activities_yes" := "Mengikuti Ekstrakurikuler?",
    "Internet_Access_yes" := "Memiliki Akses Internet?",
    "In_Relationship_yes" := "Memiliki Pacar?"
  ]

  /** Python's `s.replace('_', ' ')`. */
  function ReplaceUnderscores(s: string): (r: string)
    ensures |r| == |s|
    ensures forall i :: 0 <= i < |s| ==> r[i] == if s[i] == '_' then ' ' else s[i]
    ensures '_' !in r
  {
    if s == [] then []
    else [if s[0] == '_' then ' ' else s[0]] + ReplaceUnderscores(s[1..])
  }

  /** `binary_map.get(col, col.replace('_', ' '))` */
  function FallbackLabel(col: FeatureName): (caption: string)
    ensures col in BinaryMap ==> caption == BinaryMap[col]
    ensures col !in BinaryMap ==> caption == ReplaceUnderscores(col) && |caption| == |col|
    ensures '_' !in caption
  {
    if col in BinaryMap then BinaryMap[col] else ReplaceUnderscores(col)
  }

  /** The yes/no radio asked for a feature the catalogue does not know. */
  function FallbackWidget(col: FeatureName): (w: Widget)
    ensures WellFormed(w) && Preselected(w) == Some(0)
    ensures forall v :: Allows(w, v) <==> v == 0 || v == 1
  {
    Radio(FallbackLabel(col), [0, 1])
  }

  /**
   * Two different names can share a fallback label: underscores and spaces
   * are not told apart.
   */
  lemma FallbackLabelsCanCollide()
    ensures "A_B" != "A B" && FallbackWidget("A_B") == FallbackWidget("A B")
  {
    assert ReplaceUnderscores("A_B") == "A B";
  }

  /** What the form knows about a feature name. */
  datatype Kind =
    | Age | MotherEducation | FatherEducation | TravelTime | StudyTime | Failures | Address
    | Scale(caption: string)
    | YesNo

  /** The dispatch on the feature's name that the form's branches perform. */
  function Classify(name: FeatureName): Kind {
    if name == "Age" then Age
    else if name == "Mother_Education" then MotherEducation
    else if name == "Father_Education" then FatherEducation
    else if name == "Travel_Time" then TravelTime
    else if name == "Study_Time" then StudyTime
    else if name == "Number_of_Failures" then Failures
    else if name == "Address_U" then Address
    else if name in ScaleLabels then Scale(ScaleLabels[name])
    else YesNo
  }

  /** The widget the form renders for a feature of kind `kind` named `name`. */
  function KindWidget(kind: Kind, name: FeatureName): Widget {
    match kind
    case Age => AgeWidget
    case MotherEducation => MotherEducationWidget
    case FatherEducation => FatherEducationWidget
    case TravelTime => TravelTimeWidget
    case StudyTime => StudyTimeWidget
    case Failures => FailuresWidget
    case Address => AddressWidget
    case Scale(caption) => ScaleWidget(caption)
    case YesNo => FallbackWidget(name)
  }

  /** The widget the form renders for a feature of the model. */
  function WidgetFor(name: FeatureName): Widget {
    KindWidget(Classify(name), name)
  }

  // The documented domain and default of every kind of feature.

  predicate KindDomain(kind: Kind, v: int) {
    match kind
    case Age => 15 <= v <= 22
    case MotherEducation | FatherEducation | Failures => 0 <= v <= 4
    case TravelTime | StudyTime => 1 <= v <= 4
    case Scale(_) => 1 <= v <= 5
    case Address | YesNo => v == 0 || v == 1
  }

  function KindDefault(kind: Kind): int {
    match kind
    case Age => 17
    case TravelTime | StudyTime => 2
    case Address => 1
    case Scale(_) => 3
    case MotherEducation | FatherEducation | Failures | YesNo => 0
  }

  predicate InDeclaredDomain(name: FeatureName, v: int) {
    KindDomain(Classify(name), v)
  }

  /** The seven branches with a dedicated widget recognise their own names. */
  lemma KnownNamesClassified()
    ensures Classify("Age") == Age
    ensures Classify("Mother_Education") == MotherEducation
    ensures Classify("Father_Education") == FatherEducation
    ensures Classify("Travel_Time") == TravelTime
    ensures Classify("Study_Time") == StudyTime
    ensures Classify("Number_of_Failures") == Failures
    ensures Classify("Address_U") == Address
  {
  }

  /** Exactly the catalogued names escape the yes/no fallback; a scale name gets its slider. */
  lemma ClassifyMatchesCatalogue(name: FeatureName)
    ensures Catalogued(name) <==> Classify(name) != YesNo
    ensures name in ScaleLabels ==> Classify(name) == Scale(ScaleLabels[name])
  {
  }

  /**
   * Every widget of the form is one Streamlit accepts, lets the user pick
   * exactly the documented values of its kind and starts on the documented
   * default.
   */
  lemma KindWidgetIsDeclared(kind: Kind, name: FeatureName)
    ensures WellFormed(KindWidget(kind, name))
    ensures forall v :: Allows(KindWidget(kind, name), v) <==> KindDomain(kind, v)
    ensures Preselected(KindWidget(kind, name)) == Some(KindDefault(kind))
  {
  }
}
