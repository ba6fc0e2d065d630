/**
  The project path registry of osc_extraction_utils/paths.py.

  A `ProjectPaths` holds the root folder of a project run, the NLP, model
  and data folders derived from it, and thirteen path fields. Eleven of
  them, the data fields, are DATA / project name / declared default; the two
  saved-models fields are MODEL / project name / declared default / output
  model name from the settings. The setters keep these in step, each
  recomputing only some of them.

  A path is the sequence of its segments, and `/` is concatenation. A project
  name or an output model name is a single segment.
 */
module Paths {
  import opened Wrappers
  import opened Settings

  type Path = seq<string>

  /** The path fields of ProjectPaths with their declared defaults, in declaration order. */
  const Fields: seq<(string, Path)> := [
    ("path_folder_source_pdf", ["input", "pdfs", "training"]),
    ("path_folder_source_annotation", ["input", "annotations"]),
    ("path_folder_source_mapping", ["input", "kpi_mapping"]),
    ("path_folder_destination_pdf", ["interim", "pdfs"]),
    ("path_folder_destination_annotation", ["interim", "ml", "annotations"]),
    ("path_folder_destination_mapping", ["interim", "kpi_mapping"]),
    ("path_folder_destination_extraction", ["interim", "ml", "extraction"]),
    ("path_folder_destination_curation", ["interim", "ml", "curation"]),
    ("path_folder_destination_training", ["interim", "ml", "training"]),
    ("path_folder_destination_saved_models_relevance", ["RELEVANCE", "Text"]),
    ("path_folder_destination_saved_models_inference", ["KPI_EXTRACTION", "Text"]),
    ("path_folder_text_3434", ["interim", "ml"]),
    ("path_folder_relevance", ["output", "RELEVANCE", "Text"])
  ]

  /** Positions in Fields of the two fields the model-folder update rebuilds. */
  const RelevanceModelField: nat := 9
  const InferenceModelField: nat := 10

  /** The class-level defaults of the root-related folders: `Path()`, `Path() / "models"`, `Path() / "data"`. */
  const DefaultRoot: Path := []
  const DefaultModel: Path := ["models"]
  const DefaultData: Path := ["data"]

  /** The value of every field before any update: its declared default. */
  function DefaultFields(): (f: seq<Path>)
    ensures |f| == |Fields|
    ensures forall i :: 0 <= i < |Fields| ==> f[i] == Fields[i].1
  {
    seq(|Fields|, i requires 0 <= i < |Fields| => Fields[i].1)
  }

  // ---------------------------------------------------------------------------
  // Which fields are data fields: those whose name lacks "saved_models"

  ghost predicate OccursAt(s: string, sub: string, i: int) {
    0 <= i && i + |sub| <= |s| && s[i..i + |sub|] == sub
  }

  /** Python's `sub in s` for strings. */
  function Contains(s: string, sub: string): (r: bool)
    ensures r <==> exists i :: OccursAt(s, sub, i)
    decreases |s|
  {
    if |s| < |sub| then
      false
    else if s[..|sub|] == sub then
      assert OccursAt(s, sub, 0);
      true
    else
      var r := Contains(s[1..], sub);
      assert forall i :: OccursAt(s[1..], sub, i) <==> OccursAt(s, sub, i + 1);
      assert forall i :: OccursAt(s, sub, i) ==> i == 0 || OccursAt(s[1..], sub, i - 1);
      r
  }

  lemma AbsentCharNotContained(s: string, sub: string, c: char)
    requires c in sub && c !in s
    ensures !Contains(s, sub)
  {
  }

  lemma InfixContained(a: string, sub: string, b: string)
    ensures Contains(a + sub + b, sub)
  {
    assert (a + sub + b)[|a|..|a| + |sub|] == sub;
    assert OccursAt(a + sub + b, sub, |a|);
  }

  predicate IsDataField(i: int)
    requires 0 <= i < |Fields|
  {
    !Contains(Fields[i].0, "saved_models")
  }

  /** A field other than the two saved-models fields has no "saved_models" in its name. */
  lemma OtherFieldIsDataField(i: nat)
    requires i < |Fields| && i != RelevanceModelField && i != InferenceModelField
    ensures IsDataField(i)
  {
    var name := Fields[i].0;
    if i == 12 {
      assert name == "path_folder_relevance";
      AbsentCharNotContained(name, "saved_models", 's');
    } else {
      assert 'v' !in name by {
        if i == 0 { assert name == "path_folder_source_pdf"; }
        else if i == 1 { assert name == "path_folder_source_annotation"; }
        else if i == 2 { assert name == "path_folder_source_mapping"; }
        else if i == 3 { assert name == "path_folder_destination_pdf"; }
        else if i == 4 { assert name == "path_folder_destination_annotation"; }
        else if i == 5 { assert name == "path_folder_destination_mapping"; }
        else if i == 6 { assert name == "path_folder_destination_extraction"; }
        else if i == 7 { assert name == "path_folder_destination_curation"; }
        else if i == 8 { assert name == "path_folder_destination_training"; }
        else { assert i == 11 && name == "path_folder_text_3434"; }
      }
      AbsentCharNotContained(name, "saved_models", 'v');
    }
  }

  /** The saved-models fields are not data fields. */
  lemma RelevanceModelFieldIsNotDataField()
    ensures Fields[RelevanceModelField].0 == "path_folder_destination_saved_models_relevance"
    ensures !IsDataField(RelevanceModelField)
  {
    var name := Fields[RelevanceModelField].0;
    assert name == "path_folder_destination_" + "saved_models" + "_relevance";
    InfixContained("path_folder_destination_", "saved_models", "_relevance");
  }

  lemma InferenceModelFieldIsNotDataField()
    ensures Fields[InferenceModelField].0 == "path_folder_destination_saved_models_inference"
    ensures !IsDataField(InferenceModelField)
  {
    var name := Fields[InferenceModelField].0;
    assert name == "path_folder_destination_" + "saved_models" + "_inference";
    InfixContained("path_folder_destination_", "saved_models", "_inference");
  }

  /** Every field but the two saved-models fields is a data field. */
  lemma DataFieldsAreAllButSavedModels()
    ensures forall i :: 0 <= i < |Fields| ==>
              (IsDataField(i) <==> i != RelevanceModelField && i != InferenceModelField)
  {
    RelevanceModelFieldIsNotDataField();
    InferenceModelFieldIsNotDataField();
    forall i | 0 <= i < |Fields| && i != RelevanceModelField && i != InferenceModelField
      ensures IsDataField(i)
    {
      OtherFieldIsDataField(i);
    }
  }

  // ---------------------------------------------------------------------------
  // The derived values

  /** DATA / project name / the field's default. */
  function DataFieldPath(data: Path, name: string, i: nat): Path
    requires i < |Fields|
  {
    data + [name] + Fields[i].1
  }

  /** MODEL / project name / the field's default / output model name. */
  function ModelFieldPath(model: Path, name: string, i: nat, outputModelName: string): Path
    requires i < |Fields|
  {
    model + [name] + Fields[i].1 + [outputModelName]
  }

  /** The fields after the data-folder update. */
  function WithDataFields(f: seq<Path>, data: Path, name: string): seq<Path>
    requires |f| == |Fields|
  {
    seq(|Fields|, i requires 0 <= i < |Fields| => if IsDataField(i) then DataFieldPath(data, name, i) else f[i])
  }

  /** The fields after the model-folder update. */
  function WithModelFields(f: seq<Path>, model: Path, name: string, s: MainSettings): seq<Path>
    requires |f| == |Fields|
  {
    f[RelevanceModelField := ModelFieldPath(model, name, RelevanceModelField, s.trainRelevance.outputModelName)]
     [InferenceModelField := ModelFieldPath(model, name, InferenceModelField, s.trainKpi.outputModelName)]
  }

  /** The fields right after construction: both updates run against the class-level DATA and MODEL. */
  function InitialFields(name: string, s: MainSettings): seq<Path> {
    WithModelFields(WithDataFields(DefaultFields(), DefaultData, name), DefaultModel, name, s)
  }

  ghost predicate DataFieldsDerivedFrom(f: seq<Path>, data: Path, name: string)
    requires |f| == |Fields|
  {
    forall i :: 0 <= i < |Fields| && IsDataField(i) ==> f[i] == DataFieldPath(data, name, i)
  }

  ghost predicate ModelFieldsDerivedFrom(f: seq<Path>, model: Path, name: string, s: MainSettings)
    requires |f| == |Fields|
  {
    f[RelevanceModelField] == ModelFieldPath(model, name, RelevanceModelField, s.trainRelevance.outputModelName) &&
    f[InferenceModelField] == ModelFieldPath(model, name, InferenceModelField, s.trainKpi.outputModelName)
  }

  // ---------------------------------------------------------------------------
  // Properties of the updates

  /**
    The data-folder update sets every data field to DATA / name / default and
    leaves the saved-models fields as they were.
   */
  lemma DataUpdateDerives(f: seq<Path>, data: Path, name: string)
    requires |f| == |Fields|
    ensures |WithDataFields(f, data, name)| == |Fields|
    ensures DataFieldsDerivedFrom(WithDataFields(f, data, name), data, name)
    ensures WithDataFields(f, data, name)[RelevanceModelField] == f[RelevanceModelField]
    ensures WithDataFields(f, data, name)[InferenceModelField] == f[InferenceModelField]
  {
    DataFieldsAreAllButSavedModels();
  }

  /**
    The model-folder update sets the two saved-models fields to
    MODEL / name / default / output model name and leaves every data field alone.
   */
  lemma ModelUpdateDerives(f: seq<Path>, model: Path, name: string, s: MainSettings)
    requires |f| == |Fields|
    ensures |WithModelFields(f, model, name, s)| == |Fields|
    ensures ModelFieldsDerivedFrom(WithModelFields(f, model, name, s), model, name, s)
    ensures forall i :: 0 <= i < |Fields| && IsDataField(i) ==> WithModelFields(f, model, name, s)[i] == f[i]
  {
    DataFieldsAreAllButSavedModels();
  }

  /** The data-folder update rebuilds from the declared defaults, not from the current values. */
  lemma DataUpdateIgnoresCurrentValues(f: seq<Path>, g: seq<Path>, data: Path, name: string)
    requires |f| == |Fields| && |g| == |Fields|
    requires f[RelevanceModelField] == g[RelevanceModelField] && f[InferenceModelField] == g[InferenceModelField]
    ensures WithDataFields(f, data, name) == WithDataFields(g, data, name)
  {
    DataFieldsAreAllButSavedModels();
  }

  lemma DataUpdateIdempotent(f: seq<Path>, data: Path, name: string)
    requires |f| == |Fields|
    ensures WithDataFields(WithDataFields(f, data, name), data, name) == WithDataFields(f, data, name)
  {
    DataUpdateDerives(f, data, name);
    DataUpdateIgnoresCurrentValues(WithDataFields(f, data, name), f, data, name);
  }

  lemma ModelUpdateIdempotent(f: seq<Path>, model: Path, name: string, s: MainSettings)
    requires |f| == |Fields|
    ensures WithModelFields(WithModelFields(f, model, name, s), model, name, s) == WithModelFields(f, model, name, s)
  {
  }

  /** The two updates together make every field derived from DATA, MODEL, the name and the settings. */
  lemma UpdatesDeriveAllFields(f: seq<Path>, data: Path, model: Path, name: string, s: MainSettings)
    requires |f| == |Fields|
    ensures var g := WithModelFields(WithDataFields(f, data, name), model, name, s);
      |g| == |Fields| && DataFieldsDerivedFrom(g, data, name) && ModelFieldsDerivedFrom(g, model, name, s)
  {
    DataUpdateDerives(f, data, name);
    ModelUpdateDerives(WithDataFields(f, data, name), model, name, s);
  }

  /**
    Every data field lies under DATA / name, and every saved-models field lies
    under MODEL / name and ends in its output model name.
   */
  lemma DerivedFieldsShape(f: seq<Path>, data: Path, model: Path, name: string, s: MainSettings)
    requires |f| == |Fields|
    requires DataFieldsDerivedFrom(f, data, name) && ModelFieldsDerivedFrom(f, model, name, s)
    ensures forall i :: 0 <= i < |Fields| && IsDataField(i) ==>
              |f[i]| > |data| && f[i][..|data| + 1] == data + [name]
    ensures f[RelevanceModelField][..|model| + 1] == model + [name]
    ensures f[RelevanceModelField][|f[RelevanceModelField]| - 1] == s.trainRelevance.outputModelName
    ensures f[InferenceModelField][..|model| + 1] == model + [name]
    ensures f[InferenceModelField][|f[InferenceModelField]| - 1] == s.trainKpi.outputModelName
  {
    forall i | 0 <= i < |Fields| && IsDataField(i)
      ensures |f[i]| > |data| && f[i][..|data| + 1] == data + [name]
    {
      assert f[i] == (data + [name]) + Fields[i].1;
    }
    assert f[RelevanceModelField] == (model + [name]) + (Fields[RelevanceModelField].1 + [s.trainRelevance.outputModelName]);
    assert f[InferenceModelField] == (model + [name]) + (Fields[InferenceModelField].1 + [s.trainKpi.outputModelName]);
  }

  /**
    Right after construction the fields derive from the class-level "data" and
    "models" folders, not from those under the given root: unless the root is
    the empty path, no data field is DATA / name / default and no saved-models
    field is MODEL / name / default / output name for the DATA and MODEL the
    constructor leaves behind.
   */
  lemma ConstructionUsesClassDefaults(name: string, s: MainSettings, root: Path)
    ensures |InitialFields(name, s)| == |Fields|
    ensures DataFieldsDerivedFrom(InitialFields(name, s), DefaultData, name)
    ensures ModelFieldsDerivedFrom(InitialFields(name, s), DefaultModel, name, s)
    ensures root != [] ==>
              forall i :: 0 <= i < |Fields| && IsDataField(i) ==>
                InitialFields(name, s)[i] != DataFieldPath(root + ["data"], name, i)
    ensures root != [] ==>
              InitialFields(name, s)[RelevanceModelField] !=
              ModelFieldPath(root + ["models"], name, RelevanceModelField, s.trainRelevance.outputModelName)
    ensures root != [] ==>
              InferenceModelField < |InitialFields(name, s)| &&
              InitialFields(name, s)[InferenceModelField] !=
              ModelFieldPath(root + ["models"], name, InferenceModelField, s.trainKpi.outputModelName)
  {
    UpdatesDeriveAllFields(DefaultFields(), DefaultData, DefaultModel, name, s);
    var f := InitialFields(name, s);
    forall i | 0 <= i < |Fields| && IsDataField(i) && root != []
      ensures f[i] != DataFieldPath(root + ["data"], name, i)
    {
      assert |f[i]| < |DataFieldPath(root + ["data"], name, i)|;
    }
    if root != [] {
      assert |f[RelevanceModelField]| < |ModelFieldPath(root + ["models"], name, RelevanceModelField, s.trainRelevance.outputModelName)|;
      assert |f[InferenceModelField]| < |ModelFieldPath(root + ["models"], name, InferenceModelField, s.trainKpi.outputModelName)|;
    }
  }

  // ---------------------------------------------------------------------------
  // The registry

  datatype PathsError = TypeError

  /** `get_project_settings`: the registered instance, or TypeError when none is registered. */
  function GetProjectSettings(current: Option<ProjectPaths>): (r: Result<ProjectPaths, PathsError>)
    ensures r.Success? <==> current.Some?
    ensures r.Success? ==> r.value == current.value
    ensures r.Failure? ==> r.error == TypeError
  {
    match current
    case None => Failure(TypeError)
    case Some(p) => Success(p)
  }

  // ---------------------------------------------------------------------------
  // The object

  class ProjectPaths {
    var pathFolderRoot: Path
    var pathFolderNlp: Path
    var pathFolderModel: Path
    var pathFolderData: Path
    const pythonExecutable: string
    var stringProjectName: string
    var pathProjectDataFolder: Path
    var pathProjectModelFolder: Path
    var mainSettings: MainSettings
    /** The values of the path fields, in the order of Fields. */
    var fields: seq<Path>

    ghost predicate Valid()
      reads this
    {
      |fields| == |Fields|
    }

    /** NLP, MODEL and DATA as the root-related update leaves them. */
    ghost predicate RootPathsDerived()
      reads this
    {
      pathFolderNlp == pathFolderRoot &&
      pathFolderModel == pathFolderRoot + ["models"] &&
      pathFolderData == pathFolderRoot + ["data"]
    }

    /** Every path field derived from the current DATA, MODEL, project name and settings. */
    ghost predicate FieldsDerived()
      reads this
      requires Valid()
    {
      DataFieldsDerivedFrom(fields, pathFolderData, stringProjectName) &&
      ModelFieldsDerivedFrom(fields, pathFolderModel, stringProjectName, mainSettings)
    }

    /**
      Construction computes the project folders and every path field from the
      class-level "data" and "models" before it points the root-related folders
      at the given root.
     */
    constructor(stringProjectName: string, mainSettings: MainSettings, pathFolderRoot: Path)
      ensures Valid() && RootPathsDerived()
      ensures this.pathFolderRoot == pathFolderRoot
      ensures this.stringProjectName == stringProjectName && this.mainSettings == mainSettings
      ensures pathProjectDataFolder == DefaultData + [stringProjectName]
      ensures pathProjectModelFolder == DefaultModel + [stringProjectName]
      ensures fields == InitialFields(stringProjectName, mainSettings)
      ensures pythonExecutable == "python"
    {
      this.pathFolderNlp := DefaultRoot;
      this.pathFolderModel := DefaultModel;
      this.pathFolderData := DefaultData;
      this.pythonExecutable := "python";
      this.fields := DefaultFields();
      this.stringProjectName := stringProjectName;
      this.pathFolderRoot := pathFolderRoot;
      this.pathProjectDataFolder := DefaultData + [stringProjectName];
      this.pathProjectModelFolder := DefaultModel + [stringProjectName];
      this.mainSettings := mainSettings;
      new;
      UpdateAllPathsDependingOnPathProjectDataFolder();
      UpdateAllPathsDependingOnPathProjectModelFolder();
      UpdateAllRootRelatedPaths();
    }

    /** The `string_project_name` setter: both field families are rebuilt for the new name. */
    method SetStringProjectName(stringNewProjectName: string)
      requires Valid()
      modifies this`stringProjectName, this`fields
      ensures Valid()
      ensures stringProjectName == stringNewProjectName
      ensures fields == WithModelFields(WithDataFields(old(fields), pathFolderData, stringNewProjectName),
                                        pathFolderModel, stringNewProjectName, mainSettings)
      ensures FieldsDerived()
    {
      stringProjectName := stringNewProjectName;
      UpdateAllPathsDependingOnPathProjectDataFolder();
      UpdateAllPathsDependingOnPathProjectModelFolder();
      UpdatesDeriveAllFields(old(fields), pathFolderData, pathFolderModel, stringNewProjectName, mainSettings);
    }

    /** The `main_settings` setter: only the two saved-models fields are rebuilt. */
    method SetMainSettings(mainSettingsNew: MainSettings)
      requires Valid()
      modifies this`mainSettings, this`fields
      ensures Valid()
      ensures mainSettings == mainSettingsNew
      ensures fields == WithModelFields(old(fields), pathFolderModel, stringProjectName, mainSettingsNew)
      ensures forall i :: 0 <= i < |Fields| && IsDataField(i) ==> fields[i] == old(fields)[i]
    {
      mainSettings := mainSettingsNew;
      UpdateAllPathsDependingOnPathProjectModelFolder();
      ModelUpdateDerives(old(fields), pathFolderModel, stringProjectName, mainSettingsNew);
    }

    /** The `PATH_FOLDER_ROOT` setter: NLP, MODEL and DATA follow the root; no path field does. */
    method SetPathFolderRoot(pathFolderRootNew: Path)
      modifies this`pathFolderRoot, this`pathFolderNlp, this`pathFolderModel, this`pathFolderData
      ensures pathFolderRoot == pathFolderRootNew && RootPathsDerived()
    {
      pathFolderRoot := pathFolderRootNew;
      UpdateAllRootRelatedPaths();
    }

    method UpdateAllPathsDependingOnPathProjectDataFolder()
      requires Valid()
      modifies this`fields
      ensures Valid()
      ensures fields == WithDataFields(old(fields), pathFolderData, stringProjectName)
    {
      var i := 0;
      while i < |Fields|
        invariant 0 <= i <= |Fields|
        invariant |fields| == |Fields|
        invariant forall j :: 0 <= j < |Fields| ==>
                    fields[j] == if j < i && IsDataField(j) then DataFieldPath(pathFolderData, stringProjectName, j)
                                 else old(fields)[j]
      {
        var (name, default) := Fields[i];
        if !Contains(name, "saved_models") {
          fields := fields[i := pathFolderData + [stringProjectName] + default];
        }
        i := i + 1;
      }
    }

    method UpdateAllRootRelatedPaths()
      modifies this`pathFolderNlp, this`pathFolderModel, this`pathFolderData
      ensures RootPathsDerived()
    {
      pathFolderNlp := pathFolderRoot;
      pathFolderModel := pathFolderRoot + ["models"];
      pathFolderData := pathFolderRoot + ["data"];
    }

    method UpdateAllPathsDependingOnPathProjectModelFolder()
      requires Valid()
      modifies this`fields
      ensures Valid()
      ensures fields == WithModelFields(old(fields), pathFolderModel, stringProjectName, mainSettings)
    {
      var modelFields := [RelevanceModelField, InferenceModelField];
      var outputModelNames := [mainSettings.trainRelevance.outputModelName, mainSettings.trainKpi.outputModelName];
      var k := 0;
      while k < |modelFields|
        invariant 0 <= k <= |modelFields|
        invariant fields == if k == 0 then old(fields)
                            else if k == 1 then old(fields)[RelevanceModelField := ModelFieldPath(pathFolderModel, stringProjectName, RelevanceModelField, outputModelNames[0])]
                            else WithModelFields(old(fields), pathFolderModel, stringProjectName, mainSettings)
      {
        var field := modelFields[k];
        fields := fields[field := pathFolderModel + [stringProjectName] + Fields[field].1 + [outputModelNames[k]]];
        k := k + 1;
      }
    }
  }
}
