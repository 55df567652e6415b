/** The generator's procedures, step by step, against a disk that holds a
    map from path to entry: `create_file`, `add_exports_to_file`,
    `create_recursive` with its two loops, `create_feature_structure` and the
    top-level guard. Each procedure is proved to leave the disk as running
    its planned actions would. */
module Generator {
  import opened Text
  import opened Templates
  import opened Structure
  import opened FileSystem

  /** Running the plans of the first `i + 1` entries is running those of the
      first `i`, then that of entry `i`. */
  lemma RunPlanStep(fs: FileMap, structure: seq<(string, Node)>, i: int, path: string, name: string)
    requires 0 <= i < |structure|
    ensures Run(fs, Plan(structure[..i + 1], path, name)) ==
      Run(Run(fs, Plan(structure[..i], path, name)), EntryPlan(structure[i], path, name))
  {
    assert structure[..i + 1] == structure[..i] + [structure[i]];
    PlanAppend(structure[..i], [structure[i]], path, name);
    assert Plan([structure[i]], path, name) == EntryPlan(structure[i], path, name) by {
      assert [structure[i]][1..] == [];
    }
    RunAppend(fs, Plan(structure[..i], path, name), EntryPlan(structure[i], path, name));
  }

  class Disk {
    var entries: FileMap

    constructor (initial: FileMap)
      ensures entries == initial
    {
      entries := initial;
    }

    /** `os.makedirs(path, exist_ok=True)`. */
    method MakeDirs(path: string)
      modifies this
      ensures entries == Apply(old(entries), MakeDir(path))
    {
      if path !in entries {
        entries := entries[path := Directory];
      }
    }

    /** `create_file(filepath, content)`: the file holds exactly `content`. */
    method CreateFile(filepath: string, content: string)
      modifies this
      ensures entries == old(entries)[filepath := File(content)]
    {
      entries := entries[filepath := File(content)];
    }

    /** `add_exports_to_file(filepath, export_lines)`: the file is opened
        for writing, which empties it, and each line is written followed by
        a newline. */
    method AddExportsToFile(filepath: string, exportLines: seq<string>)
      modifies this
      ensures entries == old(entries)[filepath := File(ExportText(exportLines))]
    {
      entries := entries[filepath := File([])];
      var i := 0;
      while i < |exportLines|
        invariant 0 <= i <= |exportLines|
        invariant entries == old(entries)[filepath := File(ExportText(exportLines[..i]))]
      {
        var written := entries[filepath].content;
        entries := entries[filepath := File(written + exportLines[i] + "\n")];
        ExportTextSnoc(exportLines[..i], exportLines[i]);
        assert exportLines[..i + 1] == exportLines[..i] + [exportLines[i]];
        i := i + 1;
      }
      assert exportLines[..i] == exportLines;
    }

    /** One iteration of `for filename in value`: the file's path and the
        if/elif chain that picks what is written there. */
    method WriteListedFile(folderPath: string, filename: string, featureName: string)
      modifies this
      ensures entries == old(entries)[Join(folderPath, FileName(filename, featureName)) :=
        File(GroupFileContent(filename, folderPath, featureName))]
    {
      var filepath := Join(folderPath, Replace(filename, LOWER_TOKEN, featureName));
      if filename == "{feature}.repository.dart" {
        CreateFile(filepath, Substitute(REPOSITORY_TEMPLATE, featureName));
      } else if filename == "{feature}.datasource.impl.dart" {
        CreateFile(filepath, Substitute(DATASOURCE_IMPL_TEMPLATE, featureName));
      } else if filename == "{feature}.datasource.dart" {
        CreateFile(filepath, Substitute(DATASOURCE_TEMPLATE, featureName));
      } else if filename == "{feature}.repository.impl.dart" {
        CreateFile(filepath, Substitute(REPOSITORY_IMPL_TEMPLATE, featureName));
      } else if filename == "_repository.dart" && Contains(folderPath, "infra") {
        AddExportsToFile(filepath, ["export '" + featureName + ".repository.impl.dart';"]);
      } else if filename == "_repository.dart" && Contains(folderPath, "domain") {
        AddExportsToFile(filepath, ["export '" + featureName + ".repository.dart';"]);
      } else if filename == "_datasource.dart" && Contains(folderPath, "external") {
        AddExportsToFile(filepath, ["export '" + featureName + ".datasource.impl.dart';"]);
      } else if filename == "_datasource.dart" && Contains(folderPath, "infra") {
        AddExportsToFile(filepath, ["export '" + featureName + ".datasource.dart';"]);
      } else {
        CreateFile(filepath, []);
      }
    }

    /** A key whose value is `None`: the file's path and the if/elif chain
        that picks what is written there. */
    method WriteLeafFile(path: string, key: string, featureName: string)
      modifies this
      ensures entries == old(entries)[Join(path, FileName(key, featureName)) := File(LeafContent(key, featureName))]
    {
      var filepath := Join(path, Replace(key, LOWER_TOKEN, featureName));
      if key in EXPORT_TEMPLATES {
        var exports := FillLines(EXPORT_TEMPLATES[key], featureName);
        AddExportsToFile(filepath, exports);
      } else if key == "{feature}.router.dart" {
        CreateFile(filepath, Substitute(ROUTER_TEMPLATE, featureName));
      } else if key == "{feature}.page.dart" {
        CreateFile(filepath, Substitute(PAGE_TEMPLATE, featureName));
      } else {
        CreateFile(filepath, []);
      }
    }

    /** `create_recursive(structure, path)`: the entries in declared order. */
    method CreateRecursive(structure: seq<(string, Node)>, path: string, featureName: string)
      modifies this
      ensures entries == Run(old(entries), Plan(structure, path, featureName))
      decreases structure
    {
      var i := 0;
      while i < |structure|
        invariant 0 <= i <= |structure|
        invariant entries == Run(old(entries), Plan(structure[..i], path, featureName))
      {
        CreateEntry(structure[i], path, featureName);
        RunPlanStep(old(entries), structure, i, path, featureName);
        i := i + 1;
      }
      assert structure[..i] == structure;
    }

    /** One iteration of `for key, value in structure.items()`. */
    method CreateEntry(entry: (string, Node), path: string, featureName: string)
      modifies this
      ensures entries == Run(old(entries), EntryPlan(entry, path, featureName))
      decreases entry
    {
      var (key, value) := entry;
      match value
      case Dir(children) =>
        var folderPath := Join(path, key);
        MakeDirs(folderPath);
        CreateRecursive(children, folderPath, featureName);
        RunAppend(old(entries), [MakeDir(folderPath)], Plan(children, folderPath, featureName));
      case Group(files) =>
        var folderPath := Join(path, key);
        MakeDirs(folderPath);
        CreateGroup(files, folderPath, featureName);
        RunAppend(old(entries), [MakeDir(folderPath)], GroupPlan(files, folderPath, featureName));
      case Leaf =>
        WriteLeafFile(path, key, featureName);
    }

    /** The inner `for filename in value` loop, once the folder exists. */
    method CreateGroup(files: seq<string>, folderPath: string, featureName: string)
      modifies this
      ensures entries == Run(old(entries), GroupPlan(files, folderPath, featureName))
    {
      ghost var plan := GroupPlan(files, folderPath, featureName);
      var k := 0;
      while k < |files|
        invariant 0 <= k <= |files|
        invariant entries == Run(old(entries), plan[..k])
      {
        WriteListedFile(folderPath, files[k], featureName);
        RunSnoc(old(entries), plan, k);
        k := k + 1;
      }
      assert plan[..k] == plan;
    }

    /** `create_feature_structure(base_path, feature_name)`. */
    method CreateFeatureStructure(basePath: string, featureName: string)
      modifies this
      ensures entries == Run(old(entries), FeaturePlan(basePath, featureName))
    {
      var featurePath := Join(basePath, featureName);
      MakeDirs(featurePath);
      CreateRecursive(FEATURE_STRUCTURE, featurePath, featureName);
      RunAppend(old(entries), [MakeDir(featurePath)], Plan(FEATURE_STRUCTURE, featurePath, featureName));
    }

    /** The script's top level, after the two answers are read: the name is
        lower-cased and the feature is created only when the base path
        exists. */
    method Generate(baseDirectory: string, featureName: string)
      modifies this
      ensures entries == Generated(old(entries), baseDirectory, featureName)
    {
      var name := Lower(featureName);
      if baseDirectory in entries {
        CreateFeatureStructure(baseDirectory, name);
      }
    }
  }
}
