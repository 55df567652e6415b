/** The folder tree of a feature and the walk `create_recursive` makes over
    it, written as the ordered list of file-system actions the walk performs:
    create a folder (`os.makedirs(path, exist_ok=True)`) or write a file with
    some content (`create_file` / `add_exports_to_file`). Which content a file
    gets is decided by the if/elif chains of generate_feature.py, modelled
    here as `GroupFileContent` (files listed in a list-valued folder) and
    `LeafContent` (files that are keys with value `None`). */
module Structure {
  import opened Text
  import opened Templates

  /** A value of the structure dict: a nested dict (a folder whose entries
      keep their declared order), a list (a folder of file names) or `None`
      (a file). */
  datatype Node = Dir(entries: seq<(string, Node)>) | Group(files: seq<string>) | Leaf

  datatype Action = MakeDir(path: string) | WriteFile(path: string, content: string)

  /** `os.path.join` of a folder and a name. */
  function Join(folder: string, name: string): string {
    folder + "/" + name
  }

  // FEATURE_STRUCTURE, folder by folder.

  const DOMAIN_FOLDER: seq<(string, Node)> := [
    ("repository", Group(["_repository.dart", "{feature}.repository.dart"])),
    ("usecase", Group(["_usecase.dart"])),
    ("_domain.dart", Leaf)
  ]

  const EXTERNAL_FOLDER: seq<(string, Node)> := [
    ("datasource", Group(["_datasource.dart", "{feature}.datasource.impl.dart"])),
    ("_external.dart", Leaf)
  ]

  const INFRA_FOLDER: seq<(string, Node)> := [
    ("datasource", Group(["_datasource.dart", "{feature}.datasource.dart"])),
    ("repository", Group(["_repository.dart", "{feature}.repository.impl.dart"])),
    ("_infra.dart", Leaf)
  ]

  const CONTROLLER_FOLDER: seq<(string, Node)> := [
    ("_controller.dart", Leaf),
    ("{feature}.cubit.dart", Leaf),
    ("{feature}.state.dart", Leaf)
  ]

  const PAGE_FOLDER: seq<(string, Node)> := [
    ("_page.dart", Leaf),
    ("{feature}.page.dart", Leaf)
  ]

  const WIDGET_FOLDER: seq<(string, Node)> := [
    ("_widget.dart", Leaf)
  ]

  const PRESENTATION_FOLDER: seq<(string, Node)> := [
    ("controller", Dir(CONTROLLER_FOLDER)),
    ("page", Dir(PAGE_FOLDER)),
    ("widget", Dir(WIDGET_FOLDER)),
    ("_presentation.dart", Leaf)
  ]

  const FEATURE_STRUCTURE: seq<(string, Node)> := [
    ("domain", Dir(DOMAIN_FOLDER)),
    ("external", Dir(EXTERNAL_FOLDER)),
    ("infra", Dir(INFRA_FOLDER)),
    ("presentation", Dir(PRESENTATION_FOLDER)),
    ("_{feature}.dart", Leaf),
    ("{feature}.router.dart", Leaf),
    ("{feature}.setup.locator.dart", Leaf)
  ]

  /** The export lines of each barrel file, before `{feature}` is replaced. */
  const EXPORT_TEMPLATES: map<string, seq<string>> := map[
    "_{feature}.dart" := [
      "export '{feature}.router.dart';",
      "export '{feature}.setup.locator.dart';",
      "export 'domain/_domain.dart';",
      "export 'external/_external.dart';",
      "export 'infra/_infra.dart';",
      "export 'presentation/_presentation.dart';"
    ],
    "_domain.dart" := [
      "export 'repository/_repository.dart';",
      "export 'usecase/_usecase.dart';"
    ],
    "_repository.dart" := ["export '{feature}.repository.dart';"],
    "_usecase.dart" := ["export '{feature}.usecase.dart';"],
    "_external.dart" := ["export 'datasource/_datasource.dart';"],
    "_datasource.dart" := [
      "export '{feature}.datasource.dart';",
      "export '{feature}.datasource.impl.dart';"
    ],
    "_infra.dart" := [
      "export 'datasource/_datasource.dart';",
      "export 'repository/_repository.dart';"
    ],
    "_presentation.dart" := [
      "export 'controller/_controller.dart';",
      "export 'page/_page.dart';",
      "export 'widget/_widget.dart';"
    ],
    "_controller.dart" := [
      "export '{feature}.cubit.dart';",
      "export '{feature}.state.dart';"
    ],
    "_page.dart" := ["export '{feature}.page.dart';"],
    "_widget.dart" := []
  ]

  /** The name a file is created under: only `{feature}` is replaced. */
  function FileName(key: string, name: string): string {
    Replace(key, LOWER_TOKEN, name)
  }

  /** The export lines of a barrel file with `{feature}` replaced in each;
      `{Feature}` is left alone. */
  function FillLines(lines: seq<string>, name: string): (r: seq<string>)
    ensures |r| == |lines|
    ensures forall k :: 0 <= k < |lines| ==> r[k] == Replace(lines[k], LOWER_TOKEN, name)
  {
    seq(|lines|, k requires 0 <= k < |lines| => Replace(lines[k], LOWER_TOKEN, name))
  }

  /** The content of a file listed in a list-valued folder: the four class
      files get their template, the two barrel files get one export line
      chosen by a substring test on the whole folder path, and every other
      file is empty. */
  function GroupFileContent(filename: string, folder: string, name: string): string {
    if filename == "{feature}.repository.dart" then Substitute(REPOSITORY_TEMPLATE, name)
    else if filename == "{feature}.datasource.impl.dart" then Substitute(DATASOURCE_IMPL_TEMPLATE, name)
    else if filename == "{feature}.datasource.dart" then Substitute(DATASOURCE_TEMPLATE, name)
    else if filename == "{feature}.repository.impl.dart" then Substitute(REPOSITORY_IMPL_TEMPLATE, name)
    else if filename == "_repository.dart" && Contains(folder, "infra") then
      ExportText(["export '" + name + ".repository.impl.dart';"])
    else if filename == "_repository.dart" && Contains(folder, "domain") then
      ExportText(["export '" + name + ".repository.dart';"])
    else if filename == "_datasource.dart" && Contains(folder, "external") then
      ExportText(["export '" + name + ".datasource.impl.dart';"])
    else if filename == "_datasource.dart" && Contains(folder, "infra") then
      ExportText(["export '" + name + ".datasource.dart';"])
    else []
  }

  /** The content of a file that is a key with value `None`: looked up by its
      key as written in the table, before substitution. */
  function LeafContent(key: string, name: string): string {
    if key in EXPORT_TEMPLATES then ExportText(FillLines(EXPORT_TEMPLATES[key], name))
    else if key == "{feature}.router.dart" then Substitute(ROUTER_TEMPLATE, name)
    else if key == "{feature}.page.dart" then Substitute(PAGE_TEMPLATE, name)
    else []
  }

  /** The writes of the inner `for filename in value` loop. */
  function GroupPlan(files: seq<string>, folder: string, name: string): (r: seq<Action>)
    ensures |r| == |files|
    ensures forall k :: 0 <= k < |files| ==>
      r[k] == WriteFile(Join(folder, FileName(files[k], name)), GroupFileContent(files[k], folder, name))
  {
    seq(|files|, k requires 0 <= k < |files| =>
      WriteFile(Join(folder, FileName(files[k], name)), GroupFileContent(files[k], folder, name)))
  }

  /** The actions of `create_recursive(structure, path)`, in order. */
  function Plan(structure: seq<(string, Node)>, path: string, name: string): seq<Action>
    decreases structure
  {
    if structure == [] then []
    else EntryPlan(structure[0], path, name) + Plan(structure[1..], path, name)
  }

  /** The actions of one iteration of `for key, value in structure.items()`. */
  function EntryPlan(entry: (string, Node), path: string, name: string): seq<Action>
    decreases entry
  {
    var (key, node) := entry;
    match node
    case Dir(entries) => [MakeDir(Join(path, key))] + Plan(entries, Join(path, key), name)
    case Group(files) => [MakeDir(Join(path, key))] + GroupPlan(files, Join(path, key), name)
    case Leaf => [WriteFile(Join(path, FileName(key, name)), LeafContent(key, name))]
  }

  /** The folder a feature is created in. */
  function FeatureFolder(base: string, name: string): string {
    Join(base, name)
  }

  /** The actions of `create_feature_structure(base, name)`. */
  function FeaturePlan(base: string, name: string): seq<Action> {
    [MakeDir(FeatureFolder(base, name))] + Plan(FEATURE_STRUCTURE, FeatureFolder(base, name), name)
  }

  // The walk: declared order, folders before their contents, one write per file.

  /** `create_recursive` handles the entries of a dict one after the other:
      the actions of entry `i` sit between those of the entries before it and
      those of the entries after it. */
  lemma PlanSplit(structure: seq<(string, Node)>, i: int, path: string, name: string)
    requires 0 <= i < |structure|
    ensures Plan(structure, path, name) ==
      Plan(structure[..i], path, name) + EntryPlan(structure[i], path, name) + Plan(structure[i + 1..], path, name)
  {
    var rest := [structure[i]] + structure[i + 1..];
    assert structure == structure[..i] + rest;
    PlanAppend(structure[..i], rest, path, name);
    assert rest[1..] == structure[i + 1..];
  }

  lemma {:induction false} PlanAppend(s: seq<(string, Node)>, t: seq<(string, Node)>, path: string, name: string)
    ensures Plan(s + t, path, name) == Plan(s, path, name) + Plan(t, path, name)
    decreases s
  {
    if s == [] {
      assert s + t == t;
    } else {
      assert (s + t)[0] == s[0];
      assert (s + t)[1..] == s[1..] + t;
      PlanAppend(s[1..], t, path, name);
    }
  }

  /** Every action of `create_recursive(structure, path)` is about a path
      beneath `path`. */
  lemma {:induction false} PlanBeneath(structure: seq<(string, Node)>, path: string, name: string)
    ensures forall a :: a in Plan(structure, path, name) ==> StartsWith(a.path, path + "/")
    decreases structure
  {
    if structure != [] {
      EntryBeneath(structure[0], path, name);
      PlanBeneath(structure[1..], path, name);
    }
  }

  lemma {:induction false} EntryBeneath(entry: (string, Node), path: string, name: string)
    ensures forall a :: a in EntryPlan(entry, path, name) ==> StartsWith(a.path, path + "/")
    decreases entry
  {
    var (key, node) := entry;
    match node
    case Dir(entries) =>
      PlanBeneath(entries, Join(path, key), name);
      DirBeneath(key, entries, path, name);
    case Group(files) =>
      GroupBeneath(key, files, path, name);
    case Leaf =>
      StartsWithConcat(path + "/", FileName(key, name));
  }

  /** What lies beneath a sub-folder lies beneath its parent. */
  lemma DirBeneath(key: string, entries: seq<(string, Node)>, path: string, name: string)
    requires forall a :: a in Plan(entries, Join(path, key), name) ==> StartsWith(a.path, Join(path, key) + "/")
    ensures forall a :: a in Plan(entries, Join(path, key), name) ==> StartsWith(a.path, path + "/")
    ensures StartsWith(Join(path, key), path + "/")
  {
    var folder := Join(path, key);
    StartsWithConcat(path + "/", key);
    forall a | a in Plan(entries, folder, name)
      ensures StartsWith(a.path, path + "/")
    {
      assert folder + "/" == (path + "/") + (key + "/");
      StartsWithPrefix(a.path, path + "/", key + "/");
    }
  }

  /** The files of a list-valued key lie beneath the folder the key lies in. */
  lemma GroupBeneath(key: string, files: seq<string>, path: string, name: string)
    ensures forall a :: a in GroupPlan(files, Join(path, key), name) ==> StartsWith(a.path, path + "/")
    ensures StartsWith(Join(path, key), path + "/")
  {
    var folder := Join(path, key);
    StartsWithConcat(path + "/", key);
    forall a | a in GroupPlan(files, folder, name)
      ensures StartsWith(a.path, path + "/")
    {
      var k :| 0 <= k < |files| && GroupPlan(files, folder, name)[k] == a;
      FileBeneath(key, FileName(files[k], name), path);
    }
  }

  lemma FileBeneath(key: string, file: string, path: string)
    ensures StartsWith(Join(Join(path, key), file), path + "/")
  {
    assert Join(Join(path, key), file) == (path + "/") + (key + "/" + file);
    StartsWithConcat(path + "/", key + "/" + file);
  }

  lemma StartsWithPrefix(s: string, p: string, q: string)
    requires StartsWith(s, p + q)
    ensures StartsWith(s, p)
  {
    assert s[..|p|] == (p + q)[..|p|];
  }

  lemma StartsWithConcat(p: string, r: string)
    ensures StartsWith(p + r, p)
  {
    assert (p + r)[..|p|] == p;
  }

  /** A dict- or list-valued key: its folder, named by the key without
      substitution, is created before anything the entry does, and everything
      else the entry does lies beneath that folder. */
  lemma FolderBeforeContents(entry: (string, Node), path: string, name: string)
    requires !entry.1.Leaf?
    ensures var actions := EntryPlan(entry, path, name);
      actions[0] == MakeDir(Join(path, entry.0)) &&
      forall a :: a in actions[1..] ==> StartsWith(a.path, Join(path, entry.0) + "/")
  {
    var folder := Join(path, entry.0);
    match entry.1
    case Dir(entries) =>
      PlanBeneath(entries, folder, name);
      assert EntryPlan(entry, path, name)[1..] == Plan(entries, folder, name);
    case Group(files) =>
      var actions := GroupPlan(files, folder, name);
      assert EntryPlan(entry, path, name)[1..] == actions;
      forall a | a in actions
        ensures StartsWith(a.path, folder + "/")
      {
        var k :| 0 <= k < |files| && actions[k] == a;
        StartsWithConcat(folder + "/", FileName(files[k], name));
      }
  }

  /** The feature folder is created first, and every later action lies
      beneath it. */
  lemma FeatureFolderFirst(base: string, name: string)
    ensures var actions := FeaturePlan(base, name);
      actions[0] == MakeDir(FeatureFolder(base, name)) &&
      forall a :: a in actions[1..] ==> StartsWith(a.path, FeatureFolder(base, name) + "/")
  {
    PlanBeneath(FEATURE_STRUCTURE, FeatureFolder(base, name), name);
    assert FeaturePlan(base, name)[1..] == Plan(FEATURE_STRUCTURE, FeatureFolder(base, name), name);
  }

  function WriteCount(actions: seq<Action>): nat {
    if actions == [] then 0 else (if actions[0].WriteFile? then 1 else 0) + WriteCount(actions[1..])
  }

  function MakeDirCount(actions: seq<Action>): nat {
    if actions == [] then 0 else (if actions[0].MakeDir? then 1 else 0) + MakeDirCount(actions[1..])
  }

  lemma {:induction false} CountsAppend(a: seq<Action>, b: seq<Action>)
    ensures WriteCount(a + b) == WriteCount(a) + WriteCount(b)
    ensures MakeDirCount(a + b) == MakeDirCount(a) + MakeDirCount(b)
  {
    if a == [] {
      assert a + b == b;
    } else {
      assert (a + b)[1..] == a[1..] + b;
      CountsAppend(a[1..], b);
    }
  }

  lemma {:induction false} AllWrites(actions: seq<Action>)
    requires forall k :: 0 <= k < |actions| ==> actions[k].WriteFile?
    ensures WriteCount(actions) == |actions| && MakeDirCount(actions) == 0
  {
    if actions != [] {
      AllWrites(actions[1..]);
    }
  }

  /** Files in a structure: list elements and `None` values. */
  function FileCount(structure: seq<(string, Node)>): nat
    decreases structure
  {
    if structure == [] then 0 else EntryFileCount(structure[0]) + FileCount(structure[1..])
  }

  function EntryFileCount(entry: (string, Node)): nat
    decreases entry
  {
    match entry.1
    case Dir(entries) => FileCount(entries)
    case Group(files) => |files|
    case Leaf => 1
  }

  /** Folders in a structure: dict- and list-valued keys. */
  function FolderCount(structure: seq<(string, Node)>): nat
    decreases structure
  {
    if structure == [] then 0 else EntryFolderCount(structure[0]) + FolderCount(structure[1..])
  }

  function EntryFolderCount(entry: (string, Node)): nat
    decreases entry
  {
    match entry.1
    case Dir(entries) => 1 + FolderCount(entries)
    case Group(_) => 1
    case Leaf => 0
  }

  /** The walk writes each file exactly once and creates each folder exactly
      once: one write per list element and per `None` value, one folder per
      dict- or list-valued key. */
  lemma {:induction false} OneWritePerFile(structure: seq<(string, Node)>, path: string, name: string)
    ensures WriteCount(Plan(structure, path, name)) == FileCount(structure)
    ensures MakeDirCount(Plan(structure, path, name)) == FolderCount(structure)
    decreases structure
  {
    if structure != [] {
      EntryOneWritePerFile(structure[0], path, name);
      OneWritePerFile(structure[1..], path, name);
      CountsAppend(EntryPlan(structure[0], path, name), Plan(structure[1..], path, name));
    }
  }

  lemma {:induction false} EntryOneWritePerFile(entry: (string, Node), path: string, name: string)
    ensures WriteCount(EntryPlan(entry, path, name)) == EntryFileCount(entry)
    ensures MakeDirCount(EntryPlan(entry, path, name)) == EntryFolderCount(entry)
    decreases entry
  {
    var folder := Join(path, entry.0);
    match entry.1
    case Dir(entries) =>
      OneWritePerFile(entries, folder, name);
      CountsAppend([MakeDir(folder)], Plan(entries, folder, name));
    case Group(files) =>
      AllWrites(GroupPlan(files, folder, name));
      CountsAppend([MakeDir(folder)], GroupPlan(files, folder, name));
    case Leaf =>
  }

  /** A generated feature has 22 files in 13 folders, its own included. */
  lemma FeatureCounts(base: string, name: string)
    ensures WriteCount(FeaturePlan(base, name)) == 22
    ensures MakeDirCount(FeaturePlan(base, name)) == 13
  {
    var folder := FeatureFolder(base, name);
    OneWritePerFile(FEATURE_STRUCTURE, folder, name);
    CountsAppend([MakeDir(folder)], Plan(FEATURE_STRUCTURE, folder, name));
    StructureCounts();
  }

  lemma WidgetFolderCounts()
    ensures FileCount(WIDGET_FOLDER) == 1 && FolderCount(WIDGET_FOLDER) == 0
  {
    var s := WIDGET_FOLDER;
    assert s[0..][1..] == s[1..];
    assert FileCount(s[0..]) == 1 && FolderCount(s[0..]) == 0;
    assert s[0..] == s;
  }

  lemma PageFolderCounts()
    ensures FileCount(PAGE_FOLDER) == 2 && FolderCount(PAGE_FOLDER) == 0
  {
    var s := PAGE_FOLDER;
    assert s[1..][1..] == s[2..];
    assert FileCount(s[1..]) == 1 && FolderCount(s[1..]) == 0;
    assert s[0..][1..] == s[1..];
    assert FileCount(s[0..]) == 2 && FolderCount(s[0..]) == 0;
    assert s[0..] == s;
  }

  lemma ControllerFolderCounts()
    ensures FileCount(CONTROLLER_FOLDER) == 3 && FolderCount(CONTROLLER_FOLDER) == 0
  {
    var s := CONTROLLER_FOLDER;
    assert s[2..][1..] == s[3..];
    assert FileCount(s[2..]) == 1 && FolderCount(s[2..]) == 0;
    assert s[1..][1..] == s[2..];
    assert FileCount(s[1..]) == 2 && FolderCount(s[1..]) == 0;
    assert s[0..][1..] == s[1..];
    assert FileCount(s[0..]) == 3 && FolderCount(s[0..]) == 0;
    assert s[0..] == s;
  }

  lemma PresentationFolderCounts()
    ensures FileCount(PRESENTATION_FOLDER) == 7 && FolderCount(PRESENTATION_FOLDER) == 3
  {
    ControllerFolderCounts();
    PageFolderCounts();
    WidgetFolderCounts();
    var s := PRESENTATION_FOLDER;
    assert s[3..][1..] == s[4..];
    assert FileCount(s[3..]) == 1 && FolderCount(s[3..]) == 0;
    assert s[2..][1..] == s[3..];
    assert FileCount(s[2..]) == 2 && FolderCount(s[2..]) == 1;
    assert s[1..][1..] == s[2..];
    assert FileCount(s[1..]) == 4 && FolderCount(s[1..]) == 2;
    assert s[0..][1..] == s[1..];
    assert FileCount(s[0..]) == 7 && FolderCount(s[0..]) == 3;
    assert s[0..] == s;
  }


  lemma DomainFolderCounts()
    ensures FileCount(DOMAIN_FOLDER) == 4 && FolderCount(DOMAIN_FOLDER) == 2
  {
    var s := DOMAIN_FOLDER;
    assert s[2..][1..] == s[3..];
    assert FileCount(s[2..]) == 1 && FolderCount(s[2..]) == 0;
    assert s[1..][1..] == s[2..];
    assert FileCount(s[1..]) == 2 && FolderCount(s[1..]) == 1;
    assert s[0..][1..] == s[1..];
    assert FileCount(s[0..]) == 4 && FolderCount(s[0..]) == 2;
    assert s[0..] == s;
  }

  lemma ExternalFolderCounts()
    ensures FileCount(EXTERNAL_FOLDER) == 3 && FolderCount(EXTERNAL_FOLDER) == 1
  {
    var s := EXTERNAL_FOLDER;
    assert s[1..][1..] == s[2..];
    assert FileCount(s[1..]) == 1 && FolderCount(s[1..]) == 0;
    assert s[0..][1..] == s[1..];
    assert FileCount(s[0..]) == 3 && FolderCount(s[0..]) == 1;
    assert s[0..] == s;
  }

  lemma InfraFolderCounts()
    ensures FileCount(INFRA_FOLDER) == 5 && FolderCount(INFRA_FOLDER) == 2
  {
    var s := INFRA_FOLDER;
    assert s[2..][1..] == s[3..];
    assert FileCount(s[2..]) == 1 && FolderCount(s[2..]) == 0;
    assert s[1..][1..] == s[2..];
    assert FileCount(s[1..]) == 3 && FolderCount(s[1..]) == 1;
    assert s[0..][1..] == s[1..];
    assert FileCount(s[0..]) == 5 && FolderCount(s[0..]) == 2;
    assert s[0..] == s;
  }

  /** The three `None`-valued top-level keys. */
  lemma TopLeavesCounts()
    ensures FileCount(FEATURE_STRUCTURE[4..]) == 3 && FolderCount(FEATURE_STRUCTURE[4..]) == 0
  {
    var s := FEATURE_STRUCTURE;
    assert s[6..][1..] == s[7..];
    assert FileCount(s[6..]) == 1 && FolderCount(s[6..]) == 0;
    assert s[5..][1..] == s[6..];
    assert FileCount(s[5..]) == 2 && FolderCount(s[5..]) == 0;
    assert s[4..][1..] == s[5..];
  }

  lemma StructureCounts()
    ensures FileCount(FEATURE_STRUCTURE) == 22 && FolderCount(FEATURE_STRUCTURE) == 12
  {
    var s := FEATURE_STRUCTURE;
    assert FileCount(s[3..]) == 10 && FolderCount(s[3..]) == 4 by {
      TopLeavesCounts();
      PresentationFolderCounts();
      assert s[3..][1..] == s[4..];
    }
    assert FileCount(s[2..]) == 15 && FolderCount(s[2..]) == 7 by {
      InfraFolderCounts();
      assert s[2..][1..] == s[3..];
    }
    assert FileCount(s[1..]) == 18 && FolderCount(s[1..]) == 9 by {
      ExternalFolderCounts();
      assert s[1..][1..] == s[2..];
    }
    assert FileCount(s[0..]) == 22 && FolderCount(s[0..]) == 12 by {
      DomainFolderCounts();
      assert s[0..][1..] == s[1..];
    }
    assert s[0..] == s;
  }



  // Where each file of a generated feature ends up, and with what content.

  /** Whatever entry `i` of a dict does, the walk over the dict does. */
  lemma InPlan(structure: seq<(string, Node)>, i: int, path: string, name: string, a: Action)
    requires 0 <= i < |structure| && a in EntryPlan(structure[i], path, name)
    ensures a in Plan(structure, path, name)
  {
    PlanSplit(structure, i, path, name);
  }

  /** An action of the walk over the folder of top-level key `i`, which holds
      the entries `entries`, is an action of the whole feature. */
  lemma InFeature(base: string, name: string, i: int, entries: seq<(string, Node)>, a: Action)
    requires 0 <= i < |FEATURE_STRUCTURE| && FEATURE_STRUCTURE[i].1 == Dir(entries)
    requires a in Plan(entries, Join(FeatureFolder(base, name), FEATURE_STRUCTURE[i].0), name)
    ensures a in FeaturePlan(base, name)
  {
    var folder := FeatureFolder(base, name);
    assert a in EntryPlan(FEATURE_STRUCTURE[i], folder, name);
    InPlan(FEATURE_STRUCTURE, i, folder, name, a);
  }

  /** File `k` of the list-valued key `j` of top-level folder `i`. */
  lemma InFeatureGroup(base: string, name: string, i: int, entries: seq<(string, Node)>, j: int, k: int)
    requires 0 <= i < |FEATURE_STRUCTURE| && FEATURE_STRUCTURE[i].1 == Dir(entries)
    requires 0 <= j < |entries| && entries[j].1.Group? && 0 <= k < |entries[j].1.files|
    ensures var folder := Join(Join(FeatureFolder(base, name), FEATURE_STRUCTURE[i].0), entries[j].0);
      var file := entries[j].1.files[k];
      WriteFile(Join(folder, FileName(file, name)), GroupFileContent(file, folder, name)) in FeaturePlan(base, name)
  {
    var top := Join(FeatureFolder(base, name), FEATURE_STRUCTURE[i].0);
    var folder := Join(top, entries[j].0);
    var files := entries[j].1.files;
    var a := GroupPlan(files, folder, name)[k];
    assert a in EntryPlan(entries[j], top, name);
    InPlan(entries, j, top, name, a);
    InFeature(base, name, i, entries, a);
  }

  /** The `None`-valued key `j` of top-level folder `i`. */
  lemma InFeatureLeaf(base: string, name: string, i: int, entries: seq<(string, Node)>, j: int)
    requires 0 <= i < |FEATURE_STRUCTURE| && FEATURE_STRUCTURE[i].1 == Dir(entries)
    requires 0 <= j < |entries| && entries[j].1 == Leaf
    ensures var folder := Join(FeatureFolder(base, name), FEATURE_STRUCTURE[i].0);
      var key := entries[j].0;
      WriteFile(Join(folder, FileName(key, name)), LeafContent(key, name)) in FeaturePlan(base, name)
  {
    var folder := Join(FeatureFolder(base, name), FEATURE_STRUCTURE[i].0);
    var key := entries[j].0;
    var a := WriteFile(Join(folder, FileName(key, name)), LeafContent(key, name));
    assert EntryPlan(entries[j], folder, name) == [a];
    InPlan(entries, j, folder, name, a);
    InFeature(base, name, i, entries, a);
  }

  /** The `None`-valued top-level key `i`. */
  lemma InFeatureTopLeaf(base: string, name: string, i: int)
    requires 0 <= i < |FEATURE_STRUCTURE| && FEATURE_STRUCTURE[i].1 == Leaf
    ensures var key := FEATURE_STRUCTURE[i].0;
      WriteFile(Join(FeatureFolder(base, name), FileName(key, name)), LeafContent(key, name))
        in FeaturePlan(base, name)
  {
    var folder := FeatureFolder(base, name);
    var key := FEATURE_STRUCTURE[i].0;
    var a := WriteFile(Join(folder, FileName(key, name)), LeafContent(key, name));
    assert EntryPlan(FEATURE_STRUCTURE[i], folder, name) == [a];
    InPlan(FEATURE_STRUCTURE, i, folder, name, a);
  }

  /** An action of the walk over the presentation sub-folder `j`, which holds
      the entries `entries`, is an action of the whole feature. */
  lemma InPresentation(base: string, name: string, j: int, entries: seq<(string, Node)>, a: Action)
    requires 0 <= j < |PRESENTATION_FOLDER| && PRESENTATION_FOLDER[j].1 == Dir(entries)
    requires a in Plan(entries, Join(Join(FeatureFolder(base, name), "presentation"), PRESENTATION_FOLDER[j].0), name)
    ensures a in FeaturePlan(base, name)
  {
    var top := Join(FeatureFolder(base, name), "presentation");
    InDir(PRESENTATION_FOLDER, j, entries, top, name, a);
    PresentationEntry();
    InFeature(base, name, 3, PRESENTATION_FOLDER, a);
  }

  /** Whatever the walk over the sub-folder of entry `j` does, the walk over
      the dict does. */
  lemma InDir(structure: seq<(string, Node)>, j: int, entries: seq<(string, Node)>, path: string, name: string, a: Action)
    requires 0 <= j < |structure| && structure[j].1 == Dir(entries)
    requires a in Plan(entries, Join(path, structure[j].0), name)
    ensures a in Plan(structure, path, name)
  {
    assert a in EntryPlan(structure[j], path, name);
    InPlan(structure, j, path, name, a);
  }

  lemma PresentationEntry()
    ensures FEATURE_STRUCTURE[3] == ("presentation", Dir(PRESENTATION_FOLDER))
  {
  }

  /** The `None`-valued key `k` of the presentation sub-folder `j`. */
  lemma InPresentationLeaf(base: string, name: string, j: int, entries: seq<(string, Node)>, k: int)
    requires 0 <= j < |PRESENTATION_FOLDER| && PRESENTATION_FOLDER[j].1 == Dir(entries)
    requires 0 <= k < |entries| && entries[k].1 == Leaf
    ensures var folder := Join(Join(FeatureFolder(base, name), "presentation"), PRESENTATION_FOLDER[j].0);
      var key := entries[k].0;
      WriteFile(Join(folder, FileName(key, name)), LeafContent(key, name)) in FeaturePlan(base, name)
  {
    var folder := Join(Join(FeatureFolder(base, name), "presentation"), PRESENTATION_FOLDER[j].0);
    var key := entries[k].0;
    var a := WriteFile(Join(folder, FileName(key, name)), LeafContent(key, name));
    assert EntryPlan(entries[k], folder, name) == [a];
    InPlan(entries, k, folder, name, a);
    InPresentation(base, name, j, entries, a);
  }

  /** Replacing `{feature}` in a key or line that holds it once. */
  lemma FillToken(key: string, prefix: string, suffix: string, name: string)
    requires key == prefix + LOWER_TOKEN + suffix && '{' !in prefix && '{' !in suffix
    ensures Replace(key, LOWER_TOKEN, name) == prefix + name + suffix
  {
    var rest := LOWER_TOKEN + suffix;
    assert key == prefix + rest;
    assert CannotStartIn(prefix, rest, LOWER_TOKEN);
    ReplaceSkips(prefix, rest, LOWER_TOKEN, name);
    ReplaceFront(suffix, LOWER_TOKEN, name);
    ReplaceAbsent(suffix, LOWER_TOKEN, name);
  }

  /** A key or line without a brace is left as it is. */
  lemma FillNothing(s: string, name: string)
    requires '{' !in s
    ensures Replace(s, LOWER_TOKEN, name) == s
  {
    ReplaceAbsent(s, LOWER_TOKEN, name);
  }

  /** A substring test on a folder beneath another, when the part below
      cannot hold the word: the answer comes from the upper folder alone. */
  lemma ContainsBeneath(folder: string, rest: string, word: string)
    requires '/' !in word && !Contains(rest, word)
    ensures Contains(folder + "/" + rest, word) <==> Contains(folder, word)
  {
    if Contains(folder + "/" + rest, word) {
      ContainsAcross(folder, '/', rest, word);
    }
    if Contains(folder, word) {
      ContainsWithin([], folder, "/" + rest, word);
      assert [] + folder + ("/" + rest) == folder + "/" + rest;
    }
  }
}
