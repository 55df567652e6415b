/** Where the writes of the walk land. Two entries of one dict write beneath
    different paths: a folder's files lie beneath `<path>/<key>/`, a file is
    `<path>/<file name>`, and names hold no `/`. So no two writes of a
    generated feature go to the same path, and every file ends up holding
    what its own write puts there. */
module Layout {
  import opened Text
  import opened Structure
  import opened FeatureFiles

  /** No two writes of the sequence go to the same path. */
  predicate WritesDistinct(plan: seq<Action>) {
    forall i, j :: 0 <= i < j < |plan| && plan[i].WriteFile? && plan[j].WriteFile? ==> plan[i].path != plan[j].path
  }

  /** The entry's own name holds no `/`: a folder's key, or a file's name
      once `{feature}` is replaced. */
  predicate Flat(entry: (string, Node), name: string) {
    if entry.1.Leaf? then '/' !in FileName(entry.0, name) else '/' !in entry.0
  }

  /** Two entries of one dict whose writes cannot meet: both names are flat,
      two folders have different keys and two files different names. */
  predicate Separate(e1: (string, Node), e2: (string, Node), name: string) {
    Flat(e1, name) && Flat(e2, name) &&
    (e1.1.Leaf? && e2.1.Leaf? ==> FileName(e1.0, name) != FileName(e2.0, name)) &&
    (!e1.1.Leaf? && !e2.1.Leaf? ==> e1.0 != e2.0)
  }

  /** The files of a list-valued folder get different names. */
  predicate GroupOk(files: seq<string>, name: string) {
    forall i, j :: 0 <= i < j < |files| ==> FileName(files[i], name) != FileName(files[j], name)
  }

  /** Every two entries of every dict of the structure are separate. */
  predicate TreeOk(structure: seq<(string, Node)>, name: string)
    decreases structure
  {
    (forall i, j :: 0 <= i < j < |structure| ==> Separate(structure[i], structure[j], name)) &&
    (forall i :: 0 <= i < |structure| ==> EntryOk(structure[i], name))
  }

  predicate EntryOk(entry: (string, Node), name: string)
    decreases entry
  {
    match entry.1
    case Dir(entries) => TreeOk(entries, name)
    case Group(files) => GroupOk(files, name)
    case Leaf => true
  }

  /** Where the writes of one entry of a dict at `path` land. */
  predicate InRegion(entry: (string, Node), path: string, name: string, p: string) {
    if entry.1.Leaf? then p == Join(path, FileName(entry.0, name))
    else StartsWith(p, Join(path, entry.0) + "/")
  }

  lemma EntryRegion(entry: (string, Node), path: string, name: string)
    ensures forall a :: a in EntryPlan(entry, path, name) && a.WriteFile? ==> InRegion(entry, path, name, a.path)
  {
    var folder := Join(path, entry.0);
    match entry.1
    case Dir(entries) =>
      PlanBeneath(entries, folder, name);
    case Group(files) =>
      forall a | a in GroupPlan(files, folder, name)
        ensures StartsWith(a.path, folder + "/")
      {
        var k :| 0 <= k < |files| && GroupPlan(files, folder, name)[k] == a;
        assert a.path == (folder + "/") + FileName(files[k], name);
        StartsWithConcat(folder + "/", FileName(files[k], name));
      }
    case Leaf =>
  }

  /** Beneath `<path>/<key>/`, the key sits right after `<path>/` and a `/` right after the key. */
  lemma FolderPrefix(path: string, key: string, p: string)
    ensures StartsWith(p, Join(path, key) + "/") ==>
      |path| + 1 + |key| < |p| && p[|path| + 1..|path| + 1 + |key|] == key && p[|path| + 1 + |key|] == '/'
  {
    var f := Join(path, key) + "/";
    var n := |path| + 1;
    assert f[n..n + |key|] == key && f[n + |key|] == '/';
    assert StartsWith(p, f) ==> p[..|f|] == f;
    assert StartsWith(p, f) ==> p[n..n + |key|] == p[..|f|][n..n + |key|] && p[n + |key|] == p[..|f|][n + |key|];
  }

  /** A flat file directly in `path` is not beneath a sub-folder of `path`. */
  lemma FileNotBeneath(path: string, file: string, key: string, p: string)
    requires '/' !in file
    ensures p == Join(path, file) ==> !StartsWith(p, Join(path, key) + "/")
  {
    var i := |path| + 1 + |key|;
    FolderPrefix(path, key, p);
    assert p == Join(path, file) && |key| < |file| ==> p[i] == file[|key|];
  }

  /** A flat key copied into `p` at `n` puts no `/` there. */
  lemma NoSlashIn(key: string, p: string, n: int)
    requires '/' !in key && 0 <= n && n + |key| <= |p| && p[n..n + |key|] == key
    ensures forall j :: n <= j < n + |key| ==> p[j] != '/'
  {
    forall j | n <= j < n + |key|
      ensures p[j] != '/'
    {
      assert p[j] == key[j - n];
    }
  }

  /** A path beneath two flat sub-folders of `path` is beneath one folder. */
  lemma SameFolder(path: string, k1: string, k2: string, p: string)
    requires '/' !in k1 && '/' !in k2
    ensures StartsWith(p, Join(path, k1) + "/") && StartsWith(p, Join(path, k2) + "/") ==> k1 == k2
  {
    var n := |path| + 1;
    FolderPrefix(path, k1, p);
    FolderPrefix(path, k2, p);
    if StartsWith(p, Join(path, k1) + "/") && StartsWith(p, Join(path, k2) + "/") {
      NoSlashIn(k1, p, n);
      NoSlashIn(k2, p, n);
    }
  }

  /** Writes of two separate entries land in disjoint regions. */
  lemma RegionsDisjoint(e1: (string, Node), e2: (string, Node), path: string, name: string, p: string)
    requires Separate(e1, e2, name) && InRegion(e1, path, name, p)
    ensures !InRegion(e2, path, name, p)
  {
    if e1.1.Leaf? && e2.1.Leaf? {
      var f1, f2 := FileName(e1.0, name), FileName(e2.0, name);
      assert f1 == Join(path, f1)[|path| + 1..];
      assert f2 == Join(path, f2)[|path| + 1..];
    } else if e1.1.Leaf? {
      FileNotBeneath(path, FileName(e1.0, name), e2.0, p);
    } else if e2.1.Leaf? {
      FileNotBeneath(path, FileName(e2.0, name), e1.0, p);
    } else {
      SameFolder(path, e1.0, e2.0, p);
    }
  }

  /** No write of the entries `rest` lands in the region of an entry that is
      separate from each of them. */
  lemma {:induction false} OutsideRegion(entry: (string, Node), rest: seq<(string, Node)>, path: string, name: string)
    requires forall j :: 0 <= j < |rest| ==> Separate(entry, rest[j], name)
    ensures forall a :: a in Plan(rest, path, name) && a.WriteFile? ==> !InRegion(entry, path, name, a.path)
    decreases rest
  {
    if rest != [] {
      EntryRegion(rest[0], path, name);
      forall a | a in EntryPlan(rest[0], path, name) && a.WriteFile?
        ensures !InRegion(entry, path, name, a.path)
      {
        if InRegion(entry, path, name, a.path) {
          RegionsDisjoint(entry, rest[0], path, name, a.path);
        }
      }
      assert forall j :: 0 <= j < |rest[1..]| ==> rest[1..][j] == rest[j + 1];
      OutsideRegion(entry, rest[1..], path, name);
    }
  }

  lemma DistinctAppend(a: seq<Action>, b: seq<Action>)
    requires WritesDistinct(a) && WritesDistinct(b)
    requires forall x, y :: x in a && y in b && x.WriteFile? && y.WriteFile? ==> x.path != y.path
    ensures WritesDistinct(a + b)
  {
    var c := a + b;
    forall i, j | 0 <= i < j < |c| && c[i].WriteFile? && c[j].WriteFile?
      ensures c[i].path != c[j].path
    {
      if j < |a| {
        assert c[i] == a[i] && c[j] == a[j];
      } else if |a| <= i {
        assert c[i] == b[i - |a|] && c[j] == b[j - |a|];
      } else {
        assert c[i] == a[i] && a[i] in a;
        assert c[j] == b[j - |a|] && b[j - |a|] in b;
      }
    }
  }

  lemma JoinInjective(folder: string, f1: string, f2: string)
    ensures Join(folder, f1) == Join(folder, f2) ==> f1 == f2
  {
    assert f1 == Join(folder, f1)[|folder| + 1..];
    assert f2 == Join(folder, f2)[|folder| + 1..];
  }

  /** Files of a list-valued folder with different names are written at
      different paths. */
  lemma GroupDistinct(files: seq<string>, folder: string, name: string)
    requires GroupOk(files, name)
    ensures WritesDistinct(GroupPlan(files, folder, name))
  {
    var plan := GroupPlan(files, folder, name);
    forall i, j | 0 <= i < j < |plan| && plan[i].WriteFile? && plan[j].WriteFile?
      ensures plan[i].path != plan[j].path
    {
      JoinInjective(folder, FileName(files[i], name), FileName(files[j], name));
    }
  }

  /** In a structure whose entries are separate, `create_recursive` writes
      each path at most once. */
  lemma {:induction false} PlanDistinct(structure: seq<(string, Node)>, path: string, name: string)
    requires TreeOk(structure, name)
    ensures WritesDistinct(Plan(structure, path, name))
    decreases structure
  {
    if structure != [] {
      var head, rest := structure[0], structure[1..];
      assert EntryOk(head, name);
      EntryDistinct(head, path, name);
      assert forall j :: 0 <= j < |rest| ==> rest[j] == structure[j + 1];
      assert TreeOk(rest, name);
      PlanDistinct(rest, path, name);
      EntryRegion(head, path, name);
      OutsideRegion(head, rest, path, name);
      DistinctAppend(EntryPlan(head, path, name), Plan(rest, path, name));
    }
  }

  lemma {:induction false} EntryDistinct(entry: (string, Node), path: string, name: string)
    requires EntryOk(entry, name)
    ensures WritesDistinct(EntryPlan(entry, path, name))
    decreases entry
  {
    var folder := Join(path, entry.0);
    match entry.1
    case Dir(entries) =>
      PlanDistinct(entries, folder, name);
      DistinctAppend([MakeDir(folder)], Plan(entries, folder, name));
    case Group(files) =>
      GroupDistinct(files, folder, name);
      DistinctAppend([MakeDir(folder)], GroupPlan(files, folder, name));
    case Leaf =>
  }

  // FEATURE_STRUCTURE is separate at every level, for any name without `/`.

  /** Two names differ if they differ `k` characters before their ends. */
  lemma EndsDiffer(s: string, t: string, k: nat)
    requires k < |s| && k < |t| && s[|s| - 1 - k] != t[|t| - 1 - k]
    ensures s != t
  {
  }

  lemma RepositoryGroupOk(files: seq<string>, name: string)
    requires files == ["_repository.dart", "{feature}.repository.dart"]
    ensures GroupOk(files, name)
  {
    FillNothing(files[0], name);
    RepositoryFileName(files[1], name);
    EndsDiffer(files[0], name + ".repository.dart", 15);
  }

  lemma DatasourceImplGroupOk(files: seq<string>, name: string)
    requires files == ["_datasource.dart", "{feature}.datasource.impl.dart"]
    ensures GroupOk(files, name)
  {
    FillNothing(files[0], name);
    DatasourceImplFileName(files[1], name);
    EndsDiffer(files[0], name + ".datasource.impl.dart", 5);
  }

  lemma DatasourceGroupOk(files: seq<string>, name: string)
    requires files == ["_datasource.dart", "{feature}.datasource.dart"]
    ensures GroupOk(files, name)
  {
    FillNothing(files[0], name);
    DatasourceFileName(files[1], name);
    EndsDiffer(files[0], name + ".datasource.dart", 15);
  }

  lemma RepositoryImplGroupOk(files: seq<string>, name: string)
    requires files == ["_repository.dart", "{feature}.repository.impl.dart"]
    ensures GroupOk(files, name)
  {
    FillNothing(files[0], name);
    RepositoryImplFileName(files[1], name);
    EndsDiffer(files[0], name + ".repository.impl.dart", 5);
  }

  /** Two folders with flat, different keys; a folder and a file with flat
      names; two files with flat, different names. */
  lemma DomainEntries(k0: string, k1: string, k2: string, name: string)
    requires k0 == "repository" && k1 == "usecase" && k2 == "_domain.dart"
    ensures Flat((k2, Leaf), name) && '/' !in k0 && '/' !in k1 && k0 != k1
  {
    DomainBarrelName(k2, name);
  }

  lemma DomainTreeOk(name: string)
    ensures TreeOk(DOMAIN_FOLDER, name)
  {
    var s := DOMAIN_FOLDER;
    RepositoryGroupOk(s[0].1.files, name);
    DomainEntries(s[0].0, s[1].0, s[2].0, name);
    TreeOfThree(s, name);
  }

  lemma ExternalEntries(k0: string, k1: string, name: string)
    requires k0 == "datasource" && k1 == "_external.dart"
    ensures Flat((k1, Leaf), name) && '/' !in k0
  {
    ExternalBarrelName(k1, name);
  }

  lemma ExternalTreeOk(name: string)
    ensures TreeOk(EXTERNAL_FOLDER, name)
  {
    var s := EXTERNAL_FOLDER;
    DatasourceImplGroupOk(s[0].1.files, name);
    ExternalEntries(s[0].0, s[1].0, name);
    assert Separate(s[0], s[1], name);
  }

  lemma InfraEntries(k0: string, k1: string, k2: string, name: string)
    requires k0 == "datasource" && k1 == "repository" && k2 == "_infra.dart"
    ensures Flat((k2, Leaf), name) && '/' !in k0 && '/' !in k1 && k0 != k1
  {
    InfraBarrelName(k2, name);
  }

  lemma InfraTreeOk(name: string)
    ensures TreeOk(INFRA_FOLDER, name)
  {
    var s := INFRA_FOLDER;
    DatasourceGroupOk(s[0].1.files, name);
    RepositoryImplGroupOk(s[1].1.files, name);
    InfraEntries(s[0].0, s[1].0, s[2].0, name);
    TreeOfThree(s, name);
  }

  lemma ControllerEntries(k0: string, k1: string, k2: string, name: string)
    requires k0 == "_controller.dart" && k1 == "{feature}.cubit.dart" && k2 == "{feature}.state.dart"
    requires '/' !in name
    ensures Separate((k0, Leaf), (k1, Leaf), name) && Separate((k0, Leaf), (k2, Leaf), name)
    ensures Separate((k1, Leaf), (k2, Leaf), name)
  {
    ControllerBarrelName(k0, name);
    CubitFileName(k1, name);
    StateFileName(k2, name);
    EndsDiffer("_controller.dart", name + ".cubit.dart", 5);
    EndsDiffer("_controller.dart", name + ".state.dart", 5);
    EndsDiffer(name + ".cubit.dart", name + ".state.dart", 5);
  }

  lemma ControllerTreeOk(name: string)
    requires '/' !in name
    ensures TreeOk(CONTROLLER_FOLDER, name)
  {
    var s := CONTROLLER_FOLDER;
    ControllerEntries(s[0].0, s[1].0, s[2].0, name);
    TreeOfThree(s, name);
  }

  lemma PageEntries(k0: string, k1: string, name: string)
    requires k0 == "_page.dart" && k1 == "{feature}.page.dart" && '/' !in name
    ensures Separate((k0, Leaf), (k1, Leaf), name)
  {
    PageBarrelName(k0, name);
    PageFileName(k1, name);
    EndsDiffer("_page.dart", name + ".page.dart", 9);
  }

  lemma PageTreeOk(name: string)
    requires '/' !in name
    ensures TreeOk(PAGE_FOLDER, name)
  {
    var s := PAGE_FOLDER;
    PageEntries(s[0].0, s[1].0, name);
    assert Separate(s[0], s[1], name);
  }

  lemma WidgetTreeOk(name: string)
    ensures TreeOk(WIDGET_FOLDER, name)
  {
    assert EntryOk(WIDGET_FOLDER[0], name);
  }

  lemma PresentationEntries(k0: string, k1: string, k2: string, k3: string, name: string)
    requires k0 == "controller" && k1 == "page" && k2 == "widget" && k3 == "_presentation.dart"
    ensures Flat((k3, Leaf), name) && '/' !in k0 && '/' !in k1 && '/' !in k2
    ensures k0 != k1 && k0 != k2 && k1 != k2
  {
    PresentationBarrelName(k3, name);
  }

  lemma PresentationTreeOk(name: string)
    requires '/' !in name
    ensures TreeOk(PRESENTATION_FOLDER, name)
  {
    var s := PRESENTATION_FOLDER;
    ControllerTreeOk(name);
    PageTreeOk(name);
    WidgetTreeOk(name);
    PresentationEntries(s[0].0, s[1].0, s[2].0, s[3].0, name);
    TreeOfFour(s, name);
  }

  /** A dict of three entries is separate when each of its three pairs is. */
  lemma TreeOfThree(s: seq<(string, Node)>, name: string)
    requires |s| == 3
    requires EntryOk(s[0], name) && EntryOk(s[1], name) && EntryOk(s[2], name)
    requires Separate(s[0], s[1], name) && Separate(s[0], s[2], name) && Separate(s[1], s[2], name)
    ensures TreeOk(s, name)
  {
  }

  /** A dict of four entries is separate when each of its six pairs is. */
  lemma TreeOfFour(s: seq<(string, Node)>, name: string)
    requires |s| == 4
    requires forall i :: 0 <= i < 4 ==> EntryOk(s[i], name)
    requires Separate(s[0], s[1], name) && Separate(s[0], s[2], name) && Separate(s[0], s[3], name)
    requires Separate(s[1], s[2], name) && Separate(s[1], s[3], name) && Separate(s[2], s[3], name)
    ensures TreeOk(s, name)
  {
  }

  /** A dict is separate when both of its parts are and every entry of the
      first part is separate from every entry of the second. */
  lemma TreeSplit(s: seq<(string, Node)>, k: nat, name: string)
    requires k <= |s| && TreeOk(s[..k], name) && TreeOk(s[k..], name)
    requires forall i, j :: 0 <= i < k <= j < |s| ==> Separate(s[i], s[j], name)
    ensures TreeOk(s, name)
  {
    forall i, j | 0 <= i < j < |s| ensures Separate(s[i], s[j], name) {
      if j < k {
        assert s[..k][i] == s[i] && s[..k][j] == s[j];
      } else if k <= i {
        assert s[k..][i - k] == s[i] && s[k..][j - k] == s[j];
      }
    }
    forall i | 0 <= i < |s| ensures EntryOk(s[i], name) {
      if i < k {
        assert s[..k][i] == s[i];
      } else {
        assert s[k..][i - k] == s[i];
      }
    }
  }

  /** Flat folders are separate from flat files. */
  lemma FoldersApart(s: seq<(string, Node)>, k: nat, name: string)
    requires k <= |s|
    requires forall i :: 0 <= i < k ==> !s[i].1.Leaf? && '/' !in s[i].0
    requires forall j :: k <= j < |s| ==> s[j].1.Leaf? && Flat(s[j], name)
    ensures forall i, j :: 0 <= i < k <= j < |s| ==> Separate(s[i], s[j], name)
  {
  }

  lemma TopFolders(k0: string, k1: string, k2: string, k3: string)
    requires k0 == "domain" && k1 == "external" && k2 == "infra" && k3 == "presentation"
    ensures '/' !in k0 && '/' !in k1 && '/' !in k2 && '/' !in k3
    ensures k0 != k1 && k0 != k2 && k0 != k3 && k1 != k2 && k1 != k3 && k2 != k3
  {
  }

  lemma TopFiles(k0: string, k1: string, k2: string, name: string)
    requires k0 == "_{feature}.dart" && k1 == "{feature}.router.dart" && k2 == "{feature}.setup.locator.dart"
    requires '/' !in name
    ensures Separate((k0, Leaf), (k1, Leaf), name) && Separate((k0, Leaf), (k2, Leaf), name)
    ensures Separate((k1, Leaf), (k2, Leaf), name)
  {
    FeatureBarrelName(k0, name);
    RouterFileName(k1, name);
    SetupLocatorFileName(k2, name);
  }

  lemma FeatureFilesOk(s: seq<(string, Node)>, name: string)
    requires s == FEATURE_STRUCTURE[4..] && '/' !in name
    ensures TreeOk(s, name)
    ensures forall j :: 0 <= j < |s| ==> s[j].1.Leaf? && Flat(s[j], name)
  {
    TopFiles(s[0].0, s[1].0, s[2].0, name);
    TreeOfThree(s, name);
  }

  lemma FeatureFoldersOk(s: seq<(string, Node)>, name: string)
    requires s == FEATURE_STRUCTURE[..4] && '/' !in name
    ensures TreeOk(s, name)
    ensures forall i :: 0 <= i < |s| ==> !s[i].1.Leaf? && '/' !in s[i].0
  {
    DomainTreeOk(name);
    ExternalTreeOk(name);
    InfraTreeOk(name);
    PresentationTreeOk(name);
    TopFolders(s[0].0, s[1].0, s[2].0, s[3].0);
    TreeOfFour(s, name);
  }

  lemma FeatureTreeOk(name: string)
    requires '/' !in name
    ensures TreeOk(FEATURE_STRUCTURE, name)
  {
    var s := FEATURE_STRUCTURE;
    FeatureFoldersOk(s[..4], name);
    FeatureFilesOk(s[4..], name);
    FoldersApart(s, 4, name);
    TreeSplit(s, 4, name);
  }

  /** A generated feature writes each of its files once: for a feature name
      without `/`, no two writes of the walk go to the same path. */
  lemma FeatureDistinct(base: string, name: string)
    requires '/' !in name
    ensures WritesDistinct(FeaturePlan(base, name))
  {
    var folder := FeatureFolder(base, name);
    FeatureTreeOk(name);
    PlanDistinct(FEATURE_STRUCTURE, folder, name);
    DistinctAppend([MakeDir(folder)], Plan(FEATURE_STRUCTURE, folder, name));
  }
}
