/** What a generated feature holds, file by file: for each file of
    FEATURE_STRUCTURE, the path `create_feature_structure(base, name)` writes
    it at and the content it writes there. Paths are stated below the
    feature folder `base + "/" + name`. */
module FeatureFiles {
  import opened Text
  import opened Templates
  import opened Structure

  /** File `k` of the list-valued key `j` of top-level folder `i`. */
  lemma GroupFileAt(base: string, name: string, i: int, entries: seq<(string, Node)>, j: int, k: int,
                    top: string, key: string, file: string)
    requires 0 <= i < |FEATURE_STRUCTURE| && FEATURE_STRUCTURE[i] == (top, Dir(entries))
    requires 0 <= j < |entries| && entries[j].0 == key && entries[j].1.Group?
    requires 0 <= k < |entries[j].1.files| && entries[j].1.files[k] == file
    ensures var folder := FeatureFolder(base, name) + "/" + top + "/" + key;
      WriteFile(folder + "/" + FileName(file, name), GroupFileContent(file, folder, name)) in FeaturePlan(base, name)
  {
    InFeatureGroup(base, name, i, entries, j, k);
  }

  // The barrel files of list-valued folders: one export line, chosen by a
  // substring test on the whole folder path.

  /** `domain/repository/_repository.dart` exports the repository interface,
      unless "infra" occurs anywhere in the feature folder's path (in the
      base path or in the feature name): then it exports the implementation. */
  lemma DomainRepositoryExport(base: string, name: string)
    ensures var feature := FeatureFolder(base, name);
      WriteFile(feature + "/" + "domain" + "/" + "repository" + "/" + "_repository.dart",
        if Contains(feature, "infra") then "export '" + name + ".repository.impl.dart';\n"
        else "export '" + name + ".repository.dart';\n") in FeaturePlan(base, name)
  {
    GroupFileAt(base, name, 0, DOMAIN_FOLDER, 0, 0, "domain", "repository", "_repository.dart");
    FillNothing("_repository.dart", name);
    DomainRepositoryContent(FeatureFolder(base, name), name);
  }

  lemma DomainRepositoryContent(feature: string, name: string)
    ensures GroupFileContent("_repository.dart", feature + "/" + "domain" + "/" + "repository", name) ==
      if Contains(feature, "infra") then "export '" + name + ".repository.impl.dart';\n"
      else "export '" + name + ".repository.dart';\n"
  {
    RepositoryBarrel("_repository.dart", feature + "/" + "domain" + "/" + "repository", name);
    DomainRepositoryTests(feature);
    ExportOne("export '" + name + ".repository.impl.dart';");
    ExportOne("export '" + name + ".repository.dart';");
  }

  /** `infra/repository/_repository.dart` always exports the implementation. */
  lemma InfraRepositoryExport(base: string, name: string)
    ensures var feature := FeatureFolder(base, name);
      WriteFile(feature + "/" + "infra" + "/" + "repository" + "/" + "_repository.dart",
        "export '" + name + ".repository.impl.dart';\n") in FeaturePlan(base, name)
  {
    GroupFileAt(base, name, 2, INFRA_FOLDER, 1, 0, "infra", "repository", "_repository.dart");
    FillNothing("_repository.dart", name);
    InfraRepositoryContent(FeatureFolder(base, name), name);
  }

  lemma InfraRepositoryContent(feature: string, name: string)
    ensures GroupFileContent("_repository.dart", feature + "/" + "infra" + "/" + "repository", name) ==
      "export '" + name + ".repository.impl.dart';\n"
  {
    RepositoryBarrel("_repository.dart", feature + "/" + "infra" + "/" + "repository", name);
    SubfolderContains(feature, "infra", "repository");
    ExportOne("export '" + name + ".repository.impl.dart';");
  }

  /** `external/datasource/_datasource.dart` always exports the
      implementation. */
  lemma ExternalDatasourceExport(base: string, name: string)
    ensures var feature := FeatureFolder(base, name);
      WriteFile(feature + "/" + "external" + "/" + "datasource" + "/" + "_datasource.dart",
        "export '" + name + ".datasource.impl.dart';\n") in FeaturePlan(base, name)
  {
    GroupFileAt(base, name, 1, EXTERNAL_FOLDER, 0, 0, "external", "datasource", "_datasource.dart");
    FillNothing("_datasource.dart", name);
    ExternalDatasourceContent(FeatureFolder(base, name), name);
  }

  lemma ExternalDatasourceContent(feature: string, name: string)
    ensures GroupFileContent("_datasource.dart", feature + "/" + "external" + "/" + "datasource", name) ==
      "export '" + name + ".datasource.impl.dart';\n"
  {
    DatasourceBarrel("_datasource.dart", feature + "/" + "external" + "/" + "datasource", name);
    SubfolderContains(feature, "external", "datasource");
    ExportOne("export '" + name + ".datasource.impl.dart';");
  }

  /** `infra/datasource/_datasource.dart` exports the datasource interface,
      unless "external" occurs anywhere in the feature folder's path: then it
      exports the implementation. */
  lemma InfraDatasourceExport(base: string, name: string)
    ensures var feature := FeatureFolder(base, name);
      WriteFile(feature + "/" + "infra" + "/" + "datasource" + "/" + "_datasource.dart",
        if Contains(feature, "external") then "export '" + name + ".datasource.impl.dart';\n"
        else "export '" + name + ".datasource.dart';\n") in FeaturePlan(base, name)
  {
    GroupFileAt(base, name, 2, INFRA_FOLDER, 0, 0, "infra", "datasource", "_datasource.dart");
    FillNothing("_datasource.dart", name);
    InfraDatasourceContent(FeatureFolder(base, name), name);
  }

  lemma InfraDatasourceContent(feature: string, name: string)
    ensures GroupFileContent("_datasource.dart", feature + "/" + "infra" + "/" + "datasource", name) ==
      if Contains(feature, "external") then "export '" + name + ".datasource.impl.dart';\n"
      else "export '" + name + ".datasource.dart';\n"
  {
    DatasourceBarrel("_datasource.dart", feature + "/" + "infra" + "/" + "datasource", name);
    InfraDatasourceTests(feature);
    ExportOne("export '" + name + ".datasource.impl.dart';");
    ExportOne("export '" + name + ".datasource.dart';");
  }

  /** The repository barrel's branches: "infra" anywhere in the folder path
      is checked before "domain". */
  lemma RepositoryBarrel(file: string, folder: string, name: string)
    requires file == "_repository.dart"
    ensures GroupFileContent(file, folder, name) ==
      if Contains(folder, "infra") then ExportText(["export '" + name + ".repository.impl.dart';"])
      else if Contains(folder, "domain") then ExportText(["export '" + name + ".repository.dart';"])
      else []
  {
  }

  /** The datasource barrel's branches: "external" anywhere in the folder
      path is checked before "infra". */
  lemma DatasourceBarrel(file: string, folder: string, name: string)
    requires file == "_datasource.dart"
    ensures GroupFileContent(file, folder, name) ==
      if Contains(folder, "external") then ExportText(["export '" + name + ".datasource.impl.dart';"])
      else if Contains(folder, "infra") then ExportText(["export '" + name + ".datasource.dart';"])
      else []
  {
  }

  /** Below `domain/repository`, "infra" occurs only if it occurs in the
      feature folder's own path. */
  lemma DomainRepositoryTests(feature: string)
    ensures Contains(feature + "/" + "domain" + "/" + "repository", "infra") <==> Contains(feature, "infra")
    ensures Contains(feature + "/" + "domain" + "/" + "repository", "domain")
  {
    assert feature + "/" + "domain" + "/" + "repository" == feature + "/" + "domain/repository";
    MissingChar("domain/repository", "infra", 2);
    ContainsBeneath(feature, "domain/repository", "infra");
    SubfolderContains(feature, "domain", "repository");
  }

  /** Below `infra/datasource`, "external" occurs only if it occurs in the
      feature folder's own path. */
  lemma InfraDatasourceTests(feature: string)
    ensures Contains(feature + "/" + "infra" + "/" + "datasource", "external") <==> Contains(feature, "external")
    ensures Contains(feature + "/" + "infra" + "/" + "datasource", "infra")
  {
    assert feature + "/" + "infra" + "/" + "datasource" == feature + "/" + "infra/datasource";
    MissingChar("infra/datasource", "external", 1);
    ContainsBeneath(feature, "infra/datasource", "external");
    SubfolderContains(feature, "infra", "datasource");
  }

  /** The name of a top-level folder occurs in the path of its sub-folders. */
  lemma SubfolderContains(feature: string, top: string, key: string)
    ensures Contains(feature + "/" + top + "/" + key, top)
  {
    assert OccursAt(top, top, 0);
    ContainsWithin(feature + "/", top, "/" + key, top);
    assert feature + "/" + top + ("/" + key) == feature + "/" + top + "/" + key;
  }

  /** A feature named "infrastructure" gets a domain barrel that exports the
      repository implementation, a file that lives in `infra/`. */
  lemma InfrastructureFlipsDomainExport()
    ensures WriteFile("lib/feature" + "/" + "infrastructure" + "/" + "domain" + "/" + "repository" + "/" + "_repository.dart",
      "export '" + "infrastructure" + ".repository.impl.dart';\n") in FeaturePlan("lib/feature", "infrastructure")
  {
    var feature := FeatureFolder("lib/feature", "infrastructure");
    assert OccursAt(feature, "infra", 12);
    DomainRepositoryExport("lib/feature", "infrastructure");
  }

  /** A feature named "user" under "lib/feature" gets the interface export. */
  lemma PlainNameKeepsDomainExport()
    ensures WriteFile("lib/feature" + "/" + "user" + "/" + "domain" + "/" + "repository" + "/" + "_repository.dart",
      "export '" + "user" + ".repository.dart';\n") in FeaturePlan("lib/feature", "user")
  {
    var feature := FeatureFolder("lib/feature", "user");
    MissingChar(feature, "infra", 1);
    DomainRepositoryExport("lib/feature", "user");
  }

  // The class files of list-valued folders: a filled template.
  //
  // Here and below, the small lemmas that take a literal key as a parameter
  // (`requires key == "..."`) — the `*At`, `*FileName`, `*BarrelName`,
  // `*BarrelLines` and `*Line<k>` lemmas — each settle one fact about one
  // literal: where it sits in the table, what `replace` makes of it. They
  // add nothing beyond their callers' contracts; they exist because the
  // solver unfolds `Replace` and the table over literal strings, and doing
  // that for several literals in one proof exceeds its resource limit.

  /** `domain/repository/<name>.repository.dart` declares the abstract
      repository class `<Name>Repository`. */
  lemma DomainRepositoryClass(base: string, name: string)
    ensures var feature := FeatureFolder(base, name);
      WriteFile(feature + "/" + "domain" + "/" + "repository" + "/" + (name + ".repository.dart"),
        "\nabstract class " + Capitalize(name) + "Repository {}\n") in FeaturePlan(base, name)
  {
    var folder := FeatureFolder(base, name) + "/" + "domain" + "/" + "repository";
    DomainRepositoryAt(base, name, "{feature}.repository.dart");
    RepositoryFileName("{feature}.repository.dart", name);
    RepositoryClassContent(folder, name);
  }

  lemma DomainRepositoryAt(base: string, name: string, file: string)
    requires file == "{feature}.repository.dart"
    ensures var folder := FeatureFolder(base, name) + "/" + "domain" + "/" + "repository";
      WriteFile(folder + "/" + FileName(file, name), GroupFileContent(file, folder, name)) in FeaturePlan(base, name)
  {
    GroupFileAt(base, name, 0, DOMAIN_FOLDER, 0, 1, "domain", "repository", file);
  }

  lemma RepositoryClassContent(folder: string, name: string)
    ensures GroupFileContent("{feature}.repository.dart", folder, name) ==
      "\nabstract class " + Capitalize(name) + "Repository {}\n"
  {
    FilledRepositoryTemplate(name);
  }

  /** A key made of the `{feature}` token and a text without `{` is
      filled as the name followed by that text. */
  lemma TokenThenText(key: string, suffix: string, name: string)
    requires key == LOWER_TOKEN + suffix && '{' !in suffix
    ensures FileName(key, name) == name + suffix
  {
    assert key == [] + LOWER_TOKEN + suffix;
    FillToken(key, [], suffix, name);
  }

  lemma RepositoryFileName(key: string, name: string)
    requires key == "{feature}.repository.dart"
    ensures FileName(key, name) == name + ".repository.dart"
  {
    TokenThenText(key, ".repository.dart", name);
  }

  /** `external/datasource/<name>.datasource.impl.dart` declares
      `<Name>DatasourceImpl` and imports the feature's barrel file. */
  lemma ExternalDatasourceClass(base: string, name: string)
    requires IsLower(name)
    ensures var feature := FeatureFolder(base, name);
      WriteFile(feature + "/" + "external" + "/" + "datasource" + "/" + (name + ".datasource.impl.dart"),
        "\nimport '../../_" + name + ".dart';\n\nclass " + Capitalize(name) +
        "DatasourceImpl implements " + Capitalize(name) + "Datasource {}\n") in FeaturePlan(base, name)
  {
    var folder := FeatureFolder(base, name) + "/" + "external" + "/" + "datasource";
    ExternalDatasourceAt(base, name, "{feature}.datasource.impl.dart");
    DatasourceImplFileName("{feature}.datasource.impl.dart", name);
    DatasourceImplClassContent(folder, name);
  }

  lemma ExternalDatasourceAt(base: string, name: string, file: string)
    requires file == "{feature}.datasource.impl.dart"
    ensures var folder := FeatureFolder(base, name) + "/" + "external" + "/" + "datasource";
      WriteFile(folder + "/" + FileName(file, name), GroupFileContent(file, folder, name)) in FeaturePlan(base, name)
  {
    GroupFileAt(base, name, 1, EXTERNAL_FOLDER, 0, 1, "external", "datasource", file);
  }

  lemma DatasourceImplClassContent(folder: string, name: string)
    requires IsLower(name)
    ensures GroupFileContent("{feature}.datasource.impl.dart", folder, name) ==
      "\nimport '../../_" + name + ".dart';\n\nclass " + Capitalize(name) +
      "DatasourceImpl implements " + Capitalize(name) + "Datasource {}\n"
  {
    FilledDatasourceImplTemplate(name);
  }

  lemma DatasourceImplFileName(key: string, name: string)
    requires key == "{feature}.datasource.impl.dart"
    ensures FileName(key, name) == name + ".datasource.impl.dart"
  {
    TokenThenText(key, ".datasource.impl.dart", name);
  }

  /** `infra/datasource/<name>.datasource.dart` declares the abstract
      datasource class `<Name>Datasource`. */
  lemma InfraDatasourceClass(base: string, name: string)
    ensures var feature := FeatureFolder(base, name);
      WriteFile(feature + "/" + "infra" + "/" + "datasource" + "/" + (name + ".datasource.dart"),
        "\nabstract class " + Capitalize(name) + "Datasource {}\n") in FeaturePlan(base, name)
  {
    var folder := FeatureFolder(base, name) + "/" + "infra" + "/" + "datasource";
    InfraDatasourceAt(base, name, "{feature}.datasource.dart");
    DatasourceFileName("{feature}.datasource.dart", name);
    DatasourceClassContent(folder, name);
  }

  lemma InfraDatasourceAt(base: string, name: string, file: string)
    requires file == "{feature}.datasource.dart"
    ensures var folder := FeatureFolder(base, name) + "/" + "infra" + "/" + "datasource";
      WriteFile(folder + "/" + FileName(file, name), GroupFileContent(file, folder, name)) in FeaturePlan(base, name)
  {
    GroupFileAt(base, name, 2, INFRA_FOLDER, 0, 1, "infra", "datasource", file);
  }

  lemma DatasourceClassContent(folder: string, name: string)
    ensures GroupFileContent("{feature}.datasource.dart", folder, name) ==
      "\nabstract class " + Capitalize(name) + "Datasource {}\n"
  {
    FilledDatasourceTemplate(name);
  }

  lemma DatasourceFileName(key: string, name: string)
    requires key == "{feature}.datasource.dart"
    ensures FileName(key, name) == name + ".datasource.dart"
  {
    TokenThenText(key, ".datasource.dart", name);
  }

  /** `infra/repository/<name>.repository.impl.dart` declares
      `<Name>RepositoryImpl` and imports the feature's barrel file. */
  lemma InfraRepositoryClass(base: string, name: string)
    requires IsLower(name)
    ensures var feature := FeatureFolder(base, name);
      WriteFile(feature + "/" + "infra" + "/" + "repository" + "/" + (name + ".repository.impl.dart"),
        "\nimport '../../_" + name + ".dart';\n\nclass " + Capitalize(name) +
        "RepositoryImpl implements " + Capitalize(name) + "Repository {}\n") in FeaturePlan(base, name)
  {
    var folder := FeatureFolder(base, name) + "/" + "infra" + "/" + "repository";
    InfraRepositoryAt(base, name, "{feature}.repository.impl.dart");
    RepositoryImplFileName("{feature}.repository.impl.dart", name);
    RepositoryImplClassContent(folder, name);
  }

  lemma InfraRepositoryAt(base: string, name: string, file: string)
    requires file == "{feature}.repository.impl.dart"
    ensures var folder := FeatureFolder(base, name) + "/" + "infra" + "/" + "repository";
      WriteFile(folder + "/" + FileName(file, name), GroupFileContent(file, folder, name)) in FeaturePlan(base, name)
  {
    GroupFileAt(base, name, 2, INFRA_FOLDER, 1, 1, "infra", "repository", file);
  }

  lemma RepositoryImplClassContent(folder: string, name: string)
    requires IsLower(name)
    ensures GroupFileContent("{feature}.repository.impl.dart", folder, name) ==
      "\nimport '../../_" + name + ".dart';\n\nclass " + Capitalize(name) +
      "RepositoryImpl implements " + Capitalize(name) + "Repository {}\n"
  {
    FilledRepositoryImplTemplate(name);
  }

  lemma RepositoryImplFileName(key: string, name: string)
    requires key == "{feature}.repository.impl.dart"
    ensures FileName(key, name) == name + ".repository.impl.dart"
  {
    TokenThenText(key, ".repository.impl.dart", name);
  }

  /** Filling a list line by line. */
  lemma FillEach(lines: seq<string>, filled: seq<string>, name: string)
    requires |lines| == |filled|
    requires forall k :: 0 <= k < |lines| ==> Replace(lines[k], LOWER_TOKEN, name) == filled[k]
    ensures FillLines(lines, name) == filled
  {
  }

  /** A barrel file's content, once its table entry is known. */
  lemma BarrelContent(key: string, lines: seq<string>, name: string)
    requires key in EXPORT_TEMPLATES && EXPORT_TEMPLATES[key] == lines
    ensures LeafContent(key, name) == ExportText(FillLines(lines, name))
  {
  }

  /** A file that is neither a barrel nor a template is empty. */
  lemma PlainContent(key: string, name: string)
    requires key !in EXPORT_TEMPLATES && key != "{feature}.router.dart" && key != "{feature}.page.dart"
    ensures LeafContent(key, name) == []
  {
  }

  /** `domain/usecase/_usecase.dart` is written empty: the list branch never
      consults the export table, although the table has a line for it. */
  lemma UsecaseBarrelIsEmpty(base: string, name: string)
    ensures var feature := FeatureFolder(base, name);
      WriteFile(feature + "/" + "domain" + "/" + "usecase" + "/" + "_usecase.dart", []) in FeaturePlan(base, name)
  {
    var folder := FeatureFolder(base, name) + "/" + "domain" + "/" + "usecase";
    var file := "_usecase.dart";
    assert WriteFile(folder + "/" + FileName(file, name), GroupFileContent(file, folder, name))
      in FeaturePlan(base, name) by {
      GroupFileAt(base, name, 0, DOMAIN_FOLDER, 1, 0, "domain", "usecase", file);
    }
    UsecaseGroupContent(file, folder, name);
    FillNothing(file, name);
  }

  lemma UsecaseGroupContent(file: string, folder: string, name: string)
    requires file == "_usecase.dart"
    ensures GroupFileContent(file, folder, name) == []
  {
  }

  /** The export table's line for `_usecase.dart`, which no write uses. */
  lemma UsecaseTableLine(key: string, name: string)
    requires key == "_usecase.dart"
    ensures LeafContent(key, name) == ExportText(["export '" + name + ".usecase.dart';"])
  {
    UsecaseTableLines();
    UsecaseTableFilled(EXPORT_TEMPLATES[key], name);
    BarrelContent(key, EXPORT_TEMPLATES[key], name);
  }

  lemma UsecaseTableLines()
    ensures "_usecase.dart" in EXPORT_TEMPLATES && EXPORT_TEMPLATES["_usecase.dart"] == ["export '{feature}.usecase.dart';"]
  {
  }

  lemma UsecaseTableLine0(line: string, name: string)
    requires line == "export '{feature}.usecase.dart';"
    ensures Replace(line, LOWER_TOKEN, name) == "export '" + name + ".usecase.dart';"
  {
    assert "export '" + LOWER_TOKEN + ".usecase.dart';" == "export '{feature}.usecase.dart';";
    FillToken(line, "export '", ".usecase.dart';", name);
  }

  lemma UsecaseTableFilled(lines: seq<string>, name: string)
    requires lines == ["export '{feature}.usecase.dart';"]
    ensures FillLines(lines, name) == ["export '" + name + ".usecase.dart';"]
  {
    UsecaseTableLine0(lines[0], name);
    FillEach(lines, ["export '" + name + ".usecase.dart';"], name);
  }

  // The files that are keys with value None.

  /** The leaf `j` of top-level folder `i`. */
  lemma LeafAt(base: string, name: string, i: int, entries: seq<(string, Node)>, j: int, top: string, key: string)
    requires 0 <= i < |FEATURE_STRUCTURE| && FEATURE_STRUCTURE[i] == (top, Dir(entries))
    requires 0 <= j < |entries| && entries[j] == (key, Leaf)
    ensures WriteFile(FeatureFolder(base, name) + "/" + top + "/" + FileName(key, name), LeafContent(key, name))
      in FeaturePlan(base, name)
  {
    InFeatureLeaf(base, name, i, entries, j);
  }

  /** The leaf `k` of the presentation subfolder `j`. */
  lemma PresentationLeafAt(base: string, name: string, j: int, entries: seq<(string, Node)>, k: int,
                           sub: string, key: string)
    requires 0 <= j < |PRESENTATION_FOLDER| && PRESENTATION_FOLDER[j] == (sub, Dir(entries))
    requires 0 <= k < |entries| && entries[k] == (key, Leaf)
    ensures WriteFile(FeatureFolder(base, name) + "/" + "presentation" + "/" + sub + "/" + FileName(key, name),
      LeafContent(key, name)) in FeaturePlan(base, name)
  {
    InPresentationLeaf(base, name, j, entries, k);
  }

  /** The top-level leaf `i`. */
  lemma TopLeafAt(base: string, name: string, i: int, key: string)
    requires 0 <= i < |FEATURE_STRUCTURE| && FEATURE_STRUCTURE[i] == (key, Leaf)
    ensures WriteFile(FeatureFolder(base, name) + "/" + FileName(key, name), LeafContent(key, name))
      in FeaturePlan(base, name)
  {
    InFeatureTopLeaf(base, name, i);
  }

  /** `domain/_domain.dart` exports the barrels of its two subfolders. */
  lemma DomainBarrel(base: string, name: string)
    ensures var feature := FeatureFolder(base, name);
      WriteFile(feature + "/" + "domain" + "/" + "_domain.dart", ExportText(["export 'repository/_repository.dart';", "export 'usecase/_usecase.dart';"])) in FeaturePlan(base, name)
  {
    var folder := FeatureFolder(base, name) + "/" + "domain";
    var key := "_domain.dart";
    assert WriteFile(folder + "/" + FileName(key, name), LeafContent(key, name))
      in FeaturePlan(base, name) by {
      LeafAt(base, name, 0, DOMAIN_FOLDER, 2, "domain", key);
    }
    DomainBarrelName(key, name);
    DomainBarrelContent(key, name);
  }

  lemma DomainBarrelName(key: string, name: string)
    requires key == "_domain.dart"
    ensures FileName(key, name) == "_domain.dart"
  {
    FillNothing(key, name);
  }

  lemma DomainBarrelContent(key: string, name: string)
    requires key == "_domain.dart"
    ensures LeafContent(key, name) == ExportText(["export 'repository/_repository.dart';", "export 'usecase/_usecase.dart';"])
  {
    DomainBarrelLines();
    DomainBarrelFilled(EXPORT_TEMPLATES[key], name);
    BarrelContent(key, EXPORT_TEMPLATES[key], name);
  }

  lemma DomainBarrelLines()
    ensures "_domain.dart" in EXPORT_TEMPLATES && EXPORT_TEMPLATES["_domain.dart"] == ["export 'repository/_repository.dart';", "export 'usecase/_usecase.dart';"]
  {
  }

  lemma DomainBarrelLine0(line: string, name: string)
    requires line == "export 'repository/_repository.dart';"
    ensures Replace(line, LOWER_TOKEN, name) == "export 'repository/_repository.dart';"
  {
    FillNothing(line, name);
  }

  lemma DomainBarrelLine1(line: string, name: string)
    requires line == "export 'usecase/_usecase.dart';"
    ensures Replace(line, LOWER_TOKEN, name) == "export 'usecase/_usecase.dart';"
  {
    FillNothing(line, name);
  }

  lemma DomainBarrelFilled(lines: seq<string>, name: string)
    requires lines == ["export 'repository/_repository.dart';", "export 'usecase/_usecase.dart';"]
    ensures FillLines(lines, name) == ["export 'repository/_repository.dart';", "export 'usecase/_usecase.dart';"]
  {
    DomainBarrelLine0(lines[0], name);
    DomainBarrelLine1(lines[1], name);
    FillEach(lines, ["export 'repository/_repository.dart';", "export 'usecase/_usecase.dart';"], name);
  }

  /** `external/_external.dart` exports the datasource barrel. */
  lemma ExternalBarrel(base: string, name: string)
    ensures var feature := FeatureFolder(base, name);
      WriteFile(feature + "/" + "external" + "/" + "_external.dart", ExportText(["export 'datasource/_datasource.dart';"])) in FeaturePlan(base, name)
  {
    var folder := FeatureFolder(base, name) + "/" + "external";
    var key := "_external.dart";
    assert WriteFile(folder + "/" + FileName(key, name), LeafContent(key, name))
      in FeaturePlan(base, name) by {
      LeafAt(base, name, 1, EXTERNAL_FOLDER, 1, "external", key);
    }
    ExternalBarrelName(key, name);
    ExternalBarrelContent(key, name);
  }

  lemma ExternalBarrelName(key: string, name: string)
    requires key == "_external.dart"
    ensures FileName(key, name) == "_external.dart"
  {
    FillNothing(key, name);
  }

  lemma ExternalBarrelContent(key: string, name: string)
    requires key == "_external.dart"
    ensures LeafContent(key, name) == ExportText(["export 'datasource/_datasource.dart';"])
  {
    ExternalBarrelLines();
    ExternalBarrelFilled(EXPORT_TEMPLATES[key], name);
    BarrelContent(key, EXPORT_TEMPLATES[key], name);
  }

  lemma ExternalBarrelLines()
    ensures "_external.dart" in EXPORT_TEMPLATES && EXPORT_TEMPLATES["_external.dart"] == ["export 'datasource/_datasource.dart';"]
  {
  }

  lemma ExternalBarrelLine0(line: string, name: string)
    requires line == "export 'datasource/_datasource.dart';"
    ensures Replace(line, LOWER_TOKEN, name) == "export 'datasource/_datasource.dart';"
  {
    FillNothing(line, name);
  }

  lemma ExternalBarrelFilled(lines: seq<string>, name: string)
    requires lines == ["export 'datasource/_datasource.dart';"]
    ensures FillLines(lines, name) == ["export 'datasource/_datasource.dart';"]
  {
    ExternalBarrelLine0(lines[0], name);
    FillEach(lines, ["export 'datasource/_datasource.dart';"], name);
  }

  /** `infra/_infra.dart` exports the barrels of its two subfolders. */
  lemma InfraBarrel(base: string, name: string)
    ensures var feature := FeatureFolder(base, name);
      WriteFile(feature + "/" + "infra" + "/" + "_infra.dart", ExportText(["export 'datasource/_datasource.dart';", "export 'repository/_repository.dart';"])) in FeaturePlan(base, name)
  {
    var folder := FeatureFolder(base, name) + "/" + "infra";
    var key := "_infra.dart";
    assert WriteFile(folder + "/" + FileName(key, name), LeafContent(key, name))
      in FeaturePlan(base, name) by {
      LeafAt(base, name, 2, INFRA_FOLDER, 2, "infra", key);
    }
    InfraBarrelName(key, name);
    InfraBarrelContent(key, name);
  }

  lemma InfraBarrelName(key: string, name: string)
    requires key == "_infra.dart"
    ensures FileName(key, name) == "_infra.dart"
  {
    FillNothing(key, name);
  }

  lemma InfraBarrelContent(key: string, name: string)
    requires key == "_infra.dart"
    ensures LeafContent(key, name) == ExportText(["export 'datasource/_datasource.dart';", "export 'repository/_repository.dart';"])
  {
    InfraBarrelLines();
    InfraBarrelFilled(EXPORT_TEMPLATES[key], name);
    BarrelContent(key, EXPORT_TEMPLATES[key], name);
  }

  lemma InfraBarrelLines()
    ensures "_infra.dart" in EXPORT_TEMPLATES && EXPORT_TEMPLATES["_infra.dart"] == ["export 'datasource/_datasource.dart';", "export 'repository/_repository.dart';"]
  {
  }

  lemma InfraBarrelLine0(line: string, name: string)
    requires line == "export 'datasource/_datasource.dart';"
    ensures Replace(line, LOWER_TOKEN, name) == "export 'datasource/_datasource.dart';"
  {
    FillNothing(line, name);
  }

  lemma InfraBarrelLine1(line: string, name: string)
    requires line == "export 'repository/_repository.dart';"
    ensures Replace(line, LOWER_TOKEN, name) == "export 'repository/_repository.dart';"
  {
    FillNothing(line, name);
  }

  lemma InfraBarrelFilled(lines: seq<string>, name: string)
    requires lines == ["export 'datasource/_datasource.dart';", "export 'repository/_repository.dart';"]
    ensures FillLines(lines, name) == ["export 'datasource/_datasource.dart';", "export 'repository/_repository.dart';"]
  {
    InfraBarrelLine0(lines[0], name);
    InfraBarrelLine1(lines[1], name);
    FillEach(lines, ["export 'datasource/_datasource.dart';", "export 'repository/_repository.dart';"], name);
  }

  /** `presentation/_presentation.dart` exports the barrels of its three subfolders. */
  lemma PresentationBarrel(base: string, name: string)
    ensures var feature := FeatureFolder(base, name);
      WriteFile(feature + "/" + "presentation" + "/" + "_presentation.dart", ExportText(["export 'controller/_controller.dart';", "export 'page/_page.dart';", "export 'widget/_widget.dart';"])) in FeaturePlan(base, name)
  {
    var folder := FeatureFolder(base, name) + "/" + "presentation";
    var key := "_presentation.dart";
    assert WriteFile(folder + "/" + FileName(key, name), LeafContent(key, name))
      in FeaturePlan(base, name) by {
      LeafAt(base, name, 3, PRESENTATION_FOLDER, 3, "presentation", key);
    }
    PresentationBarrelName(key, name);
    PresentationBarrelContent(key, name);
  }

  lemma PresentationBarrelName(key: string, name: string)
    requires key == "_presentation.dart"
    ensures FileName(key, name) == "_presentation.dart"
  {
    FillNothing(key, name);
  }

  lemma PresentationBarrelContent(key: string, name: string)
    requires key == "_presentation.dart"
    ensures LeafContent(key, name) == ExportText(["export 'controller/_controller.dart';", "export 'page/_page.dart';", "export 'widget/_widget.dart';"])
  {
    PresentationBarrelLines();
    PresentationBarrelFilled(EXPORT_TEMPLATES[key], name);
    BarrelContent(key, EXPORT_TEMPLATES[key], name);
  }

  lemma PresentationBarrelLines()
    ensures "_presentation.dart" in EXPORT_TEMPLATES && EXPORT_TEMPLATES["_presentation.dart"] == ["export 'controller/_controller.dart';", "export 'page/_page.dart';", "export 'widget/_widget.dart';"]
  {
  }

  lemma PresentationBarrelLine0(line: string, name: string)
    requires line == "export 'controller/_controller.dart';"
    ensures Replace(line, LOWER_TOKEN, name) == "export 'controller/_controller.dart';"
  {
    FillNothing(line, name);
  }

  lemma PresentationBarrelLine1(line: string, name: string)
    requires line == "export 'page/_page.dart';"
    ensures Replace(line, LOWER_TOKEN, name) == "export 'page/_page.dart';"
  {
    FillNothing(line, name);
  }

  lemma PresentationBarrelLine2(line: string, name: string)
    requires line == "export 'widget/_widget.dart';"
    ensures Replace(line, LOWER_TOKEN, name) == "export 'widget/_widget.dart';"
  {
    FillNothing(line, name);
  }

  lemma PresentationBarrelFilled(lines: seq<string>, name: string)
    requires lines == ["export 'controller/_controller.dart';", "export 'page/_page.dart';", "export 'widget/_widget.dart';"]
    ensures FillLines(lines, name) == ["export 'controller/_controller.dart';", "export 'page/_page.dart';", "export 'widget/_widget.dart';"]
  {
    var filled := ["export 'controller/_controller.dart';", "export 'page/_page.dart';", "export 'widget/_widget.dart';"];
    forall k | 0 <= k < |lines| ensures Replace(lines[k], LOWER_TOKEN, name) == filled[k] {
      if k == 0 { PresentationBarrelLine0(lines[k], name); }
      else if k == 1 { PresentationBarrelLine1(lines[k], name); }
      else { PresentationBarrelLine2(lines[k], name); }
    }
    FillEach(lines, filled, name);
  }

  /** `presentation/controller/_controller.dart` exports the cubit and state files of the feature. */
  lemma ControllerBarrel(base: string, name: string)
    ensures var feature := FeatureFolder(base, name);
      WriteFile(feature + "/" + "presentation" + "/" + "controller" + "/" + "_controller.dart", ExportText(["export '" + name + ".cubit.dart';", "export '" + name + ".state.dart';"])) in FeaturePlan(base, name)
  {
    var folder := FeatureFolder(base, name) + "/" + "presentation" + "/" + "controller";
    var key := "_controller.dart";
    assert WriteFile(folder + "/" + FileName(key, name), LeafContent(key, name))
      in FeaturePlan(base, name) by {
      PresentationLeafAt(base, name, 0, CONTROLLER_FOLDER, 0, "controller", key);
    }
    ControllerBarrelName(key, name);
    ControllerBarrelContent(key, name);
  }

  lemma ControllerBarrelName(key: string, name: string)
    requires key == "_controller.dart"
    ensures FileName(key, name) == "_controller.dart"
  {
    FillNothing(key, name);
  }

  lemma ControllerBarrelContent(key: string, name: string)
    requires key == "_controller.dart"
    ensures LeafContent(key, name) == ExportText(["export '" + name + ".cubit.dart';", "export '" + name + ".state.dart';"])
  {
    ControllerBarrelLines();
    ControllerBarrelFilled(EXPORT_TEMPLATES[key], name);
    BarrelContent(key, EXPORT_TEMPLATES[key], name);
  }

  lemma ControllerBarrelLines()
    ensures "_controller.dart" in EXPORT_TEMPLATES && EXPORT_TEMPLATES["_controller.dart"] == ["export '{feature}.cubit.dart';", "export '{feature}.state.dart';"]
  {
  }

  lemma ControllerBarrelLine0(line: string, name: string)
    requires line == "export '{feature}.cubit.dart';"
    ensures Replace(line, LOWER_TOKEN, name) == "export '" + name + ".cubit.dart';"
  {
    assert "export '" + LOWER_TOKEN + ".cubit.dart';" == "export '{feature}.cubit.dart';";
    FillToken(line, "export '", ".cubit.dart';", name);
  }

  lemma ControllerBarrelLine1(line: string, name: string)
    requires line == "export '{feature}.state.dart';"
    ensures Replace(line, LOWER_TOKEN, name) == "export '" + name + ".state.dart';"
  {
    assert "export '" + LOWER_TOKEN + ".state.dart';" == "export '{feature}.state.dart';";
    FillToken(line, "export '", ".state.dart';", name);
  }

  lemma ControllerBarrelFilled(lines: seq<string>, name: string)
    requires lines == ["export '{feature}.cubit.dart';", "export '{feature}.state.dart';"]
    ensures FillLines(lines, name) == ["export '" + name + ".cubit.dart';", "export '" + name + ".state.dart';"]
  {
    ControllerBarrelLine0(lines[0], name);
    ControllerBarrelLine1(lines[1], name);
    FillEach(lines, ["export '" + name + ".cubit.dart';", "export '" + name + ".state.dart';"], name);
  }

  /** `presentation/page/_page.dart` exports the page file of the feature. */
  lemma PageBarrel(base: string, name: string)
    ensures var feature := FeatureFolder(base, name);
      WriteFile(feature + "/" + "presentation" + "/" + "page" + "/" + "_page.dart", ExportText(["export '" + name + ".page.dart';"])) in FeaturePlan(base, name)
  {
    var folder := FeatureFolder(base, name) + "/" + "presentation" + "/" + "page";
    var key := "_page.dart";
    assert WriteFile(folder + "/" + FileName(key, name), LeafContent(key, name))
      in FeaturePlan(base, name) by {
      PresentationLeafAt(base, name, 1, PAGE_FOLDER, 0, "page", key);
    }
    PageBarrelName(key, name);
    PageBarrelContent(key, name);
  }

  lemma PageBarrelName(key: string, name: string)
    requires key == "_page.dart"
    ensures FileName(key, name) == "_page.dart"
  {
    FillNothing(key, name);
  }

  lemma PageBarrelContent(key: string, name: string)
    requires key == "_page.dart"
    ensures LeafContent(key, name) == ExportText(["export '" + name + ".page.dart';"])
  {
    PageBarrelLines();
    PageBarrelFilled(EXPORT_TEMPLATES[key], name);
    BarrelContent(key, EXPORT_TEMPLATES[key], name);
  }

  lemma PageBarrelLines()
    ensures "_page.dart" in EXPORT_TEMPLATES && EXPORT_TEMPLATES["_page.dart"] == ["export '{feature}.page.dart';"]
  {
  }

  lemma PageBarrelLine0(line: string, name: string)
    requires line == "export '{feature}.page.dart';"
    ensures Replace(line, LOWER_TOKEN, name) == "export '" + name + ".page.dart';"
  {
    assert "export '" + LOWER_TOKEN + ".page.dart';" == "export '{feature}.page.dart';";
    FillToken(line, "export '", ".page.dart';", name);
  }

  lemma PageBarrelFilled(lines: seq<string>, name: string)
    requires lines == ["export '{feature}.page.dart';"]
    ensures FillLines(lines, name) == ["export '" + name + ".page.dart';"]
  {
    PageBarrelLine0(lines[0], name);
    FillEach(lines, ["export '" + name + ".page.dart';"], name);
  }

  /** `presentation/widget/_widget.dart` is written empty: its export list is empty. */
  lemma WidgetBarrel(base: string, name: string)
    ensures var feature := FeatureFolder(base, name);
      WriteFile(feature + "/" + "presentation" + "/" + "widget" + "/" + "_widget.dart", []) in FeaturePlan(base, name)
  {
    var folder := FeatureFolder(base, name) + "/" + "presentation" + "/" + "widget";
    var key := "_widget.dart";
    assert WriteFile(folder + "/" + FileName(key, name), LeafContent(key, name))
      in FeaturePlan(base, name) by {
      PresentationLeafAt(base, name, 2, WIDGET_FOLDER, 0, "widget", key);
    }
    WidgetBarrelName(key, name);
    WidgetBarrelContent(key, name);
  }

  lemma WidgetBarrelName(key: string, name: string)
    requires key == "_widget.dart"
    ensures FileName(key, name) == "_widget.dart"
  {
    FillNothing(key, name);
  }

  lemma WidgetBarrelContent(key: string, name: string)
    requires key == "_widget.dart"
    ensures LeafContent(key, name) == []
  {
    WidgetBarrelLines();
    BarrelContent(key, [], name);
  }

  lemma WidgetBarrelLines()
    ensures "_widget.dart" in EXPORT_TEMPLATES && EXPORT_TEMPLATES["_widget.dart"] == []
  {
  }

  /** `_<name>.dart`, the feature barrel, exports the router, the locator setup and the four layer barrels. */
  lemma FeatureBarrel(base: string, name: string)
    ensures var feature := FeatureFolder(base, name);
      WriteFile(feature + "/" + ("_" + name + ".dart"), ExportText(["export '" + name + ".router.dart';", "export '" + name + ".setup.locator.dart';", "export 'domain/_domain.dart';", "export 'external/_external.dart';", "export 'infra/_infra.dart';", "export 'presentation/_presentation.dart';"])) in FeaturePlan(base, name)
  {
    var folder := FeatureFolder(base, name);
    var key := "_{feature}.dart";
    assert WriteFile(folder + "/" + FileName(key, name), LeafContent(key, name))
      in FeaturePlan(base, name) by {
      TopLeafAt(base, name, 4, key);
    }
    FeatureBarrelName(key, name);
    FeatureBarrelContent(key, name);
  }

  lemma FeatureBarrelName(key: string, name: string)
    requires key == "_{feature}.dart"
    ensures FileName(key, name) == "_" + name + ".dart"
  {
    FillToken(key, "_", ".dart", name);
  }

  lemma FeatureBarrelContent(key: string, name: string)
    requires key == "_{feature}.dart"
    ensures LeafContent(key, name) == ExportText(["export '" + name + ".router.dart';", "export '" + name + ".setup.locator.dart';", "export 'domain/_domain.dart';", "export 'external/_external.dart';", "export 'infra/_infra.dart';", "export 'presentation/_presentation.dart';"])
  {
    FeatureBarrelLines();
    FeatureBarrelFilled(EXPORT_TEMPLATES[key], name);
    BarrelContent(key, EXPORT_TEMPLATES[key], name);
  }

  lemma FeatureBarrelLines()
    ensures "_{feature}.dart" in EXPORT_TEMPLATES && EXPORT_TEMPLATES["_{feature}.dart"] == ["export '{feature}.router.dart';", "export '{feature}.setup.locator.dart';", "export 'domain/_domain.dart';", "export 'external/_external.dart';", "export 'infra/_infra.dart';", "export 'presentation/_presentation.dart';"]
  {
  }

  lemma FeatureBarrelLine0(line: string, name: string)
    requires line == "export '{feature}.router.dart';"
    ensures Replace(line, LOWER_TOKEN, name) == "export '" + name + ".router.dart';"
  {
    assert "export '" + LOWER_TOKEN + ".router.dart';" == "export '{feature}.router.dart';";
    FillToken(line, "export '", ".router.dart';", name);
  }

  lemma FeatureBarrelLine1(line: string, name: string)
    requires line == "export '{feature}.setup.locator.dart';"
    ensures Replace(line, LOWER_TOKEN, name) == "export '" + name + ".setup.locator.dart';"
  {
    assert "export '" + LOWER_TOKEN + ".setup.locator.dart';" == "export '{feature}.setup.locator.dart';";
    FillToken(line, "export '", ".setup.locator.dart';", name);
  }

  lemma FeatureBarrelLine2(line: string, name: string)
    requires line == "export 'domain/_domain.dart';"
    ensures Replace(line, LOWER_TOKEN, name) == "export 'domain/_domain.dart';"
  {
    FillNothing(line, name);
  }

  lemma FeatureBarrelLine3(line: string, name: string)
    requires line == "export 'external/_external.dart';"
    ensures Replace(line, LOWER_TOKEN, name) == "export 'external/_external.dart';"
  {
    FillNothing(line, name);
  }

  lemma FeatureBarrelLine4(line: string, name: string)
    requires line == "export 'infra/_infra.dart';"
    ensures Replace(line, LOWER_TOKEN, name) == "export 'infra/_infra.dart';"
  {
    FillNothing(line, name);
  }

  lemma FeatureBarrelLine5(line: string, name: string)
    requires line == "export 'presentation/_presentation.dart';"
    ensures Replace(line, LOWER_TOKEN, name) == "export 'presentation/_presentation.dart';"
  {
    FillNothing(line, name);
  }

  lemma FeatureBarrelFilled(lines: seq<string>, name: string)
    requires lines == ["export '{feature}.router.dart';", "export '{feature}.setup.locator.dart';", "export 'domain/_domain.dart';", "export 'external/_external.dart';", "export 'infra/_infra.dart';", "export 'presentation/_presentation.dart';"]
    ensures FillLines(lines, name) == ["export '" + name + ".router.dart';", "export '" + name + ".setup.locator.dart';", "export 'domain/_domain.dart';", "export 'external/_external.dart';", "export 'infra/_infra.dart';", "export 'presentation/_presentation.dart';"]
  {
    var filled := ["export '" + name + ".router.dart';", "export '" + name + ".setup.locator.dart';", "export 'domain/_domain.dart';", "export 'external/_external.dart';", "export 'infra/_infra.dart';", "export 'presentation/_presentation.dart';"];
    forall k | 0 <= k < |lines| ensures Replace(lines[k], LOWER_TOKEN, name) == filled[k] {
      if k == 0 { FeatureBarrelLine0(lines[k], name); }
      else if k == 1 { FeatureBarrelLine1(lines[k], name); }
      else if k == 2 { FeatureBarrelLine2(lines[k], name); }
      else if k == 3 { FeatureBarrelLine3(lines[k], name); }
      else if k == 4 { FeatureBarrelLine4(lines[k], name); }
      else { FeatureBarrelLine5(lines[k], name); }
    }
    FillEach(lines, filled, name);
  }

  /** `presentation/controller/<name>.cubit.dart` is written empty. */
  lemma CubitFile(base: string, name: string)
    ensures var feature := FeatureFolder(base, name);
      WriteFile(feature + "/" + "presentation" + "/" + "controller" + "/" + (name + ".cubit.dart"), []) in FeaturePlan(base, name)
  {
    var folder := FeatureFolder(base, name) + "/" + "presentation" + "/" + "controller";
    var key := "{feature}.cubit.dart";
    assert WriteFile(folder + "/" + FileName(key, name), LeafContent(key, name))
      in FeaturePlan(base, name) by {
      PresentationLeafAt(base, name, 0, CONTROLLER_FOLDER, 1, "controller", key);
    }
    CubitFileName(key, name);
    CubitFileContent(key, name);
  }

  lemma CubitFileName(key: string, name: string)
    requires key == "{feature}.cubit.dart"
    ensures FileName(key, name) == name + ".cubit.dart"
  {
    TokenThenText(key, ".cubit.dart", name);
  }

  lemma CubitFileContent(key: string, name: string)
    requires key == "{feature}.cubit.dart"
    ensures LeafContent(key, name) == []
  {
    PlainContent(key, name);
  }

  /** `presentation/controller/<name>.state.dart` is written empty. */
  lemma StateFile(base: string, name: string)
    ensures var feature := FeatureFolder(base, name);
      WriteFile(feature + "/" + "presentation" + "/" + "controller" + "/" + (name + ".state.dart"), []) in FeaturePlan(base, name)
  {
    var folder := FeatureFolder(base, name) + "/" + "presentation" + "/" + "controller";
    var key := "{feature}.state.dart";
    assert WriteFile(folder + "/" + FileName(key, name), LeafContent(key, name))
      in FeaturePlan(base, name) by {
      PresentationLeafAt(base, name, 0, CONTROLLER_FOLDER, 2, "controller", key);
    }
    StateFileName(key, name);
    StateFileContent(key, name);
  }

  lemma StateFileName(key: string, name: string)
    requires key == "{feature}.state.dart"
    ensures FileName(key, name) == name + ".state.dart"
  {
    TokenThenText(key, ".state.dart", name);
  }

  lemma StateFileContent(key: string, name: string)
    requires key == "{feature}.state.dart"
    ensures LeafContent(key, name) == []
  {
    PlainContent(key, name);
  }

  /** `<name>.setup.locator.dart` is written empty. */
  lemma SetupLocatorFile(base: string, name: string)
    ensures var feature := FeatureFolder(base, name);
      WriteFile(feature + "/" + (name + ".setup.locator.dart"), []) in FeaturePlan(base, name)
  {
    var folder := FeatureFolder(base, name);
    var key := "{feature}.setup.locator.dart";
    assert WriteFile(folder + "/" + FileName(key, name), LeafContent(key, name))
      in FeaturePlan(base, name) by {
      TopLeafAt(base, name, 6, key);
    }
    SetupLocatorFileName(key, name);
    SetupLocatorFileContent(key, name);
  }

  lemma SetupLocatorFileName(key: string, name: string)
    requires key == "{feature}.setup.locator.dart"
    ensures FileName(key, name) == name + ".setup.locator.dart"
  {
    TokenThenText(key, ".setup.locator.dart", name);
  }

  lemma SetupLocatorFileContent(key: string, name: string)
    requires key == "{feature}.setup.locator.dart"
    ensures LeafContent(key, name) == []
  {
    PlainContent(key, name);
  }

  /** `presentation/page/<name>.page.dart` holds the page template filled with the feature name. */
  lemma PageFile(base: string, name: string)
    ensures var feature := FeatureFolder(base, name);
      WriteFile(feature + "/" + "presentation" + "/" + "page" + "/" + (name + ".page.dart"), Instantiate(PAGE_PIECES, name, Capitalize(name))) in FeaturePlan(base, name)
  {
    var folder := FeatureFolder(base, name) + "/" + "presentation" + "/" + "page";
    var key := "{feature}.page.dart";
    assert WriteFile(folder + "/" + FileName(key, name), LeafContent(key, name))
      in FeaturePlan(base, name) by {
      PresentationLeafAt(base, name, 1, PAGE_FOLDER, 1, "page", key);
    }
    PageFileName(key, name);
    PageFileContent(key, name);
  }

  lemma PageFileName(key: string, name: string)
    requires key == "{feature}.page.dart"
    ensures FileName(key, name) == name + ".page.dart"
  {
    TokenThenText(key, ".page.dart", name);
  }

  lemma PageFileContent(key: string, name: string)
    requires key == "{feature}.page.dart"
    ensures LeafContent(key, name) == Instantiate(PAGE_PIECES, name, Capitalize(name))
  {
    assert key !in EXPORT_TEMPLATES;
    FilledPageTemplate(name);
  }

  /** `<name>.router.dart` holds the router template filled with the feature name. */
  lemma RouterFile(base: string, name: string)
    requires IsLower(name)
    ensures var feature := FeatureFolder(base, name);
      WriteFile(feature + "/" + (name + ".router.dart"), Instantiate(ROUTER_PIECES, name, Capitalize(name))) in FeaturePlan(base, name)
  {
    var folder := FeatureFolder(base, name);
    var key := "{feature}.router.dart";
    assert WriteFile(folder + "/" + FileName(key, name), LeafContent(key, name))
      in FeaturePlan(base, name) by {
      TopLeafAt(base, name, 5, key);
    }
    RouterFileName(key, name);
    RouterFileContent(key, name);
  }

  lemma RouterFileName(key: string, name: string)
    requires key == "{feature}.router.dart"
    ensures FileName(key, name) == name + ".router.dart"
  {
    TokenThenText(key, ".router.dart", name);
  }

  lemma RouterFileContent(key: string, name: string)
    requires key == "{feature}.router.dart"
    requires IsLower(name)
    ensures LeafContent(key, name) == Instantiate(ROUTER_PIECES, name, Capitalize(name))
  {
    assert key !in EXPORT_TEMPLATES;
    FilledRouterTemplate(name);
  }
}
