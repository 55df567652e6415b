# Clean-architecture feature generator, modelled in Dafny

`generate_feature.py` scaffolds a Flutter feature in the clean-architecture
layout. It asks for a base directory and a feature name, lower-cases the name
and, if the base directory exists, creates `<base>/<name>` holding the
`domain`, `external`, `infra` and `presentation` folders with their Dart
files. The walk follows the nested `FEATURE_STRUCTURE` table:

- a dict is a folder, created and walked in declared order;
- a list is a folder of listed files;
- `None` is a single file.

What each file holds is decided by an if/elif chain. It is one of:

- a class template with `{feature}` and `{Feature}` replaced;
- an export line chosen by a substring test on the folder path;
- the export lines of `EXPORT_TEMPLATES` with `{feature}` replaced;
- nothing.

The project is organised as follows:

- `text.dfy`, module `Text`. It holds the string operations the script relies
  on:
  - Python's `str.replace`, with its scan-left-to-right, non-overlapping
    semantics;
  - `in` on strings;
  - ASCII `lower()` and `capitalize()`;
  - the text that `add_exports_to_file` writes.
- `templates.dfy`, module `Templates`. It holds the six Dart templates and the
  two-pass substitution `template.replace("{feature}", n).replace("{Feature}",
  n.capitalize())`. Each template is written as a sequence of pieces: literal
  text and the two tokens. From that form the model proves what substitution
  yields.
- `structure.dfy`, module `Structure`. It holds:
  - the `FEATURE_STRUCTURE` and `EXPORT_TEMPLATES` tables;
  - the content dispatch of both branches of `create_recursive`;
  - the sequence of actions (make a folder, write a file) that
    `create_feature_structure` performs, in order;
  - lemmas about that sequence: order, nesting and counts.
- `feature_files.dfy`, module `FeatureFiles`. For each file of the feature it
  gives the path it is written at and the content written there.
- `filesystem.dfy`, module `FileSystem`. It holds:
  - a filesystem as a map from path to directory or file;
  - the effect of running actions on it;
  - the script's top level, with its existence guard;
  - idempotence: running the script twice with the same answers leaves what
    running it once left.
- `layout.dfy`, module `Layout`. It proves that the walk writes no path twice,
  so every file ends up holding what was written to it.
- `generator.dfy`, module `Generator`. It holds the procedures themselves as
  methods of a `Disk` class that updates its map in place. Each method is
  proved to leave the disk as running its planned actions would.

The templates' literal text does hold `{`, as in `{}`, `({super.key})` and
Dart's `${...}` interpolation. No such `{` is followed by `f` or `F`, except
in the router's interpolation, where the `{` is followed by a `{Feature}`
token. So no token can start inside literal text (`WellFormed`).

The second `replace` also rescans the name that the first one inserted. A
name fits a template (`NameFits`) when no `{` in it can start a `{Feature}`
token together with the text that follows. Any name fits a template without
`{feature}` tokens (`NoTokenFits`): the repository, datasource and page
templates. In the router and the two implementation templates, every
`{feature}` token is followed by something other than `F` (a quote, `(`, a
dot or `.dart`), so any name
without capitals fits them (`LowerNameFits`). The script always lower-cases
the name first. `BraceInNameIsRescanned` shows a name that does not fit.

In `create_recursive`, a `None` entry's content is looked up in
`EXPORT_TEMPLATES` under the key as written in the table, before `{feature}`
is replaced. The model does the same, so the `_{feature}.dart` barrel gets
its export lines.

## Model

| member | source | states |
|---|---|---|
| Text.ReplaceIsJoinOfSplit | generate_feature.py:187 | `str.replace` as modelled equals an equivalent definition, `rep.join(s.split(pat))`, for every string and non-empty pattern |
| Text.SplitJoinRoundTrip | generate_feature.py:187 | splitting on a pattern and joining with the same pattern gives the string back |
| Text.ReplaceBySelf | generate_feature.py:187 | replacing a pattern by itself leaves any string unchanged |
| Text.ReplaceSkips | generate_feature.py:189 | a replacement scan passes over a prefix in which no occurrence can start, leaving it untouched |
| Text.ReplaceAbsent | generate_feature.py:224 | a line without the pattern's first character is left unchanged by `replace` |
| Text.Lower | generate_feature.py:246 | `lower()` keeps the length and maps each character on its own: an upper-case ASCII letter to its lower-case letter, any other character to itself |
| Text.LowerKeepsOut | generate_feature.py:246 | lower-casing adds no character that is not a lower-case letter, so a name without `/` stays without `/` |
| Text.LowerIdempotent | generate_feature.py:246 | lower-casing twice is lower-casing once |
| Text.Capitalize | generate_feature.py:189 | `capitalize()` upper-cases the first character, lower-cases the rest and keeps the length |
| Text.CapitalizeLowered | generate_feature.py:189 | on a lower-cased name, `capitalize()` changes at most the first character |
| Text.ExportTextSnoc | generate_feature.py:164-165 | each loop iteration appends the line and a newline to what was written |
| Text.ExportTextLines | generate_feature.py:161-165 | a file written from newline-free export lines reads back as exactly those lines, in order |
| Templates.FirstPass | generate_feature.py:189 | on a brace-safe template, the first `replace` fills every `{feature}` token and nothing else |
| Templates.SecondPass | generate_feature.py:189 | the second `replace` then fills every `{Feature}` token, when the name fits the template |
| Templates.SubstituteInstantiates | generate_feature.py:189 | the two chained replaces put the name and its capitalised form exactly where the template's tokens are, for every name that fits the template |
| Templates.LowerNameFits | generate_feature.py:189 | a name without capitals fits every template whose `{feature}` tokens are followed by something other than `F` |
| Templates.NoTokenFits | generate_feature.py:189 | every name fits a template without `{feature}` tokens |
| Templates.BraceInNameIsRescanned | generate_feature.py:189 | with the name `{`, the template `{feature}Feature}` becomes `{Feature}` after the first pass and `{` after the second, not the token-wise instantiation; that name does not fit that template |
| Templates.RouterTemplateWellFormed | generate_feature.py:40-74 | no token can start inside the router template's literal text |
| Templates.PageTemplateWellFormed | generate_feature.py:76-87 | no token can start inside the page template's literal text |
| Templates.FilledRepositoryTemplate | generate_feature.py:89-91 | for any name, the filled repository template declares `abstract class <Name>Repository {}` |
| Templates.FilledDatasourceTemplate | generate_feature.py:99-101 | for any name, the filled datasource template declares `abstract class <Name>Datasource {}` |
| Templates.FilledDatasourceImplTemplate | generate_feature.py:93-97 | for any name without capitals, the filled implementation imports `../../_<name>.dart` and declares `<Name>DatasourceImpl implements <Name>Datasource` |
| Templates.FilledRepositoryImplTemplate | generate_feature.py:103-107 | for any name without capitals, the filled implementation imports `../../_<name>.dart` and declares `<Name>RepositoryImpl implements <Name>Repository` |
| Templates.FilledRouterTemplate | generate_feature.py:228-231 | for any name without capitals, the router file is the router template with the name and its capitalised form at each token |
| Templates.FilledPageTemplate | generate_feature.py:232-235 | for any name, the page file is the page template with the capitalised name at each token |
| Structure.FillLines | generate_feature.py:223-226 | the list comprehension keeps the number and order of lines and replaces `{feature}` in each |
| Structure.GroupPlan | generate_feature.py:186-217 | the inner loop writes each listed file once, in order, at its substituted name, with the content the if/elif chain picks |
| Structure.PlanSplit | generate_feature.py:176 | the entries of a dict are handled one after the other: entry `i`'s actions sit between those of earlier and later entries |
| Structure.PlanAppend | generate_feature.py:176 | walking two runs of entries in turn is walking their concatenation |
| Structure.PlanBeneath | generate_feature.py:175-237 | every folder and file `create_recursive(structure, path)` creates lies beneath `path` |
| Structure.FolderBeforeContents | generate_feature.py:179-186 | a dict or list entry first creates its folder, and everything after that lies inside the folder |
| Structure.FeatureFolderFirst | generate_feature.py:172-173 | the feature folder is created first and everything else lies inside it |
| Structure.OneWritePerFile | generate_feature.py:175-237 | the walk writes exactly one file per `None` key and list item, and creates exactly one folder per dict or list |
| Structure.StructureCounts | generate_feature.py:4-37 | `FEATURE_STRUCTURE` holds 22 files and 12 folders |
| Structure.FeatureCounts | generate_feature.py:168-239 | a feature is 22 file writes and 13 folder creations |
| Structure.InFeatureGroup | generate_feature.py:182-187 | every listed file of a top-level folder is written in the feature, with its dispatched content |
| Structure.InFeatureLeaf | generate_feature.py:218-220 | every `None` key of a top-level folder is written in the feature, with its dispatched content |
| Structure.InFeatureTopLeaf | generate_feature.py:34-36 | the three top-level `None` keys are written directly in the feature folder |
| Structure.FillToken | generate_feature.py:187 | a name with one `{feature}` token and no other `{` becomes the name with the feature spliced in |
| Structure.ContainsBeneath | generate_feature.py:200 | a word with no `/` occurs in `folder/rest` exactly when it occurs in `folder`, provided `rest` lacks it |
| FeatureFiles.RepositoryBarrel | generate_feature.py:200-207 | a listed `_repository.dart` exports the implementation if `infra` occurs in the folder path, else the interface if `domain` does, else is empty |
| FeatureFiles.DatasourceBarrel | generate_feature.py:208-215 | a listed `_datasource.dart` exports the implementation if `external` occurs in the folder path, else the interface if `infra` does, else is empty |
| FeatureFiles.DomainRepositoryExport | generate_feature.py:204-207 | `domain/repository/_repository.dart` exports `<name>.repository.dart`, unless `infra` occurs in the feature folder's path |
| FeatureFiles.DomainRepositoryContent | generate_feature.py:200-207 | the content chosen for the domain repository barrel depends only on whether the feature folder's path holds `infra` |
| FeatureFiles.InfraRepositoryExport | generate_feature.py:200-203 | `infra/repository/_repository.dart` exports `<name>.repository.impl.dart` |
| FeatureFiles.InfraRepositoryContent | generate_feature.py:200-203 | the infra repository barrel always takes the first branch |
| FeatureFiles.ExternalDatasourceExport | generate_feature.py:208-211 | `external/datasource/_datasource.dart` exports `<name>.datasource.impl.dart` |
| FeatureFiles.ExternalDatasourceContent | generate_feature.py:208-211 | the external datasource barrel always takes the `external` branch |
| FeatureFiles.InfraDatasourceExport | generate_feature.py:212-215 | `infra/datasource/_datasource.dart` exports `<name>.datasource.dart`, unless `external` occurs in the feature folder's path |
| FeatureFiles.InfraDatasourceContent | generate_feature.py:208-215 | the content chosen for the infra datasource barrel depends only on whether the feature folder's path holds `external` |
| FeatureFiles.DomainRepositoryTests | generate_feature.py:200-204 | below `domain/repository`, `infra` occurs exactly when the feature folder's path holds it, and `domain` always occurs |
| FeatureFiles.InfraDatasourceTests | generate_feature.py:208-212 | below `infra/datasource`, `external` occurs exactly when the feature folder's path holds it, and `infra` always occurs |
| FeatureFiles.InfrastructureFlipsDomainExport | generate_feature.py:200-203 | a feature named `infrastructure` gets a domain barrel exporting `infrastructure.repository.impl.dart` |
| FeatureFiles.PlainNameKeepsDomainExport | generate_feature.py:204-207 | a feature named `user` under `lib/feature` gets a domain barrel exporting `user.repository.dart` |
| FeatureFiles.DomainRepositoryClass | generate_feature.py:188-190 | `domain/repository/<name>.repository.dart` holds the repository interface |
| FeatureFiles.RepositoryClassContent | generate_feature.py:188-190 | a listed `{feature}.repository.dart` is given the filled repository template |
| FeatureFiles.ExternalDatasourceClass | generate_feature.py:191-193 | `external/datasource/<name>.datasource.impl.dart` holds the datasource implementation |
| FeatureFiles.DatasourceImplClassContent | generate_feature.py:191-193 | a listed `{feature}.datasource.impl.dart` is given the filled implementation template |
| FeatureFiles.InfraDatasourceClass | generate_feature.py:194-196 | `infra/datasource/<name>.datasource.dart` holds the datasource interface |
| FeatureFiles.DatasourceClassContent | generate_feature.py:194-196 | a listed `{feature}.datasource.dart` is given the filled datasource template |
| FeatureFiles.InfraRepositoryClass | generate_feature.py:197-199 | `infra/repository/<name>.repository.impl.dart` holds the repository implementation |
| FeatureFiles.RepositoryImplClassContent | generate_feature.py:197-199 | a listed `{feature}.repository.impl.dart` is given the filled implementation template |
| FeatureFiles.BarrelContent | generate_feature.py:221-227 | a `None` key found in `EXPORT_TEMPLATES` gets its export lines, with `{feature}` filled, one per line |
| FeatureFiles.PlainContent | generate_feature.py:236-237 | a `None` key that is neither in `EXPORT_TEMPLATES` nor the router or page file is created empty |
| FeatureFiles.UsecaseBarrelIsEmpty | generate_feature.py:216-217 | `domain/usecase/_usecase.dart` is listed, so it falls through the chain and is created empty |
| FeatureFiles.UsecaseGroupContent | generate_feature.py:200-217 | a listed `_usecase.dart` matches no branch of the chain |
| FeatureFiles.UsecaseTableLine | generate_feature.py:125-127 | the `_usecase.dart` export line would be used only for a `None` key of that name |
| FeatureFiles.FeatureBarrel | generate_feature.py:110-117 | `_<name>.dart` exports the router, the locator and the four layer barrels, in that order |
| FeatureFiles.DomainBarrel | generate_feature.py:118-121 | `domain/_domain.dart` exports the repository and use-case barrels |
| FeatureFiles.ExternalBarrel | generate_feature.py:128-130 | `external/_external.dart` exports the datasource barrel |
| FeatureFiles.InfraBarrel | generate_feature.py:135-138 | `infra/_infra.dart` exports the datasource and repository barrels |
| FeatureFiles.PresentationBarrel | generate_feature.py:139-143 | `presentation/_presentation.dart` exports the controller, page and widget barrels |
| FeatureFiles.ControllerBarrel | generate_feature.py:144-147 | `presentation/controller/_controller.dart` exports `<name>.cubit.dart` and `<name>.state.dart` |
| FeatureFiles.PageBarrel | generate_feature.py:148-150 | `presentation/page/_page.dart` exports `<name>.page.dart` |
| FeatureFiles.WidgetBarrel | generate_feature.py:151 | `presentation/widget/_widget.dart` is created empty, because its export list is empty |
| FeatureFiles.CubitFile | generate_feature.py:22 | `presentation/controller/<name>.cubit.dart` is created empty |
| FeatureFiles.StateFile | generate_feature.py:23 | `presentation/controller/<name>.state.dart` is created empty |
| FeatureFiles.SetupLocatorFile | generate_feature.py:36 | `<name>.setup.locator.dart` is created empty in the feature folder |
| FeatureFiles.PageFile | generate_feature.py:232-235 | `presentation/page/<name>.page.dart` holds the filled page template |
| FeatureFiles.RouterFile | generate_feature.py:228-231 | `<name>.router.dart` holds the filled router template |
| FileSystem.Apply | generate_feature.py:173 | an action changes only its own path: `makedirs` with `exist_ok` leaves an existing path alone and `open(..., "w")` replaces the file |
| FileSystem.LastWrite | generate_feature.py:157 | the last write to a path exists exactly when some action writes it, and no later action does |
| FileSystem.RunAt | generate_feature.py:155-165 | after a run, a path holds its last write, or else what it held, or else a directory if some action created it; nothing else appears |
| FileSystem.RunIdempotent | generate_feature.py:173 | running the same actions twice leaves what running them once leaves |
| FileSystem.RunAppend | generate_feature.py:176 | running two action sequences in turn is running their concatenation |
| FileSystem.RunSnoc | generate_feature.py:176 | running one more action applies it to the result so far |
| FileSystem.Generated | generate_feature.py:248-251 | nothing changes when the base path is missing; otherwise every existing path is kept and the feature folder exists |
| FileSystem.GeneratedIdempotent | generate_feature.py:244-251 | running the script twice with the same answers leaves what running it once leaves |
| FileSystem.GeneratedIgnoresCase | generate_feature.py:246 | names that differ only in case generate the same feature |
| FileSystem.OnlyWrite | generate_feature.py:155-158 | in a plan that writes each path at most once, the last write to a written path is that one write |
| FileSystem.GeneratedFile | generate_feature.py:155-158 | for a name without `/`, every file the walk writes ends up holding exactly what was written to it |
| FileSystem.GeneratedRouter | generate_feature.py:228-231 | after the script runs, `<base>/<name>/<name>.router.dart` holds the filled router template |
| Layout.EntryRegion | generate_feature.py:177-237 | every file one entry of a dict writes is its own file, or lies beneath its own folder |
| Layout.RegionsDisjoint | generate_feature.py:177-237 | two entries with flat names, different folder keys and different file names write into disjoint places |
| Layout.OutsideRegion | generate_feature.py:176 | no file written by the later entries of a dict lands where an earlier, separate entry writes |
| Layout.GroupDistinct | generate_feature.py:186-217 | the files of a list-valued folder with different names are written at different paths |
| Layout.PlanDistinct | generate_feature.py:175-237 | `create_recursive` on a table whose entries are separate at every level writes no path twice |
| Layout.EntryDistinct | generate_feature.py:177-237 | one entry whose own dict or list is separate writes no path twice |
| Layout.FeatureTreeOk | generate_feature.py:4-37 | for a name without `/`, every two entries of every dict of `FEATURE_STRUCTURE` are separate |
| Layout.FeatureDistinct | generate_feature.py:168-173 | for a name without `/`, a feature writes each of its files once |
| Generator.RunPlanStep | generate_feature.py:176 | running the first `i + 1` entries is running the first `i`, then entry `i` |
| Generator.Disk.MakeDirs | generate_feature.py:180 | `os.makedirs(..., exist_ok=True)` adds the folder unless the path exists |
| Generator.Disk.CreateFile | generate_feature.py:155-158 | the file then holds exactly the given content |
| Generator.Disk.AddExportsToFile | generate_feature.py:161-165 | the file then holds each export line followed by a newline, in order, and nothing before them |
| Generator.Disk.WriteListedFile | generate_feature.py:187-217 | one listed file is written at its substituted name with the content the chain picks |
| Generator.Disk.WriteLeafFile | generate_feature.py:220-237 | one `None` key is written at its substituted name with the content the chain picks |
| Generator.Disk.CreateGroup | generate_feature.py:186-217 | the inner loop leaves the disk as running the listed files' writes would |
| Generator.Disk.CreateEntry | generate_feature.py:177-237 | one entry leaves the disk as running its planned actions would |
| Generator.Disk.CreateRecursive | generate_feature.py:175-181 | the walk over a dict leaves the disk as running its planned actions in order would |
| Generator.Disk.CreateFeatureStructure | generate_feature.py:168-173 | the feature folder is created, then the table walked beneath it |
| Generator.Disk.Generate | generate_feature.py:246-251 | the top level lower-cases the name and creates the feature only if the base path exists |

## Left out

- Reading the answers with `input()`, `.strip()`, and both `print` calls. The base path and the name are parameters, the name already stripped.
- FileSystem.RunAt, FileSystem.Generated: paths are not normalised; the map is keyed by the raw joined string. The operating system resolves `.`, `..` and empty components, so for the names `""`, `"."` and `".."` (which the script accepts, as it only strips and lower-cases) or a base path with such components, the script writes into `base` or its parent and overwrites existing files there, while the model writes to new keys such as `base/./domain/...` and reports those existing files as unchanged.
- Failures of the operating system are not modelled. These include `makedirs` on a path that is a file, a missing permission and a full disk. Every call is taken to succeed.
- `os.path.join` is modelled as joining with `/`. An absolute second argument or a trailing separator is not modelled.
- `os.makedirs` creating missing parent directories is not modelled: a folder creation adds only its own path. For a name without `/`, every folder a file is written in is created by an earlier action (`FolderBeforeContents`, `FeatureFolderFirst`). `os.path.exists` is membership in the map.
- A name holding `/` puts a `/` into file names such as `<name>.router.dart`. The script's `open` then fails on the missing folder, while the model writes the file; `GeneratedFile` and the `Layout` lemmas are stated only for names without `/`.
- `lower()` and `capitalize()` are ASCII only. Unicode case mapping is not modelled.
- Templates.SubstituteInstantiates: this assumes a name that fits the template. A name that does not fit can form a new token that the second `replace` then rescans, as `BraceInNameIsRescanned` shows. The router and implementation lemmas need a name without capitals, which the script's `lower()` guarantees.
- Templates.FilledRouterTemplate, Templates.FilledPageTemplate: these state the filled text as the pieces instantiated, not as one long literal string. The template text is written as pieces and flattened.
