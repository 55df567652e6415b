/** The boilerplate templates of generate_feature.py and the way a template is
    filled in: `template.replace("{feature}", name).replace("{Feature}", name.capitalize())`.

    A template is kept as a sequence of pieces, literal Dart text and the two
    placeholder tokens, so that what the chained `replace` does to it can be
    stated as "each token becomes the name, in lower or capitalised form". */
module Templates {
  import opened Text

  const LOWER_TOKEN := "{feature}"
  const UPPER_TOKEN := "{Feature}"

  /** What the tool does to a template before writing it. */
  function Substitute(template: string, name: string): string {
    Replace(Replace(template, LOWER_TOKEN, name), UPPER_TOKEN, Capitalize(name))
  }

  datatype Piece = Lit(text: string) | LowerName | UpperName

  /** The text of a template with `lower` for every `{feature}` token and
      `upper` for every `{Feature}` token. */
  function Instantiate(pieces: seq<Piece>, lower: string, upper: string): string {
    if pieces == [] then [] else PieceText(pieces[0], lower, upper) + Instantiate(pieces[1..], lower, upper)
  }

  function PieceText(p: Piece, lower: string, upper: string): string {
    match p
    case Lit(t) => t
    case LowerName => lower
    case UpperName => upper
  }

  lemma InstantiateCons(p: Piece, rest: seq<Piece>, lower: string, upper: string)
    ensures Instantiate([p] + rest, lower, upper) == PieceText(p, lower, upper) + Instantiate(rest, lower, upper)
  {
    assert ([p] + rest)[1..] == rest;
  }

  /** The template as it is written in the source, tokens included. */
  function Flatten(pieces: seq<Piece>): string {
    Instantiate(pieces, LOWER_TOKEN, UPPER_TOKEN)
  }

  /** No token can start inside literal text: every `{` in it is followed by
      something other than `f` or `F`, or, at the very end of the text, by a
      `{Feature}` token (as in Dart's `${{Feature}Router.basePath}`). */
  predicate SafeChunk(t: string, upperFollows: bool) {
    forall i :: 0 <= i < |t| && t[i] == '{' ==> SafeAfter(t, i, upperFollows)
  }

  /** What follows the `{` at index `i` of `t` cannot continue a token. */
  predicate SafeAfter(t: string, i: int, upperFollows: bool)
    requires 0 <= i < |t|
  {
    if i + 1 < |t| then t[i + 1] != 'f' && t[i + 1] != 'F' else upperFollows
  }

  predicate WellFormed(pieces: seq<Piece>) {
    forall k :: 0 <= k < |pieces| && pieces[k].Lit? ==>
      SafeChunk(pieces[k].text, UpperAfter(pieces, k))
  }

  /** The condition `WellFormed` puts on the piece at index `k`. */
  predicate UpperAfter(pieces: seq<Piece>, k: int) {
    0 <= k && k + 1 < |pieces| && pieces[k + 1].UpperName?
  }

  /** The piece after index `k` starts with a character other than `F`,
      so a `{` ending the text at `k` cannot begin a `{Feature}` token. */
  predicate NoFAfter(pieces: seq<Piece>, k: int) {
    0 <= k && k + 1 < |pieces| &&
    (pieces[k + 1].UpperName? ||
     (pieces[k + 1].Lit? && |pieces[k + 1].text| > 0 && pieces[k + 1].text[0] != 'F'))
  }

  /** Every `{` of the name is followed by something other than `F`: by the
      name's next character, or, for a final `{`, by the next piece when
      `nextOk`. */
  predicate NameSafe(name: string, nextOk: bool) {
    (forall i :: 0 <= i < |name| - 1 && name[i] == '{' ==> name[i + 1] != 'F') &&
    (|name| > 0 && name[|name| - 1] == '{' ==> nextOk)
  }

  /** Wherever the template puts the name, the name cannot form a
      `{Feature}` token with the text around it. */
  predicate NameFits(pieces: seq<Piece>, name: string) {
    forall k :: 0 <= k < |pieces| && pieces[k] == LowerName ==> NameSafe(name, NoFAfter(pieces, k))
  }

  /** Every `{feature}` token of the template is followed by a piece that
      starts with something other than `F`. */
  predicate LowerFollowed(pieces: seq<Piece>) {
    forall k :: 0 <= k < |pieces| && pieces[k] == LowerName ==> NoFAfter(pieces, k)
  }

  /** A name without capitals fits every template whose `{feature}` tokens
      are followed by something other than `F`. */
  lemma LowerNameFits(pieces: seq<Piece>, name: string)
    requires LowerFollowed(pieces) && IsLower(name)
    ensures NameFits(pieces, name)
  {
  }

  /** A template without `{feature}` tokens takes any name. */
  lemma NoTokenFits(pieces: seq<Piece>, name: string)
    requires LowerName !in pieces
    ensures NameFits(pieces, name)
  {
  }

  lemma NameFitsTail(pieces: seq<Piece>, name: string)
    requires pieces != [] && NameFits(pieces, name)
    ensures NameFits(pieces[1..], name)
  {
    forall k | 0 <= k < |pieces[1..]| && pieces[1..][k] == LowerName
      ensures NameSafe(name, NoFAfter(pieces[1..], k))
    {
      assert pieces[1..][k] == pieces[k + 1];
      if k + 1 < |pieces[1..]| {
        assert pieces[1..][k + 1] == pieces[k + 2];
      }
      assert NoFAfter(pieces[1..], k) == NoFAfter(pieces, k + 1);
    }
  }

  lemma LowerFollowedAppend(a: seq<Piece>, b: seq<Piece>)
    requires LowerFollowed(a) && LowerFollowed(b)
    ensures LowerFollowed(a + b)
  {
    var ps := a + b;
    forall k | 0 <= k < |ps| && ps[k] == LowerName ensures NoFAfter(ps, k) {
      if k < |a| {
        assert ps[k] == a[k] && ps[k + 1] == a[k + 1];
      } else {
        assert ps[k] == b[k - |a|];
        assert ps[k + 1] == b[k - |a| + 1];
      }
    }
  }

  /** A safe name followed by text that does not start with `F` (when the
      name ends in `{`) cannot start a `{Feature}` token. */
  lemma NameCannotStart(name: string, nextOk: bool, u: string)
    requires NameSafe(name, nextOk)
    requires nextOk ==> |u| > 0 && u[0] != 'F'
    ensures CannotStartIn(name, u, UPPER_TOKEN)
  {
    forall i | 0 <= i < |name| && name[i] == UPPER_TOKEN[0]
      ensures i + 1 < |name + u| && (name + u)[i + 1] != UPPER_TOKEN[1]
    {
      assert name[i] == '{' && UPPER_TOKEN[1] == 'F';
      if i + 1 < |name| {
        assert (name + u)[i + 1] == name[i + 1];
      } else {
        assert (name + u)[i + 1] == u[0];
      }
    }
  }

  lemma WellFormedTail(pieces: seq<Piece>)
    requires pieces != [] && WellFormed(pieces)
    ensures WellFormed(pieces[1..])
  {
    forall k | 0 <= k < |pieces[1..]| && pieces[1..][k].Lit?
      ensures SafeChunk(pieces[1..][k].text, UpperAfter(pieces[1..], k))
    {
      assert pieces[1..][k] == pieces[k + 1];
      assert SafeChunk(pieces[k + 1].text, UpperAfter(pieces, k + 1));
      if k + 1 < |pieces[1..]| {
        assert pieces[1..][k + 1] == pieces[k + 2];
      }
      assert UpperAfter(pieces[1..], k) == UpperAfter(pieces, k + 1);
    }
  }

  /** Literal text followed by a `{Feature}` token when it ends in `{`: no
      occurrence of either token can start inside it. */
  lemma SafeChunkCannotStart(t: string, upperFollows: bool, u: string, pat: string)
    requires SafeChunk(t, upperFollows)
    requires upperFollows ==> |u| > 0 && u[0] == '{'
    requires pat == LOWER_TOKEN || pat == UPPER_TOKEN
    ensures CannotStartIn(t, u, pat)
  {
    forall i | 0 <= i < |t| && t[i] == pat[0]
      ensures i + 1 < |t + u| && (t + u)[i + 1] != pat[1]
    {
      assert t[i] == '{';
      assert SafeAfter(t, i, upperFollows);
      if i + 1 < |t| {
        assert (t + u)[i + 1] == t[i + 1];
      } else {
        assert (t + u)[i + 1] == u[0];
      }
    }
  }

  lemma WellFormedCons(p: Piece, rest: seq<Piece>)
    requires p.Lit? ==> SafeChunk(p.text, UpperAfter([p] + rest, 0))
    requires WellFormed(rest)
    ensures WellFormed([p] + rest)
  {
    var ps := [p] + rest;
    forall k | 0 <= k < |ps| && ps[k].Lit?
      ensures SafeChunk(ps[k].text, UpperAfter(ps, k))
    {
      if k > 0 {
        assert ps[k] == rest[k - 1];
        assert SafeChunk(rest[k - 1].text, UpperAfter(rest, k - 1));
        if k + 1 < |ps| {
          assert ps[k + 1] == rest[k];
        }
        assert UpperAfter(rest, k - 1) == UpperAfter(ps, k);
      }
    }
  }

  /** The first `replace` turns every `{feature}` token into the name and
      leaves the `{Feature}` tokens in place. */
  lemma {:induction false} FirstPass(pieces: seq<Piece>, name: string)
    requires WellFormed(pieces)
    ensures Replace(Flatten(pieces), LOWER_TOKEN, name) == Instantiate(pieces, name, UPPER_TOKEN)
  {
    if pieces != [] {
      WellFormedTail(pieces);
      FirstPass(pieces[1..], name);
      FirstStep(pieces, name);
    }
  }

  /** The first `replace` across the first piece of a template. */
  lemma FirstStep(pieces: seq<Piece>, name: string)
    requires pieces != [] && WellFormed(pieces)
    ensures Replace(PieceText(pieces[0], LOWER_TOKEN, UPPER_TOKEN) + Flatten(pieces[1..]), LOWER_TOKEN, name)
      == PieceText(pieces[0], name, UPPER_TOKEN) + Replace(Flatten(pieces[1..]), LOWER_TOKEN, name)
  {
    var rest := Flatten(pieces[1..]);
    match pieces[0]
    case Lit(t) =>
      var upperFollows := UpperAfter(pieces, 0);
      assert SafeChunk(pieces[0].text, upperFollows);
      if upperFollows {
        assert pieces[1..][0] == pieces[1];
      }
      SafeChunkCannotStart(t, upperFollows, rest, LOWER_TOKEN);
      ReplaceSkips(t, rest, LOWER_TOKEN, name);
    case LowerName =>
      ReplaceFront(rest, LOWER_TOKEN, name);
    case UpperName =>
      assert CannotStartIn(UPPER_TOKEN, rest, LOWER_TOKEN) by {
        assert UPPER_TOKEN[1] == 'F';
      }
      ReplaceSkips(UPPER_TOKEN, rest, LOWER_TOKEN, name);
  }

  /** The second `replace` turns every `{Feature}` token into `upper`; a name
      that fits the template cannot form a new token with the text around it. */
  lemma {:induction false} SecondPass(pieces: seq<Piece>, name: string, upper: string)
    requires WellFormed(pieces) && NameFits(pieces, name)
    ensures Replace(Instantiate(pieces, name, UPPER_TOKEN), UPPER_TOKEN, upper) == Instantiate(pieces, name, upper)
  {
    if pieces != [] {
      WellFormedTail(pieces);
      NameFitsTail(pieces, name);
      SecondPass(pieces[1..], name, upper);
      SecondStep(pieces, name, upper);
    }
  }

  /** The second `replace` across the first piece of a template. */
  lemma SecondStep(pieces: seq<Piece>, name: string, upper: string)
    requires pieces != [] && WellFormed(pieces) && NameFits(pieces, name)
    ensures Replace(PieceText(pieces[0], name, UPPER_TOKEN) + Instantiate(pieces[1..], name, UPPER_TOKEN), UPPER_TOKEN, upper)
      == PieceText(pieces[0], name, upper) + Replace(Instantiate(pieces[1..], name, UPPER_TOKEN), UPPER_TOKEN, upper)
  {
    var rest := Instantiate(pieces[1..], name, UPPER_TOKEN);
    match pieces[0]
    case Lit(t) =>
      var upperFollows := UpperAfter(pieces, 0);
      assert SafeChunk(pieces[0].text, upperFollows);
      if upperFollows {
        assert pieces[1..][0] == pieces[1];
      }
      SafeChunkCannotStart(t, upperFollows, rest, UPPER_TOKEN);
      ReplaceSkips(t, rest, UPPER_TOKEN, upper);
    case LowerName =>
      var nextOk := NoFAfter(pieces, 0);
      assert NameSafe(name, nextOk);
      if nextOk {
        assert pieces[1..][0] == pieces[1];
        assert rest == PieceText(pieces[1], name, UPPER_TOKEN) + Instantiate(pieces[2..], name, UPPER_TOKEN) by {
          assert pieces[1..][1..] == pieces[2..];
        }
      }
      NameCannotStart(name, nextOk, rest);
      ReplaceSkips(name, rest, UPPER_TOKEN, upper);
    case UpperName =>
      ReplaceFront(rest, UPPER_TOKEN, upper);
  }

  /** Filling in a well-formed template puts the name at every `{feature}`
      token and the capitalised name at every `{Feature}` token, and changes
      nothing else. */
  lemma SubstituteInstantiates(pieces: seq<Piece>, name: string)
    requires WellFormed(pieces) && NameFits(pieces, name)
    ensures Substitute(Flatten(pieces), name) == Instantiate(pieces, name, Capitalize(name))
  {
    FirstPass(pieces, name);
    SecondPass(pieces, name, Capitalize(name));
  }

  /** For a name that does not fit the template, the second `replace`
      rescans text the first one inserted: a name `{` placed before literal
      `Feature}` becomes a `{Feature}` token and is replaced too. */
  lemma BraceInNameIsRescanned()
    ensures WellFormed(RESCAN_EXAMPLE) && !NameFits(RESCAN_EXAMPLE, "{")
    ensures Substitute(Flatten(RESCAN_EXAMPLE), "{") == "{"
    ensures Instantiate(RESCAN_EXAMPLE, "{", Capitalize("{")) == UPPER_TOKEN
  {
    var tail := "Feature}";
    assert RESCAN_EXAMPLE == [LowerName] + [Lit(tail)];
    BraceDoesNotFit("{", RESCAN_EXAMPLE);
    WellFormedCons(Lit(tail), []);
    WellFormedCons(LowerName, [Lit(tail)]);
    InstantiateCons(Lit(tail), [], LOWER_TOKEN, UPPER_TOKEN);
    InstantiateCons(LowerName, [Lit(tail)], LOWER_TOKEN, UPPER_TOKEN);
    assert Flatten(RESCAN_EXAMPLE) == LOWER_TOKEN + tail;
    InstantiateCons(Lit(tail), [], "{", "{");
    InstantiateCons(LowerName, [Lit(tail)], "{", "{");
    RescanReplaces(tail);
  }

  /** The name `{` directly before `Feature}` does not fit. */
  lemma BraceDoesNotFit(name: string, pieces: seq<Piece>)
    requires name == "{" && pieces == RESCAN_EXAMPLE
    ensures !NameFits(pieces, name)
  {
    assert !NoFAfter(pieces, 0);
    assert name[|name| - 1] == '{';
  }

  /** The two `replace` calls on `{feature}Feature}` with the name `{`. */
  lemma RescanReplaces(tail: string)
    requires tail == "Feature}"
    ensures Substitute(LOWER_TOKEN + tail, "{") == "{"
    ensures "{" + tail == UPPER_TOKEN && Capitalize("{") == "{"
  {
    RescanFirst(tail);
    assert Capitalize("{") == "{";
    RescanSecond();
  }

  /** The first `replace` leaves `{Feature}`. */
  lemma RescanFirst(tail: string)
    requires tail == "Feature}"
    ensures Replace(LOWER_TOKEN + tail, LOWER_TOKEN, "{") == UPPER_TOKEN
    ensures "{" + tail == UPPER_TOKEN
  {
    RescanFirstSteps(tail, LOWER_TOKEN, "{");
  }

  lemma RescanFirstSteps(tail: string, token: string, brace: string)
    requires tail == "Feature}" && token == LOWER_TOKEN && brace == "{"
    ensures Replace(token + tail, token, brace) == brace + tail
  {
    assert Replace(token + tail, token, brace) == brace + Replace(tail, token, brace) by {
      ReplaceFront(tail, token, brace);
    }
    assert Replace(tail, token, brace) == tail by {
      ReplaceAbsent(tail, token, brace);
    }
  }

  /** The second `replace` consumes the whole of `{Feature}`. */
  lemma RescanSecond()
    ensures Replace(UPPER_TOKEN, UPPER_TOKEN, "{") == "{"
  {
    ReplaceFront([], UPPER_TOKEN, "{");
    assert UPPER_TOKEN + [] == UPPER_TOKEN;
  }

  /** The template `{feature}Feature}`. */
  const RESCAN_EXAMPLE := [LowerName, Lit("Feature}")]

  // The templates of generate_feature.py, token by token, in groups small
  // enough for their well-formedness to be checked one group at a time.

  // The router template: imports, the route-path extension, the routes enum
  // and the router class.
  const ROUTER_IMPORTS := [
    Lit("\nimport 'package:go_router/"), Lit("go_router.dart';\n"),
    Lit("\nimport '_"), LowerName, Lit(".dart';\n")
  ]

  const ROUTER_EXTENSION := [
    Lit("\nextension FullPath on "), UpperName, Lit("RoutesEnum {\n"),
    Lit("  String get fullPath => '${"), UpperName, Lit("Router.basePath}/$routePath';\n"),
    Lit("}\n")
  ]

  const ROUTER_ENUM_VALUES := [
    Lit("\nenum "), UpperName, Lit("RoutesEnum {\n"),
    Lit("  "), LowerName, Lit("('"), LowerName, Lit("', '"), LowerName, Lit("');\n")
  ]

  const ROUTER_ENUM_CONSTRUCTOR := [
    Lit("\n  const "), UpperName, Lit("RoutesEnum(\n"),
    Lit("    this.routePath,\n"), Lit("    this.routeName,\n"), Lit("  );\n")
  ]

  const ROUTER_ENUM_FIELDS := [
    Lit("\n  final String routePath;\n"), Lit("  final String routeName;\n"), Lit("}\n")
  ]

  const ROUTER_CLASS_HEAD := [
    Lit("\nclass "), UpperName, Lit("Router {\n"),
    Lit("  "), UpperName, Lit("Router._();\n")
  ]

  const ROUTER_BASE_PATH := [
    Lit("\n  static const String "), Lit("basePath = '/"), LowerName, Lit("';\n")
  ]

  const ROUTER_ROUTE_NAME := [
    Lit("\n  static List<RouteBase> routes = [\n"),
    Lit("    GoRoute(\n      name: "), UpperName, Lit("RoutesEnum."), LowerName, Lit(".routeName,\n")
  ]

  const ROUTER_ROUTE_PATH := [
    Lit("      path: "), UpperName, Lit("RoutesEnum."), LowerName, Lit(".fullPath,\n")
  ]

  const ROUTER_ROUTE_BUILDER := [
    Lit("      builder: (context, state)"), Lit(" => const "), UpperName, Lit("Page(),\n"),
    Lit("    ),\n  ];\n}\n")
  ]

  const ROUTER_PIECES := ROUTER_IMPORTS + ROUTER_EXTENSION
    + ROUTER_ENUM_VALUES + ROUTER_ENUM_CONSTRUCTOR + ROUTER_ENUM_FIELDS
    + ROUTER_CLASS_HEAD + ROUTER_BASE_PATH + ROUTER_ROUTE_NAME + ROUTER_ROUTE_PATH + ROUTER_ROUTE_BUILDER

  // The page template: a stateless widget building an empty scaffold.
  const PAGE_HEAD := [
    Lit("\nimport 'package:flutter/"), Lit("material.dart';\n\nclass "), UpperName,
    Lit("Page extends StatelessWidget {\n")
  ]

  const PAGE_CONSTRUCTOR := [
    Lit("  const "), UpperName, Lit("Page({super.key});\n"), Lit("\n  @override\n")
  ]

  const PAGE_BUILD := [
    Lit("  Widget build("), Lit("BuildContext context) {\n"),
    Lit("    return const "), Lit("Scaffold();\n  }\n}\n")
  ]

  const PAGE_PIECES := PAGE_HEAD + PAGE_CONSTRUCTOR + PAGE_BUILD

  const REPOSITORY_PIECES := [
    Lit("\nabstract class "), UpperName, Lit("Repository {}\n")
  ]

  const DATASOURCE_IMPL_PIECES := [
    Lit("\nimport '../../_"), LowerName,
    Lit(".dart';\n\nclass "), UpperName,
    Lit("DatasourceImpl implements "), UpperName,
    Lit("Datasource {}\n")
  ]

  const DATASOURCE_PIECES := [
    Lit("\nabstract class "), UpperName, Lit("Datasource {}\n")
  ]

  const REPOSITORY_IMPL_PIECES := [
    Lit("\nimport '../../_"), LowerName,
    Lit(".dart';\n\nclass "), UpperName,
    Lit("RepositoryImpl implements "), UpperName,
    Lit("Repository {}\n")
  ]

  const ROUTER_TEMPLATE := Flatten(ROUTER_PIECES)
  const PAGE_TEMPLATE := Flatten(PAGE_PIECES)
  const REPOSITORY_TEMPLATE := Flatten(REPOSITORY_PIECES)
  const DATASOURCE_IMPL_TEMPLATE := Flatten(DATASOURCE_IMPL_PIECES)
  const DATASOURCE_TEMPLATE := Flatten(DATASOURCE_PIECES)
  const REPOSITORY_IMPL_TEMPLATE := Flatten(REPOSITORY_IMPL_PIECES)

  /** `abstract class <Name>Repository {}`. */
  lemma FilledRepositoryTemplate(name: string)
    ensures Substitute(REPOSITORY_TEMPLATE, name) ==
      "\nabstract class " + Capitalize(name) + "Repository {}\n"
  {
    RepositoryTemplateWellFormed();
    NoTokenFits(REPOSITORY_PIECES, name);
    SubstituteInstantiates(REPOSITORY_PIECES, name);
    var cap := Capitalize(name);
    InstantiateCons(Lit("Repository {}\n"), [], name, cap);
    InstantiateCons(UpperName, [Lit("Repository {}\n")], name, cap);
    InstantiateCons(Lit("\nabstract class "), [UpperName, Lit("Repository {}\n")], name, cap);
  }

  /** `abstract class <Name>Datasource {}`. */
  lemma FilledDatasourceTemplate(name: string)
    ensures Substitute(DATASOURCE_TEMPLATE, name) ==
      "\nabstract class " + Capitalize(name) + "Datasource {}\n"
  {
    DatasourceTemplateWellFormed();
    NoTokenFits(DATASOURCE_PIECES, name);
    SubstituteInstantiates(DATASOURCE_PIECES, name);
    var cap := Capitalize(name);
    InstantiateCons(Lit("Datasource {}\n"), [], name, cap);
    InstantiateCons(UpperName, [Lit("Datasource {}\n")], name, cap);
    InstantiateCons(Lit("\nabstract class "), [UpperName, Lit("Datasource {}\n")], name, cap);
  }

  /** The implementation imports the feature's barrel file `_<name>.dart` and
      implements `<Name>Datasource`. */
  lemma FilledDatasourceImplTemplate(name: string)
    requires IsLower(name)
    ensures Substitute(DATASOURCE_IMPL_TEMPLATE, name) ==
      "\nimport '../../_" + name + ".dart';\n\nclass " + Capitalize(name) +
      "DatasourceImpl implements " + Capitalize(name) + "Datasource {}\n"
  {
    DatasourceImplTemplateWellFormed();
    ImplLowerFollowed(DATASOURCE_IMPL_PIECES, "\nimport '../../_", ".dart';\n\nclass ", "DatasourceImpl implements ", "Datasource {}\n");
    LowerNameFits(DATASOURCE_IMPL_PIECES, name);
    SubstituteInstantiates(DATASOURCE_IMPL_PIECES, name);
    ImplShape("\nimport '../../_", ".dart';\n\nclass ", "DatasourceImpl implements ", "Datasource {}\n", name, Capitalize(name));
  }

  /** The implementation imports the feature's barrel file `_<name>.dart` and
      implements `<Name>Repository`. */
  lemma FilledRepositoryImplTemplate(name: string)
    requires IsLower(name)
    ensures Substitute(REPOSITORY_IMPL_TEMPLATE, name) ==
      "\nimport '../../_" + name + ".dart';\n\nclass " + Capitalize(name) +
      "RepositoryImpl implements " + Capitalize(name) + "Repository {}\n"
  {
    RepositoryImplTemplateWellFormed();
    ImplLowerFollowed(REPOSITORY_IMPL_PIECES, "\nimport '../../_", ".dart';\n\nclass ", "RepositoryImpl implements ", "Repository {}\n");
    LowerNameFits(REPOSITORY_IMPL_PIECES, name);
    SubstituteInstantiates(REPOSITORY_IMPL_PIECES, name);
    ImplShape("\nimport '../../_", ".dart';\n\nclass ", "RepositoryImpl implements ", "Repository {}\n", name, Capitalize(name));
  }

  /** The router file: every `{feature}` of the template becomes the name and
      every `{Feature}` its capitalised form, and nothing else changes. */
  lemma FilledRouterTemplate(name: string)
    requires IsLower(name)
    ensures Substitute(ROUTER_TEMPLATE, name) == Instantiate(ROUTER_PIECES, name, Capitalize(name))
  {
    RouterTemplateWellFormed();
    RouterLowerFollowed();
    LowerNameFits(ROUTER_PIECES, name);
    SubstituteInstantiates(ROUTER_PIECES, name);
  }

  /** The page file, filled in the same way. */
  lemma FilledPageTemplate(name: string)
    ensures Substitute(PAGE_TEMPLATE, name) == Instantiate(PAGE_PIECES, name, Capitalize(name))
  {
    PageTemplateWellFormed();
    PageHasNoToken();
    NoTokenFits(PAGE_PIECES, name);
    SubstituteInstantiates(PAGE_PIECES, name);
  }

  /** Both implementation templates share one shape: a literal, the lowered
      name, a literal, the capitalised name twice with literals between. */
  lemma ImplShape(a: string, b: string, c: string, d: string, lower: string, upper: string)
    ensures Instantiate([Lit(a), LowerName, Lit(b), UpperName, Lit(c), UpperName, Lit(d)], lower, upper)
      == a + lower + b + upper + c + upper + d
  {
    var ps := [Lit(a), LowerName, Lit(b), UpperName, Lit(c), UpperName, Lit(d)];
    InstantiateCons(ps[6], [], lower, upper);
    InstantiateCons(ps[5], ps[6..], lower, upper);
    InstantiateCons(ps[4], ps[5..], lower, upper);
    InstantiateCons(ps[3], ps[4..], lower, upper);
    InstantiateCons(ps[2], ps[3..], lower, upper);
    InstantiateCons(ps[1], ps[2..], lower, upper);
    InstantiateCons(ps[0], ps[1..], lower, upper);
  }

  /** The lowered name in both implementation templates is followed by
      `.dart`. */
  lemma ImplLowerFollowed(ps: seq<Piece>, a: string, b: string, c: string, d: string)
    requires ps == [Lit(a), LowerName, Lit(b), UpperName, Lit(c), UpperName, Lit(d)]
    requires |b| > 0 && b[0] == '.'
    ensures LowerFollowed(ps)
  {
  }

  /** The page template names the feature only in capitalised form. */
  lemma PageHasNoToken()
    ensures LowerName !in PAGE_PIECES
  {
    assert LowerName !in PAGE_HEAD;
    assert LowerName !in PAGE_CONSTRUCTOR;
    assert LowerName !in PAGE_BUILD;
  }

  /** Every `{feature}` token of the router template is followed by something
      other than `F`: a quote, `(`, a dot or `.dart`. */
  lemma RouterLowerFollowed()
    ensures LowerFollowed(ROUTER_PIECES)
  {
    var ps := ROUTER_IMPORTS;
    RouterImportsFollowed();
    RouterEnumValuesFollowed();
    RouterRouteFollowed();
    assert LowerFollowed(ROUTER_EXTENSION);
    LowerFollowedAppend(ps, ROUTER_EXTENSION);
    ps := ps + ROUTER_EXTENSION;
    LowerFollowedAppend(ps, ROUTER_ENUM_VALUES);
    ps := ps + ROUTER_ENUM_VALUES;
    assert LowerFollowed(ROUTER_ENUM_CONSTRUCTOR);
    LowerFollowedAppend(ps, ROUTER_ENUM_CONSTRUCTOR);
    ps := ps + ROUTER_ENUM_CONSTRUCTOR;
    assert LowerFollowed(ROUTER_ENUM_FIELDS);
    LowerFollowedAppend(ps, ROUTER_ENUM_FIELDS);
    ps := ps + ROUTER_ENUM_FIELDS;
    assert LowerFollowed(ROUTER_CLASS_HEAD);
    LowerFollowedAppend(ps, ROUTER_CLASS_HEAD);
    ps := ps + ROUTER_CLASS_HEAD;
    LowerFollowedAppend(ps, ROUTER_BASE_PATH);
    ps := ps + ROUTER_BASE_PATH;
    LowerFollowedAppend(ps, ROUTER_ROUTE_NAME);
    ps := ps + ROUTER_ROUTE_NAME;
    LowerFollowedAppend(ps, ROUTER_ROUTE_PATH);
    ps := ps + ROUTER_ROUTE_PATH;
    assert LowerFollowed(ROUTER_ROUTE_BUILDER);
    LowerFollowedAppend(ps, ROUTER_ROUTE_BUILDER);
    ps := ps + ROUTER_ROUTE_BUILDER;
  }

  lemma RouterImportsFollowed()
    ensures LowerFollowed(ROUTER_IMPORTS)
  {
  }

  lemma RouterEnumValuesFollowed()
    ensures LowerFollowed(ROUTER_ENUM_VALUES)
  {
  }

  lemma RouterRouteFollowed()
    ensures LowerFollowed(ROUTER_BASE_PATH) && LowerFollowed(ROUTER_ROUTE_NAME)
    ensures LowerFollowed(ROUTER_ROUTE_PATH)
  {
  }

  lemma WellFormedAppend(a: seq<Piece>, b: seq<Piece>)
    requires WellFormed(a) && WellFormed(b)
    ensures WellFormed(a + b)
  {
    var ps := a + b;
    forall k | 0 <= k < |ps| && ps[k].Lit?
      ensures SafeChunk(ps[k].text, UpperAfter(ps, k))
    {
      if k < |a| {
        assert ps[k] == a[k];
        assert SafeChunk(a[k].text, UpperAfter(a, k));
        if k + 1 < |a| {
          assert ps[k + 1] == a[k + 1];
          assert UpperAfter(a, k) == UpperAfter(ps, k);
        } else {
          var t := a[k].text;
          forall i | 0 <= i < |t| && t[i] == '{'
            ensures SafeAfter(t, i, UpperAfter(ps, k))
          {
            assert SafeAfter(t, i, false);
          }
        }
      } else {
        assert ps[k] == b[k - |a|];
        assert SafeChunk(b[k - |a|].text, UpperAfter(b, k - |a|));
        if k + 1 < |ps| {
          assert ps[k + 1] == b[k - |a| + 1];
        }
        assert UpperAfter(b, k - |a|) == UpperAfter(ps, k);
      }
    }
  }

  /** No token can start inside the router template's literal text, so
      substitution fills exactly its token positions. */
  lemma RouterTemplateWellFormed()
    ensures WellFormed(ROUTER_PIECES)
  {
    RouterImportsWellFormed();
    var ps := ROUTER_IMPORTS;
    RouterExtensionWellFormed();
    WellFormedAppend(ps, ROUTER_EXTENSION);
    ps := ps + ROUTER_EXTENSION;
    RouterEnumValuesWellFormed();
    WellFormedAppend(ps, ROUTER_ENUM_VALUES);
    ps := ps + ROUTER_ENUM_VALUES;
    RouterEnumConstructorWellFormed();
    WellFormedAppend(ps, ROUTER_ENUM_CONSTRUCTOR);
    ps := ps + ROUTER_ENUM_CONSTRUCTOR;
    RouterEnumFieldsWellFormed();
    WellFormedAppend(ps, ROUTER_ENUM_FIELDS);
    ps := ps + ROUTER_ENUM_FIELDS;
    RouterClassHeadWellFormed();
    WellFormedAppend(ps, ROUTER_CLASS_HEAD);
    ps := ps + ROUTER_CLASS_HEAD;
    RouterBasePathWellFormed();
    WellFormedAppend(ps, ROUTER_BASE_PATH);
    ps := ps + ROUTER_BASE_PATH;
    RouterRouteNameWellFormed();
    WellFormedAppend(ps, ROUTER_ROUTE_NAME);
    ps := ps + ROUTER_ROUTE_NAME;
    RouterRoutePathWellFormed();
    WellFormedAppend(ps, ROUTER_ROUTE_PATH);
    ps := ps + ROUTER_ROUTE_PATH;
    RouterRouteBuilderWellFormed();
    WellFormedAppend(ps, ROUTER_ROUTE_BUILDER);
    ps := ps + ROUTER_ROUTE_BUILDER;
  }


  /** Likewise for the page template. */
  lemma PageTemplateWellFormed()
    ensures WellFormed(PAGE_PIECES)
  {
    PageHeadWellFormed();
    PageConstructorWellFormed();
    PageBuildWellFormed();
    WellFormedAppend(PAGE_HEAD, PAGE_CONSTRUCTOR);
    WellFormedAppend(PAGE_HEAD + PAGE_CONSTRUCTOR, PAGE_BUILD);
  }

  // Safety of each literal, a few at a time, then each group by cons. Each
  // literal's check unfolds `SafeChunk` over every one of its characters;
  // keeping two or three literals per lemma keeps each of those proofs small
  // enough for the solver, where one lemma per group runs out of resource.

  lemma RouterImportsText1()
    ensures SafeChunk("\nimport 'package:go_router/", false)
    ensures SafeChunk("go_router.dart';\n", false)
  {
  }

  lemma RouterImportsText2()
    ensures SafeChunk("\nimport '_", false)
    ensures SafeChunk(".dart';\n", false)
  {
  }

  lemma RouterImportsWellFormed()
    ensures WellFormed(ROUTER_IMPORTS)
  {
    RouterImportsText1();
    RouterImportsText2();
  }

  lemma RouterExtensionText1()
    ensures SafeChunk("\nextension FullPath on ", true)
    ensures SafeChunk("RoutesEnum {\n", false)
  {
  }

  lemma RouterExtensionText2()
    ensures SafeChunk("  String get fullPath => '${", true)
  {
  }

  lemma RouterExtensionText3()
    ensures SafeChunk("Router.basePath}/$routePath';\n", false)
    ensures SafeChunk("}\n", false)
  {
  }

  lemma RouterExtensionWellFormed()
    ensures WellFormed(ROUTER_EXTENSION)
  {
    RouterExtensionText1();
    RouterExtensionText2();
    RouterExtensionText3();
  }

  lemma RouterEnumValuesText()
    ensures SafeChunk("\nenum ", true)
    ensures SafeChunk("RoutesEnum {\n", false)
    ensures SafeChunk("  ", false)
    ensures SafeChunk("('", false)
    ensures SafeChunk("', '", false)
    ensures SafeChunk("');\n", false)
  {
  }

  lemma RouterEnumValuesWellFormed()
    ensures WellFormed(ROUTER_ENUM_VALUES)
  {
    RouterEnumValuesText();
  }

  lemma RouterEnumConstructorText1()
    ensures SafeChunk("\n  const ", true)
    ensures SafeChunk("RoutesEnum(\n", false)
    ensures SafeChunk("    this.routePath,\n", false)
  {
  }

  lemma RouterEnumConstructorText2()
    ensures SafeChunk("    this.routeName,\n", false)
    ensures SafeChunk("  );\n", false)
  {
  }

  lemma RouterEnumConstructorWellFormed()
    ensures WellFormed(ROUTER_ENUM_CONSTRUCTOR)
  {
    RouterEnumConstructorText1();
    RouterEnumConstructorText2();
  }

  lemma RouterEnumFieldsText1()
    ensures SafeChunk("\n  final String routePath;\n", false)
  {
  }

  lemma RouterEnumFieldsText2()
    ensures SafeChunk("  final String routeName;\n", false)
    ensures SafeChunk("}\n", false)
  {
  }

  lemma RouterEnumFieldsWellFormed()
    ensures WellFormed(ROUTER_ENUM_FIELDS)
  {
    RouterEnumFieldsText1();
    RouterEnumFieldsText2();
  }

  lemma RouterClassHeadText()
    ensures SafeChunk("\nclass ", true)
    ensures SafeChunk("Router {\n", false)
    ensures SafeChunk("  ", true)
    ensures SafeChunk("Router._();\n", false)
  {
  }

  lemma RouterClassHeadWellFormed()
    ensures WellFormed(ROUTER_CLASS_HEAD)
  {
    RouterClassHeadText();
  }

  lemma RouterBasePathText()
    ensures SafeChunk("\n  static const String ", false)
    ensures SafeChunk("basePath = '/", false)
    ensures SafeChunk("';\n", false)
  {
  }

  lemma RouterBasePathWellFormed()
    ensures WellFormed(ROUTER_BASE_PATH)
  {
    RouterBasePathText();
  }

  lemma RouterRouteNameText1()
    ensures SafeChunk("\n  static List<RouteBase> routes = [\n", false)
  {
  }

  lemma RouterRouteNameText2()
    ensures SafeChunk("    GoRoute(\n      name: ", true)
    ensures SafeChunk("RoutesEnum.", false)
  {
  }

  lemma RouterRouteNameText3()
    ensures SafeChunk(".routeName,\n", false)
  {
  }

  lemma RouterRouteNameWellFormed()
    ensures WellFormed(ROUTER_ROUTE_NAME)
  {
    RouterRouteNameText1();
    RouterRouteNameText2();
    RouterRouteNameText3();
  }

  lemma RouterRoutePathText()
    ensures SafeChunk("      path: ", true)
    ensures SafeChunk("RoutesEnum.", false)
    ensures SafeChunk(".fullPath,\n", false)
  {
  }

  lemma RouterRoutePathWellFormed()
    ensures WellFormed(ROUTER_ROUTE_PATH)
  {
    RouterRoutePathText();
  }

  lemma RouterRouteBuilderText1()
    ensures SafeChunk("      builder: (context, state)", false)
    ensures SafeChunk(" => const ", true)
  {
  }

  lemma RouterRouteBuilderText2()
    ensures SafeChunk("Page(),\n", false)
    ensures SafeChunk("    ),\n  ];\n}\n", false)
  {
  }

  lemma RouterRouteBuilderWellFormed()
    ensures WellFormed(ROUTER_ROUTE_BUILDER)
  {
    RouterRouteBuilderText1();
    RouterRouteBuilderText2();
  }

  lemma PageHeadText1()
    ensures SafeChunk("\nimport 'package:flutter/", false)
  {
  }

  lemma PageHeadText2()
    ensures SafeChunk("material.dart';\n\nclass ", true)
  {
  }

  lemma PageHeadText3()
    ensures SafeChunk("Page extends StatelessWidget {\n", false)
  {
  }

  lemma PageHeadWellFormed()
    ensures WellFormed(PAGE_HEAD)
  {
    PageHeadText1();
    PageHeadText2();
    PageHeadText3();
  }

  lemma PageConstructorText()
    ensures SafeChunk("  const ", true)
    ensures SafeChunk("Page({super.key});\n", false)
    ensures SafeChunk("\n  @override\n", false)
  {
  }

  lemma PageConstructorWellFormed()
    ensures WellFormed(PAGE_CONSTRUCTOR)
  {
    PageConstructorText();
  }

  lemma PageBuildText1()
    ensures SafeChunk("  Widget build(", false)
    ensures SafeChunk("BuildContext context) {\n", false)
  {
  }

  lemma PageBuildText2()
    ensures SafeChunk("    return const ", false)
    ensures SafeChunk("Scaffold();\n  }\n}\n", false)
  {
  }

  lemma PageBuildWellFormed()
    ensures WellFormed(PAGE_BUILD)
  {
    PageBuildText1();
    PageBuildText2();
  }

  lemma RepositoryTemplateText()
    ensures SafeChunk("\nabstract class ", true)
    ensures SafeChunk("Repository {}\n", false)
  {
  }

  lemma RepositoryTemplateWellFormed()
    ensures WellFormed(REPOSITORY_PIECES)
  {
    RepositoryTemplateText();
  }

  lemma DatasourceTemplateText()
    ensures SafeChunk("\nabstract class ", true)
    ensures SafeChunk("Datasource {}\n", false)
  {
  }

  lemma DatasourceTemplateWellFormed()
    ensures WellFormed(DATASOURCE_PIECES)
  {
    DatasourceTemplateText();
  }

  lemma DatasourceImplTemplateText1()
    ensures SafeChunk("\nimport '../../_", false)
    ensures SafeChunk(".dart';\n\nclass ", true)
  {
  }

  lemma DatasourceImplTemplateText2()
    ensures SafeChunk("DatasourceImpl implements ", true)
    ensures SafeChunk("Datasource {}\n", false)
  {
  }

  lemma DatasourceImplTemplateWellFormed()
    ensures WellFormed(DATASOURCE_IMPL_PIECES)
  {
    DatasourceImplTemplateText1();
    DatasourceImplTemplateText2();
  }

  lemma RepositoryImplTemplateText1()
    ensures SafeChunk("\nimport '../../_", false)
    ensures SafeChunk(".dart';\n\nclass ", true)
  {
  }

  lemma RepositoryImplTemplateText2()
    ensures SafeChunk("RepositoryImpl implements ", true)
    ensures SafeChunk("Repository {}\n", false)
  {
  }

  lemma RepositoryImplTemplateWellFormed()
    ensures WellFormed(REPOSITORY_IMPL_PIECES)
  {
    RepositoryImplTemplateText1();
    RepositoryImplTemplateText2();
  }
}
