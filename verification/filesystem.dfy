/** The filesystem the generator works on, reduced to a map from path to
    entry, and the effect of running a sequence of actions on it.
    `os.makedirs(path, exist_ok=True)` leaves an existing path alone and
    otherwise adds a directory; `open(path, "w")` replaces whatever the file
    held. */
module FileSystem {
  import opened Text
  import opened Structure
  import opened Layout
  import opened Templates
  import opened FeatureFiles

  datatype Entry = Directory | File(content: string)

  type FileMap = map<string, Entry>

  datatype Option<T> = None | Some(value: T)

  /** One action. Only the action's own path can change. */
  function Apply(fs: FileMap, a: Action): (r: FileMap)
    ensures r.Keys == fs.Keys + {a.path}
    ensures forall p :: p in fs && p != a.path ==> r[p] == fs[p]
    ensures a.WriteFile? ==> r[a.path] == File(a.content)
    ensures a.MakeDir? && a.path in fs ==> r[a.path] == fs[a.path]
    ensures a.MakeDir? && a.path !in fs ==> r[a.path] == Directory
  {
    match a
    case MakeDir(path) => if path in fs then fs else fs[path := Directory]
    case WriteFile(path, content) => fs[path := File(content)]
  }

  /** The actions, first to last. */
  function Run(fs: FileMap, plan: seq<Action>): FileMap
    decreases |plan|
  {
    if plan == [] then fs else Run(Apply(fs, plan[0]), plan[1..])
  }

  /** The action writes the file `p`. */
  predicate Writes(a: Action, p: string) {
    a.WriteFile? && a.path == p
  }

  /** The content of the last write to `p`, if any. */
  function LastWrite(plan: seq<Action>, p: string): (r: Option<string>)
    ensures r.Some? <==> exists i :: 0 <= i < |plan| && Writes(plan[i], p)
    ensures r.Some? ==>
      exists i :: 0 <= i < |plan| && plan[i] == WriteFile(p, r.value) && forall j :: i < j < |plan| ==> !Writes(plan[j], p)
  {
    if plan == [] then None
    else
      var later := LastWrite(plan[1..], p);
      assert forall i :: 0 <= i < |plan[1..]| ==> plan[1..][i] == plan[i + 1];
      if later.Some? then later
      else if Writes(plan[0], p) then Some(plan[0].content)
      else None
  }

  /** Some action creates the directory `p`. */
  predicate MakesDir(plan: seq<Action>, p: string) {
    exists i :: 0 <= i < |plan| && plan[i] == MakeDir(p)
  }

  /** After a run, a path holds the content of its last write; a path that
      was never written keeps what it held, or is a directory if some action
      created it; any other path is absent. */
  lemma {:induction false} RunAt(fs: FileMap, plan: seq<Action>, p: string)
    ensures p in Run(fs, plan) <==> LastWrite(plan, p).Some? || p in fs || MakesDir(plan, p)
    ensures p in Run(fs, plan) ==>
      Run(fs, plan)[p] == if LastWrite(plan, p).Some? then File(LastWrite(plan, p).value)
                          else if p in fs then fs[p]
                          else Directory
    decreases |plan|
  {
    if plan != [] {
      var fs1 := Apply(fs, plan[0]);
      RunAt(fs1, plan[1..], p);
      assert MakesDir(plan, p) <==> plan[0] == MakeDir(p) || MakesDir(plan[1..], p) by {
        if MakesDir(plan[1..], p) {
          var i :| 0 <= i < |plan[1..]| && plan[1..][i] == MakeDir(p);
          assert plan[i + 1] == MakeDir(p);
        }
        if MakesDir(plan, p) && plan[0] != MakeDir(p) {
          var i :| 0 <= i < |plan| && plan[i] == MakeDir(p);
          assert plan[1..][i - 1] == MakeDir(p);
        }
      }
    }
  }

  /** Running the same actions a second time changes nothing: directories
      that exist are left alone and every file is rewritten with what it
      already holds. */
  lemma RunIdempotent(fs: FileMap, plan: seq<Action>)
    ensures Run(Run(fs, plan), plan) == Run(fs, plan)
  {
    var once := Run(fs, plan);
    var twice := Run(once, plan);
    forall p | p in once || p in twice
      ensures p in once && p in twice && twice[p] == once[p]
    {
      RunAt(fs, plan, p);
      RunAt(once, plan, p);
    }
    assert twice.Keys == once.Keys;
  }

  /** A run never removes a path. */
  lemma RunKeeps(fs: FileMap, plan: seq<Action>, p: string)
    requires p in fs
    ensures p in Run(fs, plan)
  {
    RunAt(fs, plan, p);
  }

  /** Running two sequences one after the other is running their
      concatenation. */
  lemma {:induction false} RunAppend(fs: FileMap, a: seq<Action>, b: seq<Action>)
    ensures Run(fs, a + b) == Run(Run(fs, a), b)
    decreases |a|
  {
    if a == [] {
      assert a + b == b;
    } else {
      assert (a + b)[1..] == a[1..] + b;
      RunAppend(Apply(fs, a[0]), a[1..], b);
    }
  }

  /** Running the first `k + 1` actions is running the first `k`, then
      action `k`. */
  lemma RunSnoc(fs: FileMap, plan: seq<Action>, k: int)
    requires 0 <= k < |plan|
    ensures Run(fs, plan[..k + 1]) == Apply(Run(fs, plan[..k]), plan[k])
  {
    assert plan[..k + 1] == plan[..k] + [plan[k]];
    RunAppend(fs, plan[..k], [plan[k]]);
  }

  /** What the script does to the filesystem: if the base directory exists,
      it creates the feature under it, with the name lower-cased; otherwise
      nothing happens. */
  function Generated(fs: FileMap, base: string, featureName: string): (r: FileMap)
    ensures base !in fs ==> r == fs
    ensures base in fs ==> fs.Keys <= r.Keys && FeatureFolder(base, Lower(featureName)) in r
  {
    if base in fs then
      var plan := FeaturePlan(base, Lower(featureName));
      assert plan[0] == MakeDir(FeatureFolder(base, Lower(featureName)));
      RunAt(fs, plan, FeatureFolder(base, Lower(featureName)));
      forall p | p in fs ensures p in Run(fs, plan) { RunKeeps(fs, plan, p); }
      Run(fs, plan)
    else fs
  }

  /** Running the script twice with the same answers gives what running it
      once gives. */
  lemma GeneratedIdempotent(fs: FileMap, base: string, featureName: string)
    ensures Generated(Generated(fs, base, featureName), base, featureName) == Generated(fs, base, featureName)
  {
    if base in fs {
      RunIdempotent(fs, FeaturePlan(base, Lower(featureName)));
    }
  }

  /** The feature name is lower-cased before use, so names that differ only
      in case generate the same feature. */
  lemma GeneratedIgnoresCase(fs: FileMap, base: string, featureName: string)
    ensures Generated(fs, base, Lower(featureName)) == Generated(fs, base, featureName)
  {
    LowerIdempotent(featureName);
  }

  /** In a plan that writes each path at most once, the content written to
      a path is the one its last write leaves. */
  lemma OnlyWrite(plan: seq<Action>, p: string, c: string)
    requires WritesDistinct(plan) && WriteFile(p, c) in plan
    ensures LastWrite(plan, p) == Some(c)
  {
    var i :| 0 <= i < |plan| && plan[i] == WriteFile(p, c);
    assert Writes(plan[i], p);
    var j :| 0 <= j < |plan| && plan[j] == WriteFile(p, LastWrite(plan, p).value) &&
             forall k :: j < k < |plan| ==> !Writes(plan[k], p);
    assert i == j;
  }

  /** Every file the plan writes ends up holding exactly what the plan
      writes to it: no later write overwrites it. */
  lemma GeneratedFile(fs: FileMap, base: string, featureName: string, p: string, c: string)
    requires base in fs && '/' !in featureName
    requires WriteFile(p, c) in FeaturePlan(base, Lower(featureName))
    ensures p in Generated(fs, base, featureName) && Generated(fs, base, featureName)[p] == File(c)
  {
    var plan := FeaturePlan(base, Lower(featureName));
    LowerKeepsOut(featureName, '/');
    FeatureDistinct(base, Lower(featureName));
    OnlyWrite(plan, p, c);
    RunAt(fs, plan, p);
  }

  /** After the script runs, the feature's router file holds the router
      template filled with the lower-cased name. */
  lemma GeneratedRouter(fs: FileMap, base: string, featureName: string)
    requires base in fs && '/' !in featureName
    ensures var name := Lower(featureName);
      var path := FeatureFolder(base, name) + "/" + (name + ".router.dart");
      path in Generated(fs, base, featureName) &&
      Generated(fs, base, featureName)[path] == File(Instantiate(ROUTER_PIECES, name, Capitalize(name)))
  {
    var name := Lower(featureName);
    RouterFile(base, name);
    GeneratedFile(fs, base, featureName, FeatureFolder(base, name) + "/" + (name + ".router.dart"),
      Instantiate(ROUTER_PIECES, name, Capitalize(name)));
  }
}
