/**
  Technology detection (`detectTechnologies`). The file system is replaced
  by a `Project` value: each manifest is the set of package names in its
  `dependencies` and `devDependencies` (None when the file is absent), and
  the other marker files are flags.
 */
module Technologies {
  import opened Wrappers

  datatype Project = Project(
    rootManifest: Option<set<string>>,     // package.json
    backendManifest: Option<set<string>>,  // backend/package.json
    hasRequirementsTxt: bool,
    hasSetupPy: bool,
    hasCargoToml: bool,
    hasGoMod: bool)

  /** The labels the detection can report, in the order the script pushes them. */
  datatype Tech =
    | React | Vue | Angular | Express | SocketIO | ChessJs | Vite | Webpack
    | TypeScript | TailwindCss | MongoDB | PostgreSQL | NodeJs | Ejs | Python | Rust | Go

  /** The text of each label as it appears in the README. */
  function Label(t: Tech): string
  {
    match t
    case React => "React"
    case Vue => "Vue"
    case Angular => "Angular"
    case Express => "Express.js"
    case SocketIO => "Socket.IO"
    case ChessJs => "Chess.js"
    case Vite => "Vite"
    case Webpack => "Webpack"
    case TypeScript => "TypeScript"
    case TailwindCss => "Tailwind CSS"
    case MongoDB => "MongoDB"
    case PostgreSQL => "PostgreSQL"
    case NodeJs => "Node.js"
    case Ejs => "EJS"
    case Python => "Python"
    case Rust => "Rust"
    case Go => "Go"
  }

  predicate RootHas(p: Project, dep: string)
  {
    p.rootManifest.Some? && dep in p.rootManifest.value
  }

  predicate BackendHas(p: Project, dep: string)
  {
    p.backendManifest.Some? && dep in p.backendManifest.value
  }

  /** When each label is reported, one condition per label. */
  predicate Detected(p: Project, t: Tech)
  {
    match t
    case React => RootHas(p, "react")
    case Vue => RootHas(p, "vue")
    case Angular => RootHas(p, "angular")
    case Express => RootHas(p, "express") || BackendHas(p, "express")
    case SocketIO => RootHas(p, "socket.io") || BackendHas(p, "socket.io")
    case ChessJs => RootHas(p, "chess.js") || BackendHas(p, "chess.js")
    case Vite => RootHas(p, "vite")
    case Webpack => RootHas(p, "webpack")
    case TypeScript => RootHas(p, "typescript")
    case TailwindCss => RootHas(p, "tailwindcss")
    case MongoDB => RootHas(p, "mongodb") || RootHas(p, "mongoose")
    case PostgreSQL => RootHas(p, "postgresql") || RootHas(p, "pg")
    case NodeJs => p.backendManifest.Some?
    case Ejs => BackendHas(p, "ejs")
    case Python => p.hasRequirementsTxt || p.hasSetupPy
    case Rust => p.hasCargoToml
    case Go => p.hasGoMod
  }

  function When(c: bool, t: Tech): seq<Tech>
  {
    if c then [t] else []
  }

  /** The pushes for the root manifest's libraries (React to Chess.js), appended to `acc`. */
  function RootLibraryPushes(acc: seq<Tech>, deps: set<string>): seq<Tech>
  {
    acc
    + When("react" in deps, React)
    + When("vue" in deps, Vue)
    + When("angular" in deps, Angular)
    + When("express" in deps, Express)
    + When("socket.io" in deps, SocketIO)
    + When("chess.js" in deps, ChessJs)
  }

  /** The pushes for the root manifest's tooling and databases (Vite to PostgreSQL), appended to `acc`. */
  function RootToolingPushes(acc: seq<Tech>, deps: set<string>): seq<Tech>
  {
    acc
    + When("vite" in deps, Vite)
    + When("webpack" in deps, Webpack)
    + When("typescript" in deps, TypeScript)
    + When("tailwindcss" in deps, TailwindCss)
    + When("mongodb" in deps || "mongoose" in deps, MongoDB)
    + When("postgresql" in deps || "pg" in deps, PostgreSQL)
  }

  /**
    The pushes for the root manifest's packages, in push order, appended
    to the labels `acc` already pushed.
   */
  function RootPushes(acc: seq<Tech>, deps: set<string>): seq<Tech>
  {
    RootToolingPushes(RootLibraryPushes(acc, deps), deps)
  }

  /** The pushes for the backend manifest's packages, appended to `acc`. */
  function BackendPushes(acc: seq<Tech>, deps: set<string>): seq<Tech>
  {
    acc
    + [NodeJs]
    + When("express" in deps, Express)
    + When("socket.io" in deps, SocketIO)
    + When("chess.js" in deps, ChessJs)
    + When("ejs" in deps, Ejs)
  }

  /** The pushes for the other marker files, appended to `acc`. */
  function MarkerPushes(acc: seq<Tech>, p: Project): seq<Tech>
  {
    acc
    + When(p.hasRequirementsTxt || p.hasSetupPy, Python)
    + When(p.hasCargoToml, Rust)
    + When(p.hasGoMod, Go)
  }

  /** The labels pushed by the end of the root manifest's checks. */
  function RootPart(p: Project): seq<Tech>
  {
    match p.rootManifest
    case None => []
    case Some(deps) => RootPushes([], deps)
  }

  /** The labels pushed by the end of the backend manifest's checks. */
  function BackendPart(p: Project): seq<Tech>
  {
    match p.backendManifest
    case None => RootPart(p)
    case Some(deps) => BackendPushes(RootPart(p), deps)
  }

  /** Every push of the detection, in order. */
  function Pushes(p: Project): seq<Tech>
  {
    MarkerPushes(BackendPart(p), p)
  }

  /** The root manifest's test for each library label; false for the other labels. */
  predicate LibraryTrigger(deps: set<string>, t: Tech)
  {
    match t
    case React => "react" in deps
    case Vue => "vue" in deps
    case Angular => "angular" in deps
    case Express => "express" in deps
    case SocketIO => "socket.io" in deps
    case ChessJs => "chess.js" in deps
    case _ => false
  }

  /** The root manifest's test for each tooling or database label; false for the other labels. */
  predicate ToolingTrigger(deps: set<string>, t: Tech)
  {
    match t
    case Vite => "vite" in deps
    case Webpack => "webpack" in deps
    case TypeScript => "typescript" in deps
    case TailwindCss => "tailwindcss" in deps
    case MongoDB => "mongodb" in deps || "mongoose" in deps
    case PostgreSQL => "postgresql" in deps || "pg" in deps
    case _ => false
  }

  /** The root manifest's package test for each label; false for labels it never pushes. */
  predicate RootTrigger(deps: set<string>, t: Tech)
  {
    LibraryTrigger(deps, t) || ToolingTrigger(deps, t)
  }

  /** The backend manifest's test for each label: Node.js always, four packages. */
  predicate BackendTrigger(deps: set<string>, t: Tech)
  {
    match t
    case NodeJs => true
    case Express => "express" in deps
    case SocketIO => "socket.io" in deps
    case ChessJs => "chess.js" in deps
    case Ejs => "ejs" in deps
    case _ => false
  }

  /** The marker-file test for each label. */
  predicate MarkerTrigger(p: Project, t: Tech)
  {
    match t
    case Python => p.hasRequirementsTxt || p.hasSetupPy
    case Rust => p.hasCargoToml
    case Go => p.hasGoMod
    case _ => false
  }

  lemma LibraryPushesMembers(acc: seq<Tech>, deps: set<string>, t: Tech)
    ensures t in RootLibraryPushes(acc, deps) <==> t in acc || LibraryTrigger(deps, t)
  {
  }

  lemma ToolingPushesMembers(acc: seq<Tech>, deps: set<string>, t: Tech)
    ensures t in RootToolingPushes(acc, deps) <==> t in acc || ToolingTrigger(deps, t)
  {
  }

  /** The root manifest's pushes add exactly the labels whose package test holds. */
  lemma RootPushesMembers(acc: seq<Tech>, deps: set<string>, t: Tech)
    ensures t in RootPushes(acc, deps) <==> t in acc || RootTrigger(deps, t)
  {
    LibraryPushesMembers(acc, deps, t);
    ToolingPushesMembers(RootLibraryPushes(acc, deps), deps, t);
  }

  lemma BackendPushesMembers(acc: seq<Tech>, deps: set<string>, t: Tech)
    ensures t in BackendPushes(acc, deps) <==> t in acc || BackendTrigger(deps, t)
  {
  }

  lemma MarkerPushesMembers(acc: seq<Tech>, p: Project, t: Tech)
    ensures t in MarkerPushes(acc, p) <==> t in acc || MarkerTrigger(p, t)
  {
  }

  /** A label is pushed at least once exactly when it is detected. */
  lemma PushesDetected(p: Project)
    ensures forall t :: t in Pushes(p) <==> Detected(p, t)
  {
    forall t ensures t in Pushes(p) <==> Detected(p, t) {
      var root := RootPart(p);
      var backend := BackendPart(p);
      MarkerPushesMembers(backend, p, t);
      if p.backendManifest.Some? {
        BackendPushesMembers(root, p.backendManifest.value, t);
      }
      if p.rootManifest.Some? {
        RootPushesMembers([], p.rootManifest.value, t);
      }
    }
  }

  predicate NoDuplicates(s: seq<Tech>)
  {
    forall i, j :: 0 <= i < j < |s| ==> s[i] != s[j]
  }

  /**
    `[...new Set(s)]`: the elements of `s` in the order in which they first
    occur, each once.
   */
  function Distinct(s: seq<Tech>): (r: seq<Tech>)
    ensures NoDuplicates(r)
    ensures forall x :: x in r <==> x in s
  {
    if s == [] then []
    else
      var d := Distinct(s[..|s| - 1]);
      var last := s[|s| - 1];
      assert s == s[..|s| - 1] + [last];
      if last in d then d else d + [last]
  }

  /** The position at which `x` first occurs in `s`. */
  function FirstIndex(s: seq<Tech>, x: Tech): (k: nat)
    requires x in s
    ensures k < |s| && s[k] == x && x !in s[..k]
  {
    if s[0] == x then 0
    else
      var k := 1 + FirstIndex(s[1..], x);
      assert s[..k] == [s[0]] + s[1..][..k - 1];
      k
  }

  /** The first occurrence is the occurrence with none before it. */
  lemma {:induction false} FirstIndexIs(s: seq<Tech>, x: Tech, k: nat)
    requires k < |s| && s[k] == x && x !in s[..k]
    ensures FirstIndex(s, x) == k
  {
    if k > 0 {
      assert s[..k][0] == s[0];
      assert s[1..][..k - 1] == s[..k][1..];
      FirstIndexIs(s[1..], x, k - 1);
    }
  }

  lemma FirstIndexInPrefix(s: seq<Tech>, m: nat, x: Tech)
    requires m <= |s| && x in s[..m]
    ensures FirstIndex(s, x) == FirstIndex(s[..m], x)
  {
    var b := FirstIndex(s[..m], x);
    assert s[..m][..b] == s[..b];
    FirstIndexIs(s, x, b);
  }

  /** The labels keep the order of their first pushes. */
  lemma {:induction false} DistinctKeepsFirstOrder(s: seq<Tech>)
    ensures forall i, j :: 0 <= i < j < |Distinct(s)| ==> FirstIndex(s, Distinct(s)[i]) < FirstIndex(s, Distinct(s)[j])
    decreases |s|
  {
    if s != [] {
      var n := |s|;
      var s' := s[..n - 1];
      var d := Distinct(s');
      var last := s[n - 1];
      DistinctKeepsFirstOrder(s');
      forall x | x in d ensures FirstIndex(s, x) == FirstIndex(s', x) && FirstIndex(s', x) < n - 1 {
        FirstIndexInPrefix(s, n - 1, x);
      }
      var r := Distinct(s);
      assert r == if last in d then d else d + [last];
      if last !in d {
        FirstIndexIs(s, last, n - 1);
      }
      forall i, j | 0 <= i < j < |r| ensures FirstIndex(s, r[i]) < FirstIndex(s, r[j]) {
        assert r[i] == d[i] && d[i] in d;
        if j < |d| {
          assert r[j] == d[j] && d[j] in d;
          assert FirstIndex(s', d[i]) < FirstIndex(s', d[j]);
        } else {
          assert r[j] == last;
        }
      }
    }
  }

  /** A label first pushed in one part of a concatenation keeps its place there. */
  lemma FirstIndexConcat(a: seq<Tech>, b: seq<Tech>, x: Tech)
    requires x in a + b
    ensures x in a ==> FirstIndex(a + b, x) == FirstIndex(a, x)
    ensures x !in a ==> FirstIndex(a + b, x) == |a| + FirstIndex(b, x)
  {
    var s := a + b;
    assert s[..|a|] == a;
    if x in a {
      FirstIndexInPrefix(s, |a|, x);
    } else {
      var kb := FirstIndex(b, x);
      assert s[|a| + kb] == x;
      assert s[..|a| + kb] == a + b[..kb];
      FirstIndexIs(s, x, |a| + kb);
    }
  }

  /** `if (c) technologies.push(t)` */
  method PushIf(pushed: seq<Tech>, c: bool, t: Tech) returns (r: seq<Tech>)
    ensures r == pushed + When(c, t)
  {
    r := pushed;
    if c {
      r := r + [t];
    }
  }

  /** The checks of package.json's dependencies, each pushing its label. */
  method PushRootLabels(pushed: seq<Tech>, deps: set<string>) returns (r: seq<Tech>)
    ensures r == RootPushes(pushed, deps)
  {
    r := PushLibraryLabels(pushed, deps);
    r := PushToolingLabels(r, deps);
  }

  /** The first six checks of package.json: React to Chess.js. */
  method PushLibraryLabels(pushed: seq<Tech>, deps: set<string>) returns (r: seq<Tech>)
    ensures r == RootLibraryPushes(pushed, deps)
  {
    r := PushIf(pushed, "react" in deps, React);
    r := PushIf(r, "vue" in deps, Vue);
    r := PushIf(r, "angular" in deps, Angular);
    r := PushIf(r, "express" in deps, Express);
    r := PushIf(r, "socket.io" in deps, SocketIO);
    r := PushIf(r, "chess.js" in deps, ChessJs);
  }

  /** The last six checks of package.json: Vite to PostgreSQL. */
  method PushToolingLabels(pushed: seq<Tech>, deps: set<string>) returns (r: seq<Tech>)
    ensures r == RootToolingPushes(pushed, deps)
  {
    r := PushIf(pushed, "vite" in deps, Vite);
    r := PushIf(r, "webpack" in deps, Webpack);
    r := PushIf(r, "typescript" in deps, TypeScript);
    r := PushIf(r, "tailwindcss" in deps, TailwindCss);
    r := PushIf(r, "mongodb" in deps || "mongoose" in deps, MongoDB);
    r := PushIf(r, "postgresql" in deps || "pg" in deps, PostgreSQL);
  }

  /** The checks of backend/package.json: Node.js, then four packages. */
  method PushBackendLabels(pushed: seq<Tech>, deps: set<string>) returns (r: seq<Tech>)
    ensures r == BackendPushes(pushed, deps)
  {
    r := pushed + [NodeJs];
    r := PushIf(r, "express" in deps, Express);
    r := PushIf(r, "socket.io" in deps, SocketIO);
    r := PushIf(r, "chess.js" in deps, ChessJs);
    r := PushIf(r, "ejs" in deps, Ejs);
  }

  /**
    `detectTechnologies`: push a label for every dependency or marker file
    found, in the script's order, then keep the first occurrence of each.
   */
  method DetectTechnologies(p: Project) returns (technologies: seq<Tech>)
    ensures technologies == Distinct(Pushes(p))
    ensures NoDuplicates(technologies)
    ensures forall t :: t in technologies <==> Detected(p, t)
  {
    var pushed: seq<Tech> := [];
    match p.rootManifest {
      case None =>
      case Some(deps) =>
        pushed := PushRootLabels(pushed, deps);
    }
    assert pushed == RootPart(p);
    match p.backendManifest {
      case None =>
      case Some(backendDeps) =>
        pushed := PushBackendLabels(pushed, backendDeps);
    }
    assert pushed == BackendPart(p);
    pushed := PushIf(pushed, p.hasRequirementsTxt || p.hasSetupPy, Python);
    pushed := PushIf(pushed, p.hasCargoToml, Rust);
    pushed := PushIf(pushed, p.hasGoMod, Go);
    technologies := Distinct(pushed);
    ReportedIffDetected(p);
  }

  /** A label is reported exactly when it is detected. */
  lemma ReportedIffDetected(p: Project)
    ensures forall t :: t in Distinct(Pushes(p)) <==> Detected(p, t)
  {
    PushesDetected(p);
  }

  predicate IsPrefix(a: seq<Tech>, s: seq<Tech>)
  {
    |a| <= |s| && s[..|a|] == a
  }

  /** Pushing keeps what was pushed before. */
  lemma PrefixExtends(a: seq<Tech>, s: seq<Tech>, b: seq<Tech>)
    requires IsPrefix(a, s)
    ensures IsPrefix(a, s + b)
  {
    assert (s + b)[..|a|] == s[..|a|];
  }

  /** Past the root manifest's labels, the pushes continue with Node.js. */
  lemma NodeJsFollowsRoot(p: Project)
    requires p.backendManifest.Some?
    ensures |RootPart(p)| < |Pushes(p)|
    ensures Pushes(p)[..|RootPart(p)|] == RootPart(p)
    ensures Pushes(p)[|RootPart(p)|] == NodeJs
  {
    var root := RootPart(p);
    var deps := p.backendManifest.value;
    var x := root + [NodeJs];
    var b1 := x + When("express" in deps, Express);
    var b2 := b1 + When("socket.io" in deps, SocketIO);
    var b3 := b2 + When("chess.js" in deps, ChessJs);
    var b4 := b3 + When("ejs" in deps, Ejs);
    var m1 := b4 + When(p.hasRequirementsTxt || p.hasSetupPy, Python);
    var m2 := m1 + When(p.hasCargoToml, Rust);
    var m3 := m2 + When(p.hasGoMod, Go);
    assert IsPrefix(x, x);
    PrefixExtends(x, x, When("express" in deps, Express));
    PrefixExtends(x, b1, When("socket.io" in deps, SocketIO));
    PrefixExtends(x, b2, When("chess.js" in deps, ChessJs));
    PrefixExtends(x, b3, When("ejs" in deps, Ejs));
    PrefixExtends(x, b4, When(p.hasRequirementsTxt || p.hasSetupPy, Python));
    PrefixExtends(x, m1, When(p.hasCargoToml, Rust));
    PrefixExtends(x, m2, When(p.hasGoMod, Go));
    assert m3 == Pushes(p);
    assert m3[..|root|] == m3[..|x|][..|root|];
  }

  /**
    A label occurring in a prefix reports before a label that first occurs
    right after that prefix.
   */
  lemma EarlierInDistinct(s: seq<Tech>, a: seq<Tech>, x: Tech, y: Tech)
    requires |a| < |s| && s[..|a|] == a && s[|a|] == y
    requires x in a && y !in a
    ensures x in Distinct(s)
    ensures forall i, j :: 0 <= i < |Distinct(s)| && 0 <= j < |Distinct(s)| && Distinct(s)[i] == x && Distinct(s)[j] == y ==> i < j
  {
    var d := Distinct(s);
    var rest := s[|a|..];
    assert s == a + rest;
    assert rest[0] == y;
    FirstIndexConcat(a, rest, x);
    FirstIndexConcat(a, rest, y);
    assert FirstIndex(rest, y) == 0;
    assert x in d;
    DistinctKeepsFirstOrder(s);
  }

  /**
    When both manifests exist, every label the root manifest triggers is
    reported before Node.js. In particular Express.js listed in both
    manifests is reported once, at its root position.
   */
  lemma RootLabelsBeforeNodeJs(p: Project, t: Tech)
    requires p.rootManifest.Some? && p.backendManifest.Some?
    requires RootTrigger(p.rootManifest.value, t)
    ensures t in Distinct(Pushes(p))
    ensures forall i, j ::
      (0 <= i < |Distinct(Pushes(p))| && 0 <= j < |Distinct(Pushes(p))|
       && Distinct(Pushes(p))[i] == t && Distinct(Pushes(p))[j] == NodeJs) ==> i < j
  {
    NodeJsFollowsRoot(p);
    RootPushesMembers([], p.rootManifest.value, t);
    RootPushesMembers([], p.rootManifest.value, NodeJs);
    EarlierInDistinct(Pushes(p), RootPart(p), t, NodeJs);
  }
}
