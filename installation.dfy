/**
  The installation section (`generateInstallation`) and the placeholder
  replacement applied to it when the README is assembled.
 */
module Installation {
  import opened JsStrings
  import opened Technologies

  const OwnerToken: string := "{{OWNER}}"
  const NameToken: string := "{{REPO_NAME}}"

  // The fixed lines of the installation text, in the order they first appear.
  const PrerequisitesHeading: string := "### Prerequisites\n"
  const NodeVersion: string := "- Node.js (v14 or higher)\n"
  const NpmOrYarn: string := "- npm or yarn package manager\n"
  const PythonVersion: string := "- Python 3.7 or higher\n"
  const PipManager: string := "- pip package manager\n"
  const QuickStartHeading: string := "\n### Quick Start\n\n"
  const CloneHeading: string := "1. **Clone the repository**\n"
  const BashFence: string := "   ```bash\n"
  const GitClone: string := "   git clone https://github.com/"
  const Slash: string := "/"
  const DotGitLine: string := ".git\n"
  const Cd: string := "   cd "
  const LineEnd: string := "\n"
  const ClosingFence: string := "   ```\n\n"
  const InstallFrontendHeading: string := "2. **Install frontend dependencies**\n"
  const NpmInstall: string := "   npm install\n"
  const InstallBackendHeading: string := "3. **Install backend dependencies**\n"
  const CdBackend: string := "   cd backend\n"
  const CdUp: string := "   cd ..\n"
  const InstallHeading: string := "2. **Install dependencies**\n"
  const InstallPythonHeading: string := "2. **Install Python dependencies**\n"
  const PipInstall: string := "   pip install -r requirements.txt\n"
  const StartServersHeading: string := "4. **Start the development servers**\n\n"
  const FrontendTerminal: string := "   **Frontend (in one terminal):**\n"
  const NpmRunDev: string := "   npm run dev\n"
  const BackendTerminal: string := "   **Backend (in another terminal):**\n"
  const NodeIndex: string := "   node index.js\n"
  const StartServerHeading: string := "3. **Start the development server**\n"

  /** A piece of the installation text: fixed text, or where the owner or the repository name goes. */
  datatype Piece = Text(s: string) | OwnerSlot | NameSlot

  function RenderPiece(p: Piece, owner: string, name: string): string
  {
    match p
    case Text(s) => s
    case OwnerSlot => owner
    case NameSlot => name
  }

  /** The pieces written out one after the other. */
  function Render(ps: seq<Piece>, owner: string, name: string): string
  {
    if ps == [] then ""
    else Render(ps[..|ps| - 1], owner, name) + RenderPiece(ps[|ps| - 1], owner, name)
  }

  function Prerequisites(hasNodeJs: bool, hasPython: bool): seq<Piece>
  {
    [Text(PrerequisitesHeading)]
    + (if hasNodeJs then [Text(NodeVersion), Text(NpmOrYarn)] else [])
    + (if hasPython then [Text(PythonVersion), Text(PipManager)] else [])
  }

  /** The clone step, with the owner and name slots. */
  function QuickStart(): seq<Piece>
  {
    [ Text(QuickStartHeading), Text(CloneHeading), Text(BashFence), Text(GitClone), OwnerSlot,
      Text(Slash), NameSlot, Text(DotGitLine), Text(Cd), NameSlot, Text(LineEnd),
      Text(ClosingFence) ]
  }

  function InstallSteps(hasNodeJs: bool, hasBackend: bool): seq<Piece>
  {
    if !hasNodeJs then []
    else if hasBackend then InstallFrontend() + InstallBackend()
    else InstallSingle()
  }

  /** Installing the dependencies when there is no backend directory. */
  function InstallSingle(): seq<Piece>
  {
    [ Text(InstallHeading), Text(BashFence), Text(NpmInstall), Text(ClosingFence) ]
  }

  /** Installing the frontend dependencies when there is a backend directory. */
  function InstallFrontend(): seq<Piece>
  {
    [ Text(InstallFrontendHeading), Text(BashFence), Text(NpmInstall), Text(ClosingFence) ]
  }

  /** Installing the backend dependencies. */
  function InstallBackend(): seq<Piece>
  {
    [ Text(InstallBackendHeading), Text(BashFence), Text(CdBackend), Text(NpmInstall), Text(CdUp),
      Text(ClosingFence) ]
  }

  function PythonStep(hasPython: bool): seq<Piece>
  {
    if hasPython then PythonInstall() else []
  }

  /** Installing the Python dependencies. */
  function PythonInstall(): seq<Piece>
  {
    [ Text(InstallPythonHeading), Text(BashFence), Text(PipInstall), Text(ClosingFence) ]
  }

  function StartSteps(hasNodeJs: bool, hasBackend: bool): seq<Piece>
  {
    if !hasNodeJs then []
    else if hasBackend then StartFrontend() + StartBackend()
    else StartSingle()
  }

  /** Starting the development server when there is no backend directory. */
  function StartSingle(): seq<Piece>
  {
    [ Text(StartServerHeading), Text(BashFence), Text(NpmRunDev), Text(ClosingFence) ]
  }

  /** Starting the frontend when there is a backend directory. */
  function StartFrontend(): seq<Piece>
  {
    [ Text(StartServersHeading), Text(FrontendTerminal), Text(BashFence), Text(NpmRunDev),
      Text(ClosingFence) ]
  }

  /** Starting the backend. */
  function StartBackend(): seq<Piece>
  {
    [ Text(BackendTerminal), Text(BashFence), Text(CdBackend), Text(NodeIndex), Text(ClosingFence) ]
  }

  /** The sections of the installation text in the order they are written. */
  function Layout(hasNodeJs: bool, hasPython: bool, hasBackend: bool): seq<Piece>
  {
    Prerequisites(hasNodeJs, hasPython) + QuickStart() + InstallSteps(hasNodeJs, hasBackend)
    + PythonStep(hasPython) + StartSteps(hasNodeJs, hasBackend)
  }

  /** The Node.js steps are given for Node.js, React or Express.js. */
  predicate HasNodeJs(techs: seq<Tech>)
  {
    NodeJs in techs || React in techs || Express in techs
  }

  /** Rendering distributes over concatenation of layouts. */
  lemma {:induction false} RenderConcat(a: seq<Piece>, b: seq<Piece>, owner: string, name: string)
    ensures Render(a + b, owner, name) == Render(a, owner, name) + Render(b, owner, name)
    decreases |b|
  {
    if b == [] {
      assert a + b == a;
    } else {
      var b' := b[..|b| - 1];
      var p := b[|b| - 1];
      var ab := a + b;
      assert ab[..|ab| - 1] == a + b';
      assert ab[|ab| - 1] == p;
      assert Render(ab, owner, name) == Render(a + b', owner, name) + RenderPiece(p, owner, name);
      assert Render(b, owner, name) == Render(b', owner, name) + RenderPiece(p, owner, name);
      RenderConcat(a, b', owner, name);
    }
  }

  /** Associativity of piece sequences, used to regroup the written pieces. */
  lemma AppendAssoc(a: seq<Piece>, b: seq<Piece>, c: seq<Piece>)
    ensures (a + b) + c == a + (b + c)
  {
  }

  /** Appending four one-piece lines appends the four pieces. */
  lemma FourLines(p: seq<Piece>, a: Piece, b: Piece, c: Piece, d: Piece)
    ensures p + [a] + [b] + [c] + [d] == p + [a, b, c, d]
  {
  }

  /** Appending five one-piece lines appends the five pieces. */
  lemma FiveLines(p: seq<Piece>, a: Piece, b: Piece, c: Piece, d: Piece, e: Piece)
    ensures p + [a] + [b] + [c] + [d] + [e] == p + [a, b, c, d, e]
  {
    FourLines(p, a, b, c, d);
  }

  /** Appending six one-piece lines appends the six pieces. */
  lemma SixLines(p: seq<Piece>, a: Piece, b: Piece, c: Piece, d: Piece, e: Piece, f: Piece)
    ensures p + [a] + [b] + [c] + [d] + [e] + [f] == p + [a, b, c, d, e, f]
  {
    FiveLines(p, a, b, c, d, e);
  }

  /** The lines appended so far, most recent last. */
  datatype Written = Nothing | Then(before: Written, line: seq<Piece>)

  function Pieces(w: Written): seq<Piece>
  {
    match w
    case Nothing => []
    case Then(before, line) => Pieces(before) + line
  }

  /** The text of the lines appended so far, with the placeholders. */
  function WrittenText(w: Written): string
  {
    match w
    case Nothing => ""
    case Then(before, line) => WrittenText(before) + Render(line, OwnerToken, NameToken)
  }

  lemma {:induction false} WrittenTextRenders(w: Written)
    ensures WrittenText(w) == Render(Pieces(w), OwnerToken, NameToken)
  {
    match w
    case Nothing =>
    case Then(before, line) =>
      WrittenTextRenders(before);
      RenderConcat(Pieces(before), line, OwnerToken, NameToken);
  }

  /** One `instructions += ...` step, with the lines written so far tracked alongside. */
  method Append(instructions: string, ghost written: Written, line: seq<Piece>)
    returns (r: string, ghost w: Written)
    requires instructions == WrittenText(written)
    ensures w == Then(written, line) && Pieces(w) == Pieces(written) + line
    ensures r == WrittenText(w)
  {
    r := instructions + Render(line, OwnerToken, NameToken);
    w := Then(written, line);
  }

  /** The prerequisites block. */
  method WritePrerequisites(hasNodeJs: bool, hasPython: bool) returns (instructions: string, ghost written: Written)
    ensures Pieces(written) == Prerequisites(hasNodeJs, hasPython)
    ensures instructions == WrittenText(written)
  {
    instructions, written := Append("", Nothing, [Text(PrerequisitesHeading)]);
    if hasNodeJs {
      instructions, written := Append(instructions, written, [Text(NodeVersion)]);
      instructions, written := Append(instructions, written, [Text(NpmOrYarn)]);
    }
    if hasPython {
      instructions, written := Append(instructions, written, [Text(PythonVersion)]);
      instructions, written := Append(instructions, written, [Text(PipManager)]);
    }
  }

  /** The clone step, with the owner and name slots. */
  method WriteQuickStart(instructions0: string, ghost written0: Written) returns (instructions: string, ghost written: Written)
    requires instructions0 == WrittenText(written0)
    ensures Pieces(written) == Pieces(written0) + QuickStart()
    ensures instructions == WrittenText(written)
  {
    ghost var intro;
    instructions, intro := WriteCloneIntro(instructions0, written0);
    instructions, written := WriteCloneCommands(instructions, intro);
    QuickStartSplit();
    AppendAssoc(Pieces(written0), CloneIntro(), CloneCommands());
  }

  method WriteCloneIntro(instructions0: string, ghost written0: Written) returns (instructions: string, ghost written: Written)
    requires instructions0 == WrittenText(written0)
    ensures Pieces(written) == Pieces(written0) + CloneIntro()
    ensures instructions == WrittenText(written)
  {
    instructions, written := Append(instructions0, written0, [Text(QuickStartHeading)]);
    instructions, written := Append(instructions, written, [Text(CloneHeading)]);
    instructions, written := Append(instructions, written, [Text(BashFence)]);
  }

  method WriteCloneCommands(instructions0: string, ghost written0: Written) returns (instructions: string, ghost written: Written)
    requires instructions0 == WrittenText(written0)
    ensures Pieces(written) == Pieces(written0) + CloneCommands()
    ensures instructions == WrittenText(written)
  {
    instructions, written := Append(instructions0, written0, [Text(GitClone), OwnerSlot, Text(Slash), NameSlot, Text(DotGitLine)]);
    instructions, written := Append(instructions, written, [Text(Cd), NameSlot, Text(LineEnd)]);
    instructions, written := Append(instructions, written, [Text(ClosingFence)]);
  }

  /** The quick start heading and the opening of the clone step. */
  function CloneIntro(): seq<Piece>
  {
    [Text(QuickStartHeading), Text(CloneHeading), Text(BashFence)]
  }

  /** The clone and change-directory commands. */
  function CloneCommands(): seq<Piece>
  {
    [ Text(GitClone), OwnerSlot, Text(Slash), NameSlot, Text(DotGitLine), Text(Cd), NameSlot, Text(LineEnd),
      Text(ClosingFence) ]
  }

  lemma QuickStartSplit()
    ensures QuickStart() == CloneIntro() + CloneCommands()
  {
  }

  /** The dependency installation steps. */
  method WriteInstallSteps(instructions0: string, ghost written0: Written, hasNodeJs: bool, hasBackend: bool)
    returns (instructions: string, ghost written: Written)
    requires instructions0 == WrittenText(written0)
    ensures Pieces(written) == Pieces(written0) + InstallSteps(hasNodeJs, hasBackend)
    ensures instructions == WrittenText(written)
  {
    instructions, written := instructions0, written0;
    if hasNodeJs {
      if hasBackend {
        instructions, written := WriteInstallFrontend(instructions, written);
        instructions, written := WriteInstallBackend(instructions, written);
        AppendAssoc(Pieces(written0), InstallFrontend(), InstallBackend());
      } else {
        instructions, written := WriteInstallSingle(instructions, written);
      }
    }
  }

  /** Installing the frontend dependencies when there is a backend directory. */
  method WriteInstallFrontend(instructions0: string, ghost written0: Written) returns (instructions: string, ghost written: Written)
    requires instructions0 == WrittenText(written0)
    ensures Pieces(written) == Pieces(written0) + InstallFrontend()
    ensures instructions == WrittenText(written)
  {
    instructions, written := instructions0, written0;
    instructions, written := Append(instructions, written, [Text(InstallFrontendHeading)]);
    instructions, written := Append(instructions, written, [Text(BashFence)]);
    instructions, written := Append(instructions, written, [Text(NpmInstall)]);
    instructions, written := Append(instructions, written, [Text(ClosingFence)]);
    FourLines(Pieces(written0), Text(InstallFrontendHeading), Text(BashFence), Text(NpmInstall), Text(ClosingFence));
  }

  /** Installing the backend dependencies. */
  method WriteInstallBackend(instructions0: string, ghost written0: Written) returns (instructions: string, ghost written: Written)
    requires instructions0 == WrittenText(written0)
    ensures Pieces(written) == Pieces(written0) + InstallBackend()
    ensures instructions == WrittenText(written)
  {
    instructions, written := instructions0, written0;
    instructions, written := Append(instructions, written, [Text(InstallBackendHeading)]);
    instructions, written := Append(instructions, written, [Text(BashFence)]);
    instructions, written := Append(instructions, written, [Text(CdBackend)]);
    instructions, written := Append(instructions, written, [Text(NpmInstall)]);
    instructions, written := Append(instructions, written, [Text(CdUp)]);
    instructions, written := Append(instructions, written, [Text(ClosingFence)]);
    SixLines(Pieces(written0), Text(InstallBackendHeading), Text(BashFence), Text(CdBackend), Text(NpmInstall),
             Text(CdUp), Text(ClosingFence));
  }

  /** Installing the dependencies when there is no backend directory. */
  method WriteInstallSingle(instructions0: string, ghost written0: Written) returns (instructions: string, ghost written: Written)
    requires instructions0 == WrittenText(written0)
    ensures Pieces(written) == Pieces(written0) + InstallSingle()
    ensures instructions == WrittenText(written)
  {
    instructions, written := instructions0, written0;
    instructions, written := Append(instructions, written, [Text(InstallHeading)]);
    instructions, written := Append(instructions, written, [Text(BashFence)]);
    instructions, written := Append(instructions, written, [Text(NpmInstall)]);
    instructions, written := Append(instructions, written, [Text(ClosingFence)]);
    FourLines(Pieces(written0), Text(InstallHeading), Text(BashFence), Text(NpmInstall), Text(ClosingFence));
  }

  /** The Python dependency step. */
  method WritePythonStep(instructions0: string, ghost written0: Written, hasPython: bool)
    returns (instructions: string, ghost written: Written)
    requires instructions0 == WrittenText(written0)
    ensures Pieces(written) == Pieces(written0) + PythonStep(hasPython)
    ensures instructions == WrittenText(written)
  {
    instructions, written := instructions0, written0;
    if hasPython {
      instructions, written := Append(instructions, written, [Text(InstallPythonHeading)]);
      instructions, written := Append(instructions, written, [Text(BashFence)]);
      instructions, written := Append(instructions, written, [Text(PipInstall)]);
      instructions, written := Append(instructions, written, [Text(ClosingFence)]);
      FourLines(Pieces(written0), Text(InstallPythonHeading), Text(BashFence), Text(PipInstall), Text(ClosingFence));
    }
  }

  /** The steps that start the application. */
  method WriteStartSteps(instructions0: string, ghost written0: Written, hasNodeJs: bool, hasBackend: bool)
    returns (instructions: string, ghost written: Written)
    requires instructions0 == WrittenText(written0)
    ensures Pieces(written) == Pieces(written0) + StartSteps(hasNodeJs, hasBackend)
    ensures instructions == WrittenText(written)
  {
    instructions, written := instructions0, written0;
    if hasNodeJs {
      if hasBackend {
        instructions, written := WriteStartFrontend(instructions, written);
        instructions, written := WriteStartBackend(instructions, written);
        AppendAssoc(Pieces(written0), StartFrontend(), StartBackend());
      } else {
        instructions, written := WriteStartSingle(instructions, written);
      }
    }
  }

  /** Starting the frontend when there is a backend directory. */
  method WriteStartFrontend(instructions0: string, ghost written0: Written) returns (instructions: string, ghost written: Written)
    requires instructions0 == WrittenText(written0)
    ensures Pieces(written) == Pieces(written0) + StartFrontend()
    ensures instructions == WrittenText(written)
  {
    instructions, written := instructions0, written0;
    instructions, written := Append(instructions, written, [Text(StartServersHeading)]);
    instructions, written := Append(instructions, written, [Text(FrontendTerminal)]);
    instructions, written := Append(instructions, written, [Text(BashFence)]);
    instructions, written := Append(instructions, written, [Text(NpmRunDev)]);
    instructions, written := Append(instructions, written, [Text(ClosingFence)]);
    FiveLines(Pieces(written0), Text(StartServersHeading), Text(FrontendTerminal), Text(BashFence), Text(NpmRunDev),
              Text(ClosingFence));
  }

  /** Starting the backend. */
  method WriteStartBackend(instructions0: string, ghost written0: Written) returns (instructions: string, ghost written: Written)
    requires instructions0 == WrittenText(written0)
    ensures Pieces(written) == Pieces(written0) + StartBackend()
    ensures instructions == WrittenText(written)
  {
    instructions, written := instructions0, written0;
    instructions, written := Append(instructions, written, [Text(BackendTerminal)]);
    instructions, written := Append(instructions, written, [Text(BashFence)]);
    instructions, written := Append(instructions, written, [Text(CdBackend)]);
    instructions, written := Append(instructions, written, [Text(NodeIndex)]);
    instructions, written := Append(instructions, written, [Text(ClosingFence)]);
    FiveLines(Pieces(written0), Text(BackendTerminal), Text(BashFence), Text(CdBackend), Text(NodeIndex),
              Text(ClosingFence));
  }

  /** Starting the development server when there is no backend directory. */
  method WriteStartSingle(instructions0: string, ghost written0: Written) returns (instructions: string, ghost written: Written)
    requires instructions0 == WrittenText(written0)
    ensures Pieces(written) == Pieces(written0) + StartSingle()
    ensures instructions == WrittenText(written)
  {
    instructions, written := instructions0, written0;
    instructions, written := Append(instructions, written, [Text(StartServerHeading)]);
    instructions, written := Append(instructions, written, [Text(BashFence)]);
    instructions, written := Append(instructions, written, [Text(NpmRunDev)]);
    instructions, written := Append(instructions, written, [Text(ClosingFence)]);
    FourLines(Pieces(written0), Text(StartServerHeading), Text(BashFence), Text(NpmRunDev), Text(ClosingFence));
  }

  /**
    `generateInstallation(technologies)`: the blocks appended in order,
    with the placeholders in the clone step. `hasBackendDir` stands for
    `fs.existsSync('backend')`.
   */
  method GenerateInstallation(techs: seq<Tech>, hasBackendDir: bool) returns (instructions: string)
    ensures instructions == Render(Layout(HasNodeJs(techs), Python in techs, hasBackendDir), OwnerToken, NameToken)
  {
    var hasNodeJs := NodeJs in techs || React in techs || Express in techs;
    var hasPython := Python in techs;
    var hasBackend := hasBackendDir;

    ghost var written: Written;
    instructions, written := WritePrerequisites(hasNodeJs, hasPython);
    instructions, written := WriteQuickStart(instructions, written);
    instructions, written := WriteInstallSteps(instructions, written, hasNodeJs, hasBackend);
    instructions, written := WritePythonStep(instructions, written, hasPython);
    instructions, written := WriteStartSteps(instructions, written, hasNodeJs, hasBackend);
    WrittenTextRenders(written);
  }

  /**
    `installation.replace(/{{OWNER}}/g, owner).replace(/{{REPO_NAME}}/g, name)`:
    the owner and name are replacement strings, so their `$` patterns expand.
   */
  function Fill(t: string, owner: string, name: string): string
  {
    GlobalReplace(GlobalReplace(t, OwnerToken, owner), NameToken, name)
  }

  /** No fixed text of the layout contains a brace. */
  predicate Plain(ps: seq<Piece>)
  {
    forall i :: 0 <= i < |ps| && ps[i].Text? ==> Lacks(ps[i].s, '{')
  }

  lemma OwnerTokenEnd(a: string)
    ensures CleanEnd(a + OwnerToken, OwnerToken)
  {
    var x := a + OwnerToken;
    forall j | 0 < j < |OwnerToken| && j <= |x|
      ensures x[|x| - j..] != OwnerToken[..j]
    {
      assert x[|x| - j..] == OwnerToken[|OwnerToken| - j..];
      if j == 8 {
        assert OwnerToken[|OwnerToken| - j..][1] != OwnerToken[..j][1];
      } else {
        assert OwnerToken[|OwnerToken| - j..][0] != OwnerToken[..j][0];
      }
    }
  }

  lemma NameTokenEnd(a: string)
    ensures CleanEnd(a + NameToken, NameToken)
  {
    var x := a + NameToken;
    forall j | 0 < j < |NameToken| && j <= |x|
      ensures x[|x| - j..] != NameToken[..j]
    {
      assert x[|x| - j..] == NameToken[|NameToken| - j..];
      if j == 12 {
        assert NameToken[|NameToken| - j..][1] != NameToken[..j][1];
      } else {
        assert NameToken[|NameToken| - j..][0] != NameToken[..j][0];
      }
    }
  }

  lemma NameTokenEndForOwner(a: string)
    ensures CleanEnd(a + NameToken, OwnerToken)
  {
    var x := a + NameToken;
    forall j | 0 < j < |OwnerToken| && j <= |x|
      ensures x[|x| - j..] != OwnerToken[..j]
    {
      assert x[|x| - j..] == NameToken[|NameToken| - j..];
      assert NameToken[|NameToken| - j..][0] != OwnerToken[..j][0];
    }
  }

  /** The repository-name placeholder survives the owner replacement. */
  lemma NameTokenKept(owner: string)
    ensures ReplaceAll(NameToken, OwnerToken, owner) == NameToken
  {
    assert NameToken[..|OwnerToken|] != OwnerToken by {
      assert NameToken[..|OwnerToken|][2] != OwnerToken[2];
    }
    var t1 := NameToken[1..];
    assert t1[..|OwnerToken|] != OwnerToken by {
      assert t1[..|OwnerToken|][1] != OwnerToken[1];
    }
    var t2 := NameToken[2..];
    assert t1[1..] == t2;
    ReplaceAllLacking(t2, OwnerToken, owner);
    assert NameToken == [NameToken[0]] + ([NameToken[1]] + t2);
  }

  lemma {:induction false} PlainPrefix(ps: seq<Piece>)
    requires Plain(ps) && ps != []
    ensures Plain(ps[..|ps| - 1])
  {
    var ps' := ps[..|ps| - 1];
    forall i | 0 <= i < |ps'| && ps'[i].Text?
      ensures Lacks(ps'[i].s, '{')
    {
      assert ps'[i] == ps[i];
    }
  }

  lemma {:induction false} OwnerPassCleanEnd(ps: seq<Piece>)
    requires Plain(ps)
    ensures CleanEnd(Render(ps, OwnerToken, NameToken), OwnerToken)
    decreases |ps|
  {
    if ps != [] {
      var ps' := ps[..|ps| - 1];
      var p := ps[|ps| - 1];
      PlainPrefix(ps);
      OwnerPassCleanEnd(ps');
      var a := Render(ps', OwnerToken, NameToken);
      match p
      case Text(t) => CleanEndAppendLacking(a, t, OwnerToken);
      case OwnerSlot => OwnerTokenEnd(a);
      case NameSlot => NameTokenEndForOwner(a);
    }
  }

  /** The owner replacement puts the owner in every owner slot and nothing else changes. */
  lemma {:induction false} OwnerPass(ps: seq<Piece>, owner: string)
    requires Plain(ps)
    ensures ReplaceAll(Render(ps, OwnerToken, NameToken), OwnerToken, owner) == Render(ps, owner, NameToken)
    decreases |ps|
  {
    if ps != [] {
      var ps' := ps[..|ps| - 1];
      var p := ps[|ps| - 1];
      PlainPrefix(ps);
      OwnerPassCleanEnd(ps');
      OwnerPass(ps', owner);
      ReplaceAllConcat(Render(ps', OwnerToken, NameToken), RenderPiece(p, OwnerToken, NameToken), OwnerToken, owner);
      match p
      case Text(t) => ReplaceAllLacking(t, OwnerToken, owner);
      case OwnerSlot => ReplaceAllWhole(OwnerToken, owner);
      case NameSlot => NameTokenKept(owner);
    }
  }

  lemma {:induction false} NamePassCleanEnd(ps: seq<Piece>, owner: string)
    requires Plain(ps) && Lacks(owner, '{')
    ensures CleanEnd(Render(ps, owner, NameToken), NameToken)
    decreases |ps|
  {
    if ps != [] {
      var ps' := ps[..|ps| - 1];
      var p := ps[|ps| - 1];
      PlainPrefix(ps);
      NamePassCleanEnd(ps', owner);
      var a := Render(ps', owner, NameToken);
      match p
      case Text(t) => CleanEndAppendLacking(a, t, NameToken);
      case OwnerSlot => CleanEndAppendLacking(a, owner, NameToken);
      case NameSlot => NameTokenEnd(a);
    }
  }

  /** The name replacement puts the name in every name slot, given an owner without braces. */
  lemma {:induction false} NamePass(ps: seq<Piece>, owner: string, name: string)
    requires Plain(ps) && Lacks(owner, '{')
    ensures ReplaceAll(Render(ps, owner, NameToken), NameToken, name) == Render(ps, owner, name)
    decreases |ps|
  {
    if ps != [] {
      var ps' := ps[..|ps| - 1];
      var p := ps[|ps| - 1];
      PlainPrefix(ps);
      NamePassCleanEnd(ps', owner);
      NamePass(ps', owner, name);
      ReplaceAllConcat(Render(ps', owner, NameToken), RenderPiece(p, owner, NameToken), NameToken, name);
      match p
      case Text(t) => ReplaceAllLacking(t, NameToken, name);
      case OwnerSlot => ReplaceAllLacking(owner, NameToken, name);
      case NameSlot => ReplaceAllWhole(NameToken, name);
    }
  }

  /**
    Filling the placeholders of any plain layout writes the owner and name
    into their slots, given an owner without braces and an owner and name
    in which no `$` pattern expands.
   */
  lemma FillRender(ps: seq<Piece>, owner: string, name: string)
    requires Plain(ps) && Lacks(owner, '{') && Inert(owner) && Inert(name)
    ensures Fill(Render(ps, OwnerToken, NameToken), owner, name) == Render(ps, owner, name)
  {
    GlobalReplaceLiteral(Render(ps, OwnerToken, NameToken), OwnerToken, owner);
    OwnerPass(ps, owner);
    GlobalReplaceLiteral(Render(ps, owner, NameToken), NameToken, name);
    NamePass(ps, owner, name);
  }

  /**
    A name holding `$&` does not land in its slot as written: the `$&`
    becomes the placeholder it replaces, so `a$&b` gives `a{{REPO_NAME}}b`.
   */
  lemma NameSlotExpandsMatch(x: string, y: string)
    requires Inert(x) && Inert(y) && (x == [] || x[|x| - 1] != '$')
    ensures GlobalReplace(NameToken, NameToken, x + "$&" + y) == x + NameToken + y
  {
    GlobalReplaceWhole(NameToken, x + "$&" + y);
    SubstitutionMatched(x, y, NameToken, "", "");
  }

  lemma PlainConcat(a: seq<Piece>, b: seq<Piece>)
    requires Plain(a) && Plain(b)
    ensures Plain(a + b)
  {
    forall i | 0 <= i < |a + b| && (a + b)[i].Text?
      ensures Lacks((a + b)[i].s, '{')
    {
      if i >= |a| {
        assert (a + b)[i] == b[i - |a|];
      }
    }
  }

  /** Part 1 of FixedLinesPlain: at most three lines each, so that each proof stays small. */
  lemma FixedLinesPlain1()
    ensures Lacks(PrerequisitesHeading, '{') && Lacks(NodeVersion, '{') && Lacks(NpmOrYarn, '{')
  {
  }

  /** Part 2 of FixedLinesPlain: at most three lines each, so that each proof stays small. */
  lemma FixedLinesPlain2()
    ensures Lacks(PythonVersion, '{') && Lacks(PipManager, '{') && Lacks(QuickStartHeading, '{')
  {
  }

  /** Part 3 of FixedLinesPlain: at most three lines each, so that each proof stays small. */
  lemma FixedLinesPlain3()
    ensures Lacks(CloneHeading, '{') && Lacks(BashFence, '{') && Lacks(GitClone, '{')
  {
  }

  /** Part 4 of FixedLinesPlain: at most three lines each, so that each proof stays small. */
  lemma FixedLinesPlain4()
    ensures Lacks(Slash, '{') && Lacks(DotGitLine, '{') && Lacks(Cd, '{')
  {
  }

  /** Part 5 of FixedLinesPlain: at most three lines each, so that each proof stays small. */
  lemma FixedLinesPlain5()
    ensures Lacks(LineEnd, '{') && Lacks(ClosingFence, '{') && Lacks(InstallFrontendHeading, '{')
  {
  }

  /** Part 6 of FixedLinesPlain: at most three lines each, so that each proof stays small. */
  lemma FixedLinesPlain6()
    ensures Lacks(NpmInstall, '{') && Lacks(InstallBackendHeading, '{') && Lacks(CdBackend, '{')
  {
  }

  /** Part 7 of FixedLinesPlain: at most three lines each, so that each proof stays small. */
  lemma FixedLinesPlain7()
    ensures Lacks(CdUp, '{') && Lacks(InstallHeading, '{') && Lacks(InstallPythonHeading, '{')
  {
  }

  /** Part 8 of FixedLinesPlain: at most three lines each, so that each proof stays small. */
  lemma FixedLinesPlain8()
    ensures Lacks(PipInstall, '{') && Lacks(StartServersHeading, '{') && Lacks(FrontendTerminal, '{')
  {
  }

  /** Part 9 of FixedLinesPlain: at most three lines each, so that each proof stays small. */
  lemma FixedLinesPlain9()
    ensures Lacks(NpmRunDev, '{') && Lacks(BackendTerminal, '{') && Lacks(NodeIndex, '{')
  {
  }

  /** Part 10 of FixedLinesPlain: at most three lines each, so that each proof stays small. */
  lemma FixedLinesPlain10()
    ensures Lacks(StartServerHeading, '{')
  {
  }

  /** No fixed line contains a brace. */
  lemma FixedLinesPlain()
    ensures Lacks(PrerequisitesHeading, '{')
    ensures Lacks(NodeVersion, '{')
    ensures Lacks(NpmOrYarn, '{')
    ensures Lacks(PythonVersion, '{')
    ensures Lacks(PipManager, '{')
    ensures Lacks(QuickStartHeading, '{')
    ensures Lacks(CloneHeading, '{')
    ensures Lacks(BashFence, '{')
    ensures Lacks(GitClone, '{')
    ensures Lacks(Slash, '{')
    ensures Lacks(DotGitLine, '{')
    ensures Lacks(Cd, '{')
    ensures Lacks(LineEnd, '{')
    ensures Lacks(ClosingFence, '{')
    ensures Lacks(InstallFrontendHeading, '{')
    ensures Lacks(NpmInstall, '{')
    ensures Lacks(InstallBackendHeading, '{')
    ensures Lacks(CdBackend, '{')
    ensures Lacks(CdUp, '{')
    ensures Lacks(InstallHeading, '{')
    ensures Lacks(InstallPythonHeading, '{')
    ensures Lacks(PipInstall, '{')
    ensures Lacks(StartServersHeading, '{')
    ensures Lacks(FrontendTerminal, '{')
    ensures Lacks(NpmRunDev, '{')
    ensures Lacks(BackendTerminal, '{')
    ensures Lacks(NodeIndex, '{')
    ensures Lacks(StartServerHeading, '{')
  {
    FixedLinesPlain1();
    FixedLinesPlain2();
    FixedLinesPlain3();
    FixedLinesPlain4();
    FixedLinesPlain5();
    FixedLinesPlain6();
    FixedLinesPlain7();
    FixedLinesPlain8();
    FixedLinesPlain9();
    FixedLinesPlain10();
  }

  /** No fixed line of the installation text contains a brace. */
  lemma LayoutPlain(hasNodeJs: bool, hasPython: bool, hasBackend: bool)
    ensures Plain(Layout(hasNodeJs, hasPython, hasBackend))
  {
    var pre := Prerequisites(hasNodeJs, hasPython);
    PrerequisitesPlain(hasNodeJs, hasPython);
    StepsPlain(hasNodeJs, hasPython, hasBackend);
    PlainConcat(pre, QuickStart());
    PlainConcat(pre + QuickStart(), InstallSteps(hasNodeJs, hasBackend));
    PlainConcat(pre + QuickStart() + InstallSteps(hasNodeJs, hasBackend), PythonStep(hasPython));
    PlainConcat(pre + QuickStart() + InstallSteps(hasNodeJs, hasBackend) + PythonStep(hasPython),
                StartSteps(hasNodeJs, hasBackend));
  }

  lemma PrerequisitesPlain(hasNodeJs: bool, hasPython: bool)
    ensures Plain(Prerequisites(hasNodeJs, hasPython))
  {
    FixedLinesPlain();
    var node := if hasNodeJs then [Text(NodeVersion), Text(NpmOrYarn)] else [];
    var python := if hasPython then [Text(PythonVersion), Text(PipManager)] else [];
    PlainConcat([Text(PrerequisitesHeading)], node);
    PlainConcat([Text(PrerequisitesHeading)] + node, python);
  }

  lemma StepsPlain(hasNodeJs: bool, hasPython: bool, hasBackend: bool)
    ensures Plain(QuickStart())
    ensures Plain(InstallSteps(hasNodeJs, hasBackend))
    ensures Plain(PythonStep(hasPython))
    ensures Plain(StartSteps(hasNodeJs, hasBackend))
  {
    FixedLinesPlain();
    PlainConcat(InstallFrontend(), InstallBackend());
    PlainConcat(StartFrontend(), StartBackend());
  }

  /**
    The installation section as it appears in the README: the clone step
    names the repository's owner and name, and every other line is as
    written by `generateInstallation`, whenever the owner has no brace and
    neither the owner nor the name holds an expanding `$` pattern.
   */
  lemma InstallationFilled(hasNodeJs: bool, hasPython: bool, hasBackend: bool, owner: string, name: string)
    requires Lacks(owner, '{') && Inert(owner) && Inert(name)
    ensures var layout := Layout(hasNodeJs, hasPython, hasBackend);
            Fill(Render(layout, OwnerToken, NameToken), owner, name) == Render(layout, owner, name)
  {
    LayoutPlain(hasNodeJs, hasPython, hasBackend);
    FillRender(Layout(hasNodeJs, hasPython, hasBackend), owner, name);
  }

  lemma {:induction false} InConcat(p: Piece, a: seq<Piece>, b: seq<Piece>)
    ensures p in a + b <==> p in a || p in b
  {
    if p in a + b {
      var i :| 0 <= i < |a + b| && (a + b)[i] == p;
      if i >= |a| {
        assert b[i - |a|] == p;
      }
    }
    if p in b {
      var i :| 0 <= i < |b| && b[i] == p;
      assert (a + b)[|a| + i] == p;
    }
  }

  /** Where each piece of the layout comes from. */
  lemma InLayout(p: Piece, hasNodeJs: bool, hasPython: bool, hasBackend: bool)
    ensures p in Layout(hasNodeJs, hasPython, hasBackend) <==>
      p in Prerequisites(hasNodeJs, hasPython) || p in QuickStart() || p in InstallSteps(hasNodeJs, hasBackend)
      || p in PythonStep(hasPython) || p in StartSteps(hasNodeJs, hasBackend)
  {
    var pre := Prerequisites(hasNodeJs, hasPython);
    var a := pre + QuickStart();
    var b := a + InstallSteps(hasNodeJs, hasBackend);
    var c := b + PythonStep(hasPython);
    InConcat(p, pre, QuickStart());
    InConcat(p, a, InstallSteps(hasNodeJs, hasBackend));
    InConcat(p, b, PythonStep(hasPython));
    InConcat(p, c, StartSteps(hasNodeJs, hasBackend));
  }

  /** The Node.js prerequisite is listed exactly when Node.js steps are given. */
  lemma NodePrerequisiteIff(hasNodeJs: bool, hasPython: bool, hasBackend: bool)
    ensures Text(NodeVersion) in Layout(hasNodeJs, hasPython, hasBackend) <==> hasNodeJs
  {
    var p := Text(NodeVersion);
    InLayout(p, hasNodeJs, hasPython, hasBackend);
    InConcat(p, [Text(PrerequisitesHeading)], if hasNodeJs then [p, Text(NpmOrYarn)] else []);
    InConcat(p, InstallFrontend(), InstallBackend());
    InConcat(p, StartFrontend(), StartBackend());
  }

  /** The Python prerequisite is listed exactly when Python was detected. */
  lemma PythonPrerequisiteIff(hasNodeJs: bool, hasPython: bool, hasBackend: bool)
    ensures Text(PythonVersion) in Layout(hasNodeJs, hasPython, hasBackend) <==> hasPython
  {
    var p := Text(PythonVersion);
    var node := if hasNodeJs then [Text(NodeVersion), Text(NpmOrYarn)] else [];
    InLayout(p, hasNodeJs, hasPython, hasBackend);
    InConcat(p, [Text(PrerequisitesHeading)], node);
    InConcat(p, [Text(PrerequisitesHeading)] + node, if hasPython then [p, Text(PipManager)] else []);
    PythonVersionOnlyPrerequisite(hasNodeJs, hasPython, hasBackend);
  }

  lemma PythonVersionOnlyPrerequisite(hasNodeJs: bool, hasPython: bool, hasBackend: bool)
    ensures Text(PythonVersion) !in QuickStart()
    ensures Text(PythonVersion) !in InstallSteps(hasNodeJs, hasBackend)
    ensures Text(PythonVersion) !in PythonStep(hasPython)
    ensures Text(PythonVersion) !in StartSteps(hasNodeJs, hasBackend)
  {
    var p := Text(PythonVersion);
    InConcat(p, InstallFrontend(), InstallBackend());
    InConcat(p, StartFrontend(), StartBackend());
  }

  /** `npm install` is shown exactly when Node.js steps are given. */
  lemma NpmInstallIff(hasNodeJs: bool, hasPython: bool, hasBackend: bool)
    ensures Text(NpmInstall) in Layout(hasNodeJs, hasPython, hasBackend) <==> hasNodeJs
  {
    var p := Text(NpmInstall);
    InLayout(p, hasNodeJs, hasPython, hasBackend);
    InConcat(p, InstallFrontend(), InstallBackend());
    InConcat(p, StartFrontend(), StartBackend());
    if hasNodeJs {
      if hasBackend {
        assert InstallFrontend()[2] == p;
      } else {
        assert InstallSingle()[2] == p;
      }
    }
  }

  /** The Python dependencies are installed exactly when Python was detected. */
  lemma PipInstallIff(hasNodeJs: bool, hasPython: bool, hasBackend: bool)
    ensures Text(PipInstall) in Layout(hasNodeJs, hasPython, hasBackend) <==> hasPython
  {
    var p := Text(PipInstall);
    InLayout(p, hasNodeJs, hasPython, hasBackend);
    InConcat(p, InstallFrontend(), InstallBackend());
    InConcat(p, StartFrontend(), StartBackend());
    if hasPython {
      assert PythonInstall()[2] == p;
    }
  }

  /** The backend is started separately exactly for a Node.js project with a backend directory. */
  lemma BackendStartIff(hasNodeJs: bool, hasPython: bool, hasBackend: bool)
    ensures Text(NodeIndex) in Layout(hasNodeJs, hasPython, hasBackend) <==> hasNodeJs && hasBackend
  {
    var p := Text(NodeIndex);
    InLayout(p, hasNodeJs, hasPython, hasBackend);
    InConcat(p, InstallFrontend(), InstallBackend());
    InConcat(p, StartFrontend(), StartBackend());
    if hasNodeJs && hasBackend {
      assert StartBackend()[3] == p;
    }
  }

  /** The clone step is always there, with its owner and name slots. */
  lemma CloneStepAlways(hasNodeJs: bool, hasPython: bool, hasBackend: bool)
    ensures OwnerSlot in Layout(hasNodeJs, hasPython, hasBackend)
    ensures NameSlot in Layout(hasNodeJs, hasPython, hasBackend)
  {
    InLayout(OwnerSlot, hasNodeJs, hasPython, hasBackend);
    InLayout(NameSlot, hasNodeJs, hasPython, hasBackend);
    assert QuickStart()[4] == OwnerSlot && QuickStart()[6] == NameSlot;
  }
}
