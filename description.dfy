/**
  The project description (`generateDescription`) and the per-library
  blurbs (`getLibraryDescription`).
 */
module Description {
  import opened JsStrings
  import opened Technologies

  /** `technologies.join(', ')` on the labels. */
  function TechString(techs: seq<Tech>): string
  {
    Join(seq(|techs|, i requires 0 <= i < |techs| => Label(techs[i])), ", ")
  }

  const ChessText: string :=
    "A modern, full-stack chess application built with React and Node.js, featuring real-time multiplayer gameplay, interactive chessboard with drag-and-drop functionality, and Socket.IO-powered live game sessions. This project combines the classic game of chess with modern web technologies to deliver an engaging gaming experience."

  function RealtimeText(lower: string): string
  {
    "A modern, full-stack " + lower + RealtimeTail
  }

  function ChessLibraryText(techString: string): string
  {
    "A chess application built with " + techString + ChessLibraryTail
  }

  function ReactText(lower: string): string
  {
    "A modern React application for " + lower + ReactTail
  }

  function NodeText(lower: string): string
  {
    "A Node.js application for " + lower + NodeTail
  }

  function PythonText(lower: string): string
  {
    "A Python application for " + lower + PythonTail
  }

  function GenericText(lower: string, techString: string): string
  {
    "A modern " + lower + " application built with " + techString + GenericTail
  }

  // The fixed text after the last interpolation of each description.
  const RealtimeTail: string :=
    " application built with React and Node.js, featuring real-time multiplayer functionality, interactive user interface, and Socket.IO-powered live sessions. This project combines cutting-edge web technologies to deliver an engaging user experience."

  const ChessLibraryTail: string :=
    ", featuring chess game logic, move validation, and an interactive chessboard interface. Perfect for chess enthusiasts and developers interested in game development."

  const ReactTail: string :=
    ", featuring a responsive user interface and interactive components. Built with modern web technologies for optimal performance and user experience."

  const NodeTail: string :=
    ", featuring server-side functionality and robust backend architecture. Built with modern JavaScript technologies and best practices."

  const PythonTail: string :=
    ", featuring clean code architecture and powerful functionality. Built with Python best practices and modern development workflows."

  const GenericTail: string :=
    ". This project combines modern technologies to deliver a robust and scalable solution."

  /** `generateDescription(repoName, technologies)`: the first condition that holds picks the text. */
  function GenerateDescription(repoName: string, techs: seq<Tech>): (r: string)
    ensures ChessJs in techs && SocketIO in techs ==> r == ChessText
  {
    var lower := ToLowerCase(repoName);
    if ChessJs in techs && SocketIO in techs then ChessText
    else if React in techs && SocketIO in techs then RealtimeText(lower)
    else if ChessJs in techs then ChessLibraryText(TechString(techs))
    else if React in techs then ReactText(lower)
    else if NodeJs in techs then NodeText(lower)
    else if Python in techs then PythonText(lower)
    else GenericText(lower, TechString(techs))
  }

  /** The characters counted from the end of a text are those of its fixed tail. */
  lemma FromEnd(front: string, tail: string, k: nat)
    requires 0 < k <= |tail|
    ensures |front + tail| >= k && (front + tail)[|front + tail| - k] == tail[|tail| - k]
  {
  }

  /**
    The thirteenth and eighteenth characters from the end, which fall in
    each text's fixed tail whatever is interpolated.
   */
  function Signature(t: string): (char, char)
    requires |t| >= 18
  {
    (t[|t| - 13], t[|t| - 18])
  }

  lemma ChessMark()
    ensures |ChessText| >= 18 && Signature(ChessText) == ('g', 'g')
  {
  }

  lemma RealtimeMark(lower: string)
    ensures |RealtimeText(lower)| >= 18 && Signature(RealtimeText(lower)) == ('r', 'g')
  {
    FromEnd("A modern, full-stack " + lower, RealtimeTail, 13);
    FromEnd("A modern, full-stack " + lower, RealtimeTail, 18);
  }

  lemma ChessLibraryMark(techString: string)
    ensures |ChessLibraryText(techString)| >= 18 && Signature(ChessLibraryText(techString)) == (' ', ' ')
  {
    FromEnd("A chess application built with " + techString, ChessLibraryTail, 13);
    FromEnd("A chess application built with " + techString, ChessLibraryTail, 18);
  }

  lemma ReactMark(lower: string)
    ensures |ReactText(lower)| >= 18 && Signature(ReactText(lower)) == ('r', 'd')
  {
    FromEnd("A modern React application for " + lower, ReactTail, 13);
    FromEnd("A modern React application for " + lower, ReactTail, 18);
  }

  lemma NodeMark(lower: string)
    ensures |NodeText(lower)| >= 18 && Signature(NodeText(lower)) == ('s', 'n')
  {
    FromEnd("A Node.js application for " + lower, NodeTail, 13);
    FromEnd("A Node.js application for " + lower, NodeTail, 18);
  }

  lemma PythonMark(lower: string)
    ensures |PythonText(lower)| >= 18 && Signature(PythonText(lower)) == ('n', 'l')
  {
    FromEnd("A Python application for " + lower, PythonTail, 13);
    FromEnd("A Python application for " + lower, PythonTail, 18);
  }

  lemma GenericMark(lower: string, techString: string)
    ensures |GenericText(lower, techString)| >= 18 && Signature(GenericText(lower, techString)) == ('b', 's')
  {
    FromEnd("A modern " + lower + " application built with " + techString, GenericTail, 13);
    FromEnd("A modern " + lower + " application built with " + techString, GenericTail, 18);
  }

  /** The seven texts differ pairwise, whatever is interpolated: their signatures do. */
  lemma TextsDistinct(lower: string, techString: string)
    ensures ChessText != RealtimeText(lower)
    ensures ChessText != ChessLibraryText(techString)
    ensures ChessText != ReactText(lower)
    ensures ChessText != NodeText(lower)
    ensures ChessText != PythonText(lower)
    ensures ChessText != GenericText(lower, techString)
    ensures RealtimeText(lower) != ChessLibraryText(techString)
    ensures RealtimeText(lower) != ReactText(lower)
    ensures RealtimeText(lower) != NodeText(lower)
    ensures RealtimeText(lower) != PythonText(lower)
    ensures RealtimeText(lower) != GenericText(lower, techString)
    ensures ChessLibraryText(techString) != ReactText(lower)
    ensures ChessLibraryText(techString) != NodeText(lower)
    ensures ChessLibraryText(techString) != PythonText(lower)
    ensures ChessLibraryText(techString) != GenericText(lower, techString)
    ensures ReactText(lower) != NodeText(lower)
    ensures ReactText(lower) != PythonText(lower)
    ensures ReactText(lower) != GenericText(lower, techString)
    ensures NodeText(lower) != PythonText(lower)
    ensures NodeText(lower) != GenericText(lower, techString)
    ensures PythonText(lower) != GenericText(lower, techString)
  {
    ChessMark();
    RealtimeMark(lower);
    ChessLibraryMark(techString);
    ReactMark(lower);
    NodeMark(lower);
    PythonMark(lower);
    GenericMark(lower, techString);
  }

  /**
    First match wins: each text is returned exactly when its condition is
    the first of the chain that holds. In particular the generic text is
    returned only when no earlier condition holds.
   */
  lemma DescriptionChoice(repoName: string, techs: seq<Tech>)
    ensures var r := GenerateDescription(repoName, techs);
      var lower := ToLowerCase(repoName);
      var chess := ChessJs in techs;
      var socket := SocketIO in techs;
      var react := React in techs;
      && (r == ChessText <==> chess && socket)
      && (r == RealtimeText(lower) <==> !(chess && socket) && react && socket)
      && (r == ChessLibraryText(TechString(techs)) <==> !(chess && socket) && !(react && socket) && chess)
      && (r == ReactText(lower) <==> !socket && !chess && react)
      && (r == NodeText(lower) <==> !chess && !react && NodeJs in techs)
      && (r == PythonText(lower) <==> !chess && !react && NodeJs !in techs && Python in techs)
      && (r == GenericText(lower, TechString(techs)) <==>
            !chess && !react && NodeJs !in techs && Python !in techs)
  {
    var lower := ToLowerCase(repoName);
    TextsDistinct(lower, TechString(techs));
  }

  const DefaultLibraryText: string := "Modern technology for building applications"

  /** The blurbs `getLibraryDescription` knows, keyed by label. */
  const LibraryTexts: map<string, string> := map[
    "React" := "A JavaScript library for building user interfaces",
    "Vue" := "The Progressive JavaScript Framework",
    "Angular" := "Platform for building mobile and desktop web applications",
    "Express.js" := "Fast, unopinionated web framework for Node.js",
    "Socket.IO" := "Real-time bidirectional event-based communication",
    "Vite" := "Next generation frontend tooling",
    "Node.js" := "JavaScript runtime built on Chrome's V8 JavaScript engine",
    "TypeScript" := "JavaScript with syntax for types",
    "Chess.js" := "JavaScript chess library for chess move generation/validation",
    "EJS" := "Embedded JavaScript templating engine"
  ]

  /** `getLibraryDescription(tech)`: the table's blurb, or the default text. */
  function LibraryDescription(tech: string): (r: string)
    ensures tech in LibraryTexts ==> r == LibraryTexts[tech]
  {
    if tech in LibraryTexts && LibraryTexts[tech] != "" then LibraryTexts[tech] else DefaultLibraryText
  }

  /** The default is given exactly for the names the table lacks: no blurb is empty or the default itself. */
  lemma LibraryDefaultIffUnknown(tech: string)
    ensures LibraryDescription(tech) == DefaultLibraryText <==> tech !in LibraryTexts
  {
    if tech in LibraryTexts {
      assert |LibraryTexts[tech]| != |DefaultLibraryText|;
    }
  }

  /** Of the labels the detection reports, exactly these seven get the default blurb. */
  lemma LabelsWithoutBlurb(t: Tech)
    ensures LibraryDescription(Label(t)) == DefaultLibraryText
      <==> t in {Webpack, TailwindCss, MongoDB, PostgreSQL, Python, Rust, Go}
  {
    LibraryDefaultIffUnknown(Label(t));
    match t
    case React =>
    case Vue =>
    case Angular =>
    case Express =>
    case SocketIO =>
    case ChessJs =>
    case Vite =>
    case Webpack =>
    case TypeScript =>
    case TailwindCss =>
    case MongoDB =>
    case PostgreSQL =>
    case NodeJs =>
    case Ejs =>
    case Python =>
    case Rust =>
    case Go =>
  }
}
