# README generator, modelled in Dafny

`scripts/generate-readme.cjs` writes a project README from facts about the
working directory. The model covers the deterministic core of that script:

- **Remote parsing** (`getRepoInfo`). The regular expression
  `github\.com[\/:]([^\/]+)\/([^\/]+?)(?:\.git)?$` is modelled as a matcher at
  one position (`MatchAt`) plus the leftmost search of `String.prototype.match`
  (`SearchFrom`). The lazy name group becomes `LazyName`. If git fails or
  nothing matches, the owner falls back to `YOUR-USERNAME` and the name to the
  working directory's base name.
- **Technology detection** (`detectTechnologies`). The labels are pushed in the
  script's order, from the two manifests' dependency-name sets and the marker
  files. `[...new Set(...)]` then keeps the first occurrence of each label.
- **The folder tree** (`generateFolderStructure`). It walks an abstract
  `Entry` tree:
  - filters out hidden entries, `node_modules` and `dist`;
  - sorts directories first, then by a name order that stands for
    `localeCompare`;
  - emits one line per entry: indent units, a branch, an emoji token, the name,
    and `/` after a directory;
  - then emits the entry's subtree in preorder, down to `maxLevel`.
- **The description** (`generateDescription`), a first-match-wins chain of
  seven texts, and the library blurbs of `getLibraryDescription`.
- **The installation section** (`generateInstallation`). The text is built
  with `+=` from the Node.js, Python and backend flags. The
  `{{OWNER}}`/`{{REPO_NAME}}` replacement that the README template applies to
  it follows.

Modules:
- `Wrappers` holds `Option`.
- `JsStrings` holds the JavaScript string operations the script relies on:
  `startsWith`, `endsWith`, `repeat`, `join`, `toLowerCase`, `trim`, and
  `replace` with a global pattern. That replace expands the `$$`, `$&`,
  `` $` `` and `$'` patterns of its replacement string (`GlobalReplace`).
  A literal replace-all (`ReplaceAll`) is what it comes to when the
  replacement has no such pattern.
- `RepoInfo`, `Technologies`, `FolderStructure`, `Description` and
  `Installation` each follow one function of the script.

The code that changes state step by step is written as methods proved
against specification functions:
- the pushes of `detectTechnologies`;
- the `forEach` loop of `generateFolderStructure`, with its `push`es of lines
  and recursive results;
- the `instructions +=` lines of `generateInstallation`.

The rest is functions and lemmas.

## Model

| member | source | states |
|---|---|---|
| JsStrings.ToLowerCase | scripts/generate-readme.cjs:133 | same length; every ASCII capital becomes its lower-case letter, every other character is kept, and no capital is left |
| JsStrings.Trim | scripts/generate-readme.cjs:10 | the result is a slice of the input with only whitespace before and after it, and it neither starts nor ends with whitespace |
| JsStrings.TrimPadded | scripts/generate-readme.cjs:10 | trimming whitespace padding around a text that starts and ends with non-whitespace gives back that text |
| JsStrings.StartsWith | scripts/generate-readme.cjs:88 | `s.startsWith(p)`: `p` is a prefix of `s` (the hidden-entry test of the filter) |
| JsStrings.EndsWith | scripts/generate-readme.cjs:106-110 | `s.endsWith(p)`: `p` is a suffix of `s` (the extension tests of the emoji chain) |
| JsStrings.Repeat | scripts/generate-readme.cjs:82 | `unit.repeat(n)` has `n` times the unit's length |
| JsStrings.RepeatCopies | scripts/generate-readme.cjs:82 | each of the `n` blocks of `unit.repeat(n)` is the unit itself |
| JsStrings.Join | scripts/generate-readme.cjs:128 | `parts.join(sep)`: the parts with the separator between neighbours; nothing for no parts |
| JsStrings.JoinSnoc | scripts/generate-readme.cjs:128 | joining one more part appends the separator and that part |
| JsStrings.Substitution | scripts/generate-readme.cjs:278 | the replacement text of one match: `$$` gives `$`, `$&` the match, `` $` `` the text before it, `$'` the text after it; every other character is kept |
| JsStrings.GlobalReplace | scripts/generate-readme.cjs:278 | `s.replace(/pat/g, rep)`: a left-to-right scan that replaces each non-overlapping match by its substitution |
| JsStrings.ReplaceAll | scripts/generate-readme.cjs:278 | the literal replace-all: each non-overlapping match replaced by `rep` as written |
| JsStrings.SubstitutionInert | scripts/generate-readme.cjs:278 | a replacement in which no `$` starts `$$`, `$&`, `` $` `` or `$'` is inserted as written |
| JsStrings.SubstitutionSplit | scripts/generate-readme.cjs:278 | the substitution keeps an inert leading text that does not end in `$` as written |
| JsStrings.SubstitutionMatched | scripts/generate-readme.cjs:278 | `x$&y`, for inert `x` and `y`, becomes `x`, the match, then `y` |
| JsStrings.ReplaceFromLiteral | scripts/generate-readme.cjs:278 | with an inert replacement, the scan from any position is the literal replace-all of the rest |
| JsStrings.GlobalReplaceLiteral | scripts/generate-readme.cjs:278 | with an inert replacement, `replace` is the literal replace-all |
| JsStrings.GlobalReplaceWhole | scripts/generate-readme.cjs:278 | the pattern alone becomes the substitution, with the match and an empty text before and after it |
| JsStrings.ReplaceFromMatched | scripts/generate-readme.cjs:278 | the scan with `$&` from any position gives the rest of the text back |
| JsStrings.GlobalReplaceMatched | scripts/generate-readme.cjs:278 | `s.replace(/pat/g, "$&")` is `s` |
| JsStrings.ReplaceFromLacking | scripts/generate-readme.cjs:278 | `replace` leaves a text alone when the text lacks the pattern's first character, whatever the replacement |
| JsStrings.ReplaceAllLacking | scripts/generate-readme.cjs:278 | the literal replace-all leaves a text alone when the text lacks the pattern's first character |
| JsStrings.ReplaceAllSelf | scripts/generate-readme.cjs:278 | the literal replace-all of a pattern by itself changes nothing |
| JsStrings.ReplaceAllWhole | scripts/generate-readme.cjs:278 | the literal replace-all turns the pattern alone into the replacement |
| JsStrings.ReplaceAllConcat | scripts/generate-readme.cjs:278 | the literal replace-all splits over a concatenation whose left part cannot end inside a match |
| JsStrings.CleanEndAppendLacking | scripts/generate-readme.cjs:278 | appending text without the pattern's first character keeps a text unable to end inside a match |
| JsStrings.ReplaceAllKeepsLast | scripts/generate-readme.cjs:278 | after the literal replace-all, a text that ends in a character outside the pattern still ends in that character |
| RepoInfo.LazyName | scripts/generate-readme.cjs:11 | the lazy `([^\/]+?)` group followed by `(?:\.git)?$`: the tail less a final `.git`, unless `.git` is all there is (properties in `LazyNameSplit` and `LazyNameOf`) |
| RepoInfo.MatchAt | scripts/generate-readme.cjs:11 | the expression tried at one position; sound and complete for `RegexAt` by `MatchAtSound` and `MatchAtComplete` |
| RepoInfo.FirstSlash | scripts/generate-readme.cjs:11 | the index of the first `/`, with no `/` before it; None exactly when there is no `/` |
| RepoInfo.LazyNameSplit | scripts/generate-readme.cjs:11 | the lazy name group is non-empty, it and the optional `.git` make up the tail, and no shorter name would let the rest of the expression match |
| RepoInfo.LazyNameOf | scripts/generate-readme.cjs:11 | a name that the lazy group would pick is what it gives back |
| RepoInfo.MatchAtSound | scripts/generate-readme.cjs:11 | every result of the one-position matcher is a match of the expression (host, `/` or `:`, slash-free non-empty owner and name, optional `.git`, end of text, shortest name) |
| RepoInfo.RestSound | scripts/generate-readme.cjs:11 | after the separator come a non-empty slash-free owner, a slash, the lazily chosen name and an optional `.git`, and no shorter name would fit |
| RepoInfo.MatchAtComplete | scripts/generate-readme.cjs:11 | every match of the expression at a position is what the matcher returns there |
| RepoInfo.SearchFrom | scripts/generate-readme.cjs:11 | the result is the match at the leftmost position that matches, or None when none does |
| RepoInfo.SearchStep | scripts/generate-readme.cjs:11 | when nothing matches at a position, the leftmost match from there is the leftmost match from the next position |
| RepoInfo.MatchRemote | scripts/generate-readme.cjs:11 | `remoteUrl.match(...)`: the search from position 0 (its meaning is in `SearchFrom`) |
| RepoInfo.MatchRemoteAt | scripts/generate-readme.cjs:11 | with nothing matching before `q`, `match` returns the match at `q` |
| RepoInfo.GetRepoInfo | scripts/generate-readme.cjs:8-27 | a failed git call gives `YOUR-USERNAME` and the directory name; any other result is either that fallback or groups of a match of the expression in the trimmed remote |
| RepoInfo.GetRepoInfoOfMatch | scripts/generate-readme.cjs:10-17 | when the expression matches the trimmed remote, the owner and name are the groups of its leftmost match |
| RepoInfo.RemoteUrlShape | scripts/generate-readme.cjs:11 | an HTTPS or SSH GitHub remote is the scheme, `github.com`, the separator, then `owner/name` with an optional `.git` |
| RepoInfo.RemoteUrlNoEarlierMatch | scripts/generate-readme.cjs:11 | nothing matches inside the scheme of such a remote |
| RepoInfo.RemoteUrlMatchesAt | scripts/generate-readme.cjs:11 | the expression matches such a remote right after its scheme, with the given owner and name |
| RepoInfo.RemoteUrlRoundTrip | scripts/generate-readme.cjs:11-17 | parsing the remote built from an owner and a name gives back that owner and name, with any `.git` dropped |
| RepoInfo.GetRepoInfoOfRemote | scripts/generate-readme.cjs:10-17 | git's output for such a remote, whitespace around it included, yields its owner and name |
| RepoInfo.NoHostNoMatch | scripts/generate-readme.cjs:11 | a text that never mentions `github.com` does not match |
| RepoInfo.GetRepoInfoOffGitHub | scripts/generate-readme.cjs:10-27 | a remote that never mentions `github.com` gives `YOUR-USERNAME` and the directory name |
| Technologies.Detected | scripts/generate-readme.cjs:34-73 | the condition under which each label is pushed, one per label (`Node.js` for `backend/package.json`, `MongoDB` for `mongodb` or `mongoose`, …) |
| Technologies.Pushes | scripts/generate-readme.cjs:31-73 | every push of the detection, in the script's order (properties in `PushesDetected` and the `…PushesMembers` lemmas) |
| Technologies.PushIf | scripts/generate-readme.cjs:38 | one `if (...) technologies.push(label)` appends the label exactly when its test holds |
| Technologies.PushRootLabels | scripts/generate-readme.cjs:38-49 | the twelve root-manifest checks append their labels in the script's order |
| Technologies.PushLibraryLabels | scripts/generate-readme.cjs:38-43 | the React to Chess.js checks append their labels in the script's order |
| Technologies.PushToolingLabels | scripts/generate-readme.cjs:44-49 | the Vite to PostgreSQL checks append their labels in the script's order |
| Technologies.PushBackendLabels | scripts/generate-readme.cjs:52-60 | the backend manifest appends `Node.js`, then its four package labels in order |
| Technologies.RootPushesMembers | scripts/generate-readme.cjs:38-49 | after the root checks a label is present exactly when it was already there or its root test holds |
| Technologies.LibraryPushesMembers | scripts/generate-readme.cjs:38-43 | after the React to Chess.js checks a label is present exactly when it was already there or its package test holds |
| Technologies.ToolingPushesMembers | scripts/generate-readme.cjs:44-49 | after the Vite to PostgreSQL checks a label is present exactly when it was already there or its package test holds (either of two packages for MongoDB and PostgreSQL) |
| Technologies.BackendPushesMembers | scripts/generate-readme.cjs:52-60 | after the backend checks a label is present exactly when it was already there or its backend test holds |
| Technologies.MarkerPushesMembers | scripts/generate-readme.cjs:63-73 | after the marker-file checks a label is present exactly when it was already there or its marker test holds |
| Technologies.PushesDetected | scripts/generate-readme.cjs:31-73 | a label is pushed at least once exactly when its detection condition holds |
| Technologies.Distinct | scripts/generate-readme.cjs:76 | `[...new Set(s)]` has no duplicates and the same members as `s` |
| Technologies.FirstIndex | scripts/generate-readme.cjs:76 | the position where a label first occurs |
| Technologies.DistinctKeepsFirstOrder | scripts/generate-readme.cjs:76 | the kept labels are in the order of their first occurrences |
| Technologies.FirstIndexConcat | scripts/generate-readme.cjs:76 | a label's first occurrence in `a + b` is its first in `a`, or else comes after `a` |
| Technologies.DetectTechnologies | scripts/generate-readme.cjs:31-77 | the result is the distinct pushes: no duplicates, and a label is reported exactly when it is detected |
| Technologies.ReportedIffDetected | scripts/generate-readme.cjs:31-77 | a label is in the deduplicated list exactly when its condition holds (`Node.js` exactly when `backend/package.json` exists, `MongoDB` for `mongodb` or `mongoose`, `Python` for `requirements.txt` or `setup.py`, …) |
| Technologies.NodeJsFollowsRoot | scripts/generate-readme.cjs:34-53 | with a backend manifest, `Node.js` is pushed right after all the root-manifest labels |
| Technologies.EarlierInDistinct | scripts/generate-readme.cjs:76 | a label that occurs before another's first occurrence stays before it after deduplication |
| Technologies.RootLabelsBeforeNodeJs | scripts/generate-readme.cjs:31-76 | a label found in the root manifest comes before `Node.js` in the result, even when the backend manifest also has it (`Express.js` found in both appears once, at its root position) |
| FolderStructure.VisibleEntries | scripts/generate-readme.cjs:88 | the filter keeps exactly the entries not starting with `.` and not named `node_modules` or `dist` |
| FolderStructure.Insert | scripts/generate-readme.cjs:89-95 | inserting adds exactly the one entry |
| FolderStructure.SortEntries | scripts/generate-readme.cjs:89-95 | sorting is a permutation |
| FolderStructure.InsertSorted | scripts/generate-readme.cjs:89-95 | inserting into a sorted listing keeps it sorted |
| FolderStructure.SortEntriesSorted | scripts/generate-readme.cjs:89-95 | the sort's result is ordered by the comparator, for a name order that is a total preorder |
| FolderStructure.Listing | scripts/generate-readme.cjs:87-95 | every name in the listing is visible |
| FolderStructure.ListingPermutation | scripts/generate-readme.cjs:87-95 | the listing of a readable directory is a permutation of its visible children |
| FolderStructure.ListingMembers | scripts/generate-readme.cjs:87-88 | an entry is listed exactly when it is a visible child |
| FolderStructure.ListingOrder | scripts/generate-readme.cjs:89-95 | in a listing every directory comes before every file, and entries of the same kind are in name order |
| FolderStructure.IconFor | scripts/generate-readme.cjs:104-110 | the folder for a directory, else the icon of the first extension rule the name matches (properties in `IconByFirstRule` and `FolderIffDirectory`) |
| FolderStructure.IconText | scripts/generate-readme.cjs:104-110 | the emoji characters of each icon |
| FolderStructure.Format | scripts/generate-readme.cjs:82-112 | the text of one line: indent units, branch, emoji, a space, the name, `/` after a directory (properties in `FormatIndent`) |
| FolderStructure.FirstRule | scripts/generate-readme.cjs:104-110 | the icon of the earliest rule whose extension list matches, or the plain icon when none does |
| FolderStructure.IconByFirstRule | scripts/generate-readme.cjs:104-110 | a file's emoji is the one of the first matching rule of the table `.js`/`.jsx`, `.ts`/`.tsx`, `.css`, `.json`, `.md` |
| FolderStructure.FolderIffDirectory | scripts/generate-readme.cjs:105 | an entry gets the folder emoji exactly when it is a directory |
| FolderStructure.FormatIndent | scripts/generate-readme.cjs:82-112 | a line at level L starts with exactly L indent units, and a directory's line ends in `/` |
| FolderStructure.Lines | scripts/generate-readme.cjs:84-117 | every line is at a level from `level` to `maxLevel` and names a visible entry; above `maxLevel` there are none |
| FolderStructure.Subtree | scripts/generate-readme.cjs:114-116 | an entry's subtree lies strictly deeper, down to `maxLevel` |
| FolderStructure.RangeSplit | scripts/generate-readme.cjs:97-117 | the lines of consecutive parts of a listing concatenate |
| FolderStructure.Preorder | scripts/generate-readme.cjs:97-117 | the `i`-th entry's line follows the earlier entries with their subtrees and precedes its own subtree and the later entries |
| FolderStructure.RangeAtLevel | scripts/generate-readme.cjs:97-117 | at the listing's own level the lines are just the entries' own lines |
| FolderStructure.RangeAtLevelStep | scripts/generate-readme.cjs:97-117 | one more entry adds only its own line at the listing's level, since its subtree lies deeper |
| FolderStructure.TopLevelLines | scripts/generate-readme.cjs:101-112 | the lines at the starting level are the listing in order; level 0 has no branch; deeper, only the last entry gets `└── ` and every other gets `├── ` |
| FolderStructure.ChooseEmoji | scripts/generate-readme.cjs:104-110 | the `else if` chain yields the emoji of the entry's icon |
| FolderStructure.EntryLine | scripts/generate-readme.cjs:98-112 | the pushed line is the formatted line of the entry |
| FolderStructure.RangeStepFormat | scripts/generate-readme.cjs:112-117 | one more entry adds its line and then its subtree's lines |
| FolderStructure.GenerateFolderStructure | scripts/generate-readme.cjs:80-124 | the loop's output is the formatted preorder walk of the tree |
| FolderStructure.GenerateFolderStructureDefault | scripts/generate-readme.cjs:80 | the script's own call draws levels 0 to 3 |
| Description.TechString | scripts/generate-readme.cjs:128 | the labels joined with `, ` |
| Description.GenerateDescription | scripts/generate-readme.cjs:127-145 | with both `Chess.js` and `Socket.IO`, the fixed chess text, whatever else is detected |
| Description.TextsDistinct | scripts/generate-readme.cjs:130-144 | the seven texts differ pairwise, whatever repository name and technology list they embed |
| Description.DescriptionChoice | scripts/generate-readme.cjs:130-144 | each text is returned exactly when its condition is the first in the chain to hold; the generic text only when no earlier condition holds |
| Description.LibraryDescription | scripts/generate-readme.cjs:221-235 | a label in the table gets its blurb |
| Description.LibraryDefaultIffUnknown | scripts/generate-readme.cjs:234 | the default text is given exactly for names missing from the table |
| Description.LabelsWithoutBlurb | scripts/generate-readme.cjs:221-235 | of the detected labels exactly Webpack, Tailwind CSS, MongoDB, PostgreSQL, Python, Rust and Go get the default |
| Installation.Render | scripts/generate-readme.cjs:153-214 | the pieces written out in order, with the owner and name in their slots (properties in `RenderConcat`) |
| Installation.Layout | scripts/generate-readme.cjs:148-216 | the pieces of the installation text in the order the script appends them, from the three flags (properties in the `…Iff` lemmas) |
| Installation.Append | scripts/generate-readme.cjs:153-214 | `instructions += line` extends the written text by the rendered line |
| Installation.WritePrerequisites | scripts/generate-readme.cjs:153-162 | the heading, then the Node.js lines with Node.js and the Python lines with Python |
| Installation.WriteQuickStart | scripts/generate-readme.cjs:164-169 | the clone step, with the owner placeholder and the name placeholder twice |
| Installation.WriteCloneIntro | scripts/generate-readme.cjs:164-166 | the quick start heading, the clone heading and the opening fence |
| Installation.WriteCloneCommands | scripts/generate-readme.cjs:167-169 | the clone command with both placeholders, the change of directory, and the closing fence |
| Installation.WriteInstallSteps | scripts/generate-readme.cjs:171-189 | nothing without Node.js; frontend and backend steps with a backend directory; one step otherwise |
| Installation.WriteInstallFrontend | scripts/generate-readme.cjs:173-176 | the frontend dependency step |
| Installation.WriteInstallBackend | scripts/generate-readme.cjs:177-182 | the backend dependency step |
| Installation.WriteInstallSingle | scripts/generate-readme.cjs:184-187 | the single dependency step |
| Installation.WritePythonStep | scripts/generate-readme.cjs:191-196 | the Python dependency step exactly with Python |
| Installation.WriteStartSteps | scripts/generate-readme.cjs:198-216 | nothing without Node.js; two servers with a backend directory; one server otherwise |
| Installation.WriteStartFrontend | scripts/generate-readme.cjs:200-204 | the frontend start step |
| Installation.WriteStartBackend | scripts/generate-readme.cjs:205-209 | the backend start step |
| Installation.WriteStartSingle | scripts/generate-readme.cjs:211-214 | the single start step |
| Installation.GenerateInstallation | scripts/generate-readme.cjs:148-219 | the text is the rendering of the layout chosen by the Node.js (Node.js, React or Express.js), Python and backend-directory flags |
| Installation.RenderConcat | scripts/generate-readme.cjs:153-214 | rendering a concatenation of pieces concatenates their renderings |
| Installation.WrittenTextRenders | scripts/generate-readme.cjs:153-214 | the text appended so far is the rendering of all pieces appended so far |
| Installation.Fill | scripts/generate-readme.cjs:278 | the two global replaces, each with its `$` substitution: first `{{OWNER}}` by the owner, then `{{REPO_NAME}}` by the name |
| Installation.OwnerPass | scripts/generate-readme.cjs:278 | the literal replace of `{{OWNER}}` in the rendered layout fills exactly the owner slots |
| Installation.NamePass | scripts/generate-readme.cjs:278 | then the literal replace of `{{REPO_NAME}}` fills exactly the name slots |
| Installation.FillRender | scripts/generate-readme.cjs:278 | for an owner without braces, and owner and name in which no `$` pattern expands, the two replaces give the text with the owner and name in their slots |
| Installation.NameSlotExpandsMatch | scripts/generate-readme.cjs:278 | a name `x$&y` does not land in its slot as written: the slot becomes `x{{REPO_NAME}}y` |
| Installation.LayoutPlain | scripts/generate-readme.cjs:153-216 | no fixed line of the installation text contains a brace |
| Installation.PrerequisitesPlain | scripts/generate-readme.cjs:153-162 | no line of the prerequisites block contains a brace |
| Installation.StepsPlain | scripts/generate-readme.cjs:164-216 | no fixed line of the clone, install, Python and start steps contains a brace |
| Installation.InstallationFilled | scripts/generate-readme.cjs:278 | for an owner without braces, and owner and name in which no `$` pattern expands, the installation section in the README names the owner and the repository in the clone step, and every other line is as written |
| Installation.NodePrerequisiteIff | scripts/generate-readme.cjs:155-157 | the Node.js prerequisite is listed exactly when Node.js steps are given |
| Installation.PythonPrerequisiteIff | scripts/generate-readme.cjs:159-161 | the Python prerequisite is listed exactly when Python is detected |
| Installation.NpmInstallIff | scripts/generate-readme.cjs:171-188 | `npm install` appears exactly when Node.js steps are given |
| Installation.PipInstallIff | scripts/generate-readme.cjs:191-195 | `pip install` appears exactly when Python is detected |
| Installation.BackendStartIff | scripts/generate-readme.cjs:198-209 | `node index.js` appears exactly with Node.js and a backend directory |
| Installation.CloneStepAlways | scripts/generate-readme.cjs:164-169 | the clone step, with both placeholders, is always there |

## Left out

- Git, the file system and the process become inputs:
  - `execSync('git remote get-url origin')` becomes an `Option` of its output, `None` when the command throws.
  - `process.cwd()`'s base name becomes a parameter.
  - `fs.existsSync` of the marker files becomes a flag in `Project`.
  - `fs.existsSync('backend')` becomes `hasBackendDir`.
  - `readdirSync`/`statSync` become the `Entry` tree.
- `JSON.parse` and the spread of `dependencies`/`devDependencies` are left out. Each manifest is given as the set of package names it declares.
- A dependency listed with an empty version string is falsy in JavaScript, so the script would not push its label. Here a name in the set always counts.
- `localeCompare` is the parameter `leq`. The ordering lemmas assume only that it is a total preorder, with no collation rules. `Array.prototype.sort` is modelled as a stable insertion sort, which is what the comparator gives for such an order.
- The tree walk's `catch` is not modelled as an exception. A directory that cannot be read (`readable == false`) contributes no lines. A `statSync` that fails for a single entry is not modelled.
- The emoji are the tokens of `Icon`, and `IconText` gives their code points. `FormatIndent` relies on one fact about them: no emoji starts with `│`, the first character of an indent unit.
- `toLowerCase` maps only ASCII letters. Other Unicode case mappings are left out.
- Labels are the enumeration `Tech`, with `Label` giving their text. `getLibraryDescription` is looked up by string. Keys of `Object.prototype` such as `constructor`, which the JavaScript lookup would also find, are left out.
- Installation.InstallationFilled: requires the owner to contain no `{`. An owner that contains `{{REPO_NAME}}` would have that text replaced again by the second replace, and the model does not describe that case.
- Installation.InstallationFilled: also requires an owner and a name in which no `$` starts `$$`, `$&`, `` $` `` or `$'`. JavaScript expands those patterns, and `Fill` models that. For such names the filled text depends on the text around each placeholder, and this lemma does not describe it. `NameSlotExpandsMatch` shows one case: a working directory named `a$&b` gives `a{{REPO_NAME}}b`.
- Installation.FillRender: the same two requirements on the owner and the name, for the same reasons.
- Installation.OwnerPass: states the literal replace-all. It matches `replace` only for a replacement without an expanding `$` pattern (`GlobalReplaceLiteral`).
- Installation.NamePass: states the literal replace-all, as for `OwnerPass`.
- JsStrings.ReplaceAllWhole: about the literal replace-all. Its `replace` counterpart is `GlobalReplaceWhole`, which substitutes.
- JsStrings.ReplaceAllConcat: about the literal replace-all only. Under `$` substitution the split fails, because `` $` `` and `$'` insert text from the other part.
- The README template (scripts/generate-readme.cjs:246-481) is left out: badges, sections, the top-three technology summary at line 318, the folder listing's join, and the year from `new Date()`. Only the placeholder replacement at line 278 is modelled.
- Writing `README.md`, the `console` messages and the `require.main` entry point are side effects and are left out.
