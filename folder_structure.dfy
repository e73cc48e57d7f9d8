/**
  Folder-tree rendering (`generateFolderStructure`). The file system is
  replaced by an `Entry` tree; `localeCompare` by a name order `leq`, where
  `leq(a, b)` stands for `a.localeCompare(b) <= 0`.
 */
module FolderStructure {
  import opened JsStrings

  /** A directory entry; an unreadable directory lists nothing. */
  datatype Entry =
    | File(name: string)
    | Dir(name: string, readable: bool, children: seq<Entry>)

  /** An entry is listed unless it is hidden, `node_modules` or `dist`. */
  predicate Visible(name: string)
  {
    !StartsWith(name, ".") && name != "node_modules" && name != "dist"
  }

  /** The `filter` of the listing: the visible entries, in their order. */
  function VisibleEntries(items: seq<Entry>): (r: seq<Entry>)
    ensures forall k :: 0 <= k < |r| ==> Visible(r[k].name)
    ensures forall e :: e in r <==> e in items && Visible(e.name)
  {
    if items == [] then []
    else (if Visible(items[0].name) then [items[0]] else []) + VisibleEntries(items[1..])
  }

  /**
    The comparator of the listing's `sort`, read as "a may come first":
    a directory before a file, otherwise the name order.
   */
  predicate Before(a: Entry, b: Entry, leq: (string, string) -> bool)
  {
    if a.Dir? != b.Dir? then a.Dir? else leq(a.name, b.name)
  }

  /** What a consistent `localeCompare` provides: a total preorder on names. */
  ghost predicate TotalPreorder(leq: (string, string) -> bool)
  {
    && (forall a, b :: leq(a, b) || leq(b, a))
    && (forall a, b, c :: leq(a, b) && leq(b, c) ==> leq(a, c))
  }

  predicate Sorted(s: seq<Entry>, leq: (string, string) -> bool)
  {
    forall i, j :: 0 <= i < j < |s| ==> Before(s[i], s[j], leq)
  }

  /** Places `x` in front of the first entry it may precede. */
  function Insert(x: Entry, s: seq<Entry>, leq: (string, string) -> bool): (r: seq<Entry>)
    ensures multiset(r) == multiset(s) + multiset{x}
  {
    if s == [] || Before(x, s[0], leq) then [x] + s
    else
      assert s == [s[0]] + s[1..];
      [s[0]] + Insert(x, s[1..], leq)
  }

  /** A stable sort by `Before`, the result `Array.prototype.sort` gives for a consistent comparator. */
  function SortEntries(s: seq<Entry>, leq: (string, string) -> bool): (r: seq<Entry>)
    ensures multiset(r) == multiset(s)
  {
    if s == [] then []
    else
      assert s == [s[0]] + s[1..];
      Insert(s[0], SortEntries(s[1..], leq), leq)
  }

  lemma BeforeTotal(a: Entry, b: Entry, leq: (string, string) -> bool)
    requires TotalPreorder(leq)
    ensures Before(a, b, leq) || Before(b, a, leq)
  {
  }

  lemma BeforeTransitive(a: Entry, b: Entry, c: Entry, leq: (string, string) -> bool)
    requires TotalPreorder(leq) && Before(a, b, leq) && Before(b, c, leq)
    ensures Before(a, c, leq)
  {
    if a.Dir? == b.Dir? && b.Dir? == c.Dir? {
      assert leq(a.name, b.name) && leq(b.name, c.name);
    }
  }

  lemma {:induction false} InsertSorted(x: Entry, s: seq<Entry>, leq: (string, string) -> bool)
    requires TotalPreorder(leq) && Sorted(s, leq)
    ensures Sorted(Insert(x, s, leq), leq)
    decreases |s|
  {
    if s == [] {
    } else if Before(x, s[0], leq) {
      var r := [x] + s;
      forall j | 1 <= j < |r| ensures Before(x, r[j], leq) {
        if j > 1 {
          BeforeTransitive(x, s[0], s[j - 1], leq);
        }
      }
    } else {
      BeforeTotal(x, s[0], leq);
      var tail := Insert(x, s[1..], leq);
      InsertSorted(x, s[1..], leq);
      forall k | 0 <= k < |tail| ensures Before(s[0], tail[k], leq) {
        assert tail[k] in multiset(tail);
        if tail[k] != x {
          assert tail[k] in s[1..];
        }
      }
    }
  }

  /** The listing's sort puts every entry before the later ones. */
  lemma {:induction false} SortEntriesSorted(s: seq<Entry>, leq: (string, string) -> bool)
    requires TotalPreorder(leq)
    ensures Sorted(SortEntries(s, leq), leq)
    decreases |s|
  {
    if s != [] {
      SortEntriesSorted(s[1..], leq);
      InsertSorted(s[0], SortEntries(s[1..], leq), leq);
    }
  }

  /**
    `readdirSync`, then the filter and the sort: the sorted visible entries
    of a readable directory, and nothing for a file or an unreadable one.
   */
  function Listing(e: Entry, leq: (string, string) -> bool): (r: seq<Entry>)
    ensures forall k :: 0 <= k < |r| ==> Visible(r[k].name)
  {
    if e.Dir? && e.readable then
      var r := SortEntries(VisibleEntries(e.children), leq);
      assert forall k :: 0 <= k < |r| ==> r[k] in multiset(r);
      r
    else []
  }

  /** The listing holds the visible children, each one as often as it occurs among them. */
  lemma ListingPermutation(e: Entry, leq: (string, string) -> bool)
    requires e.Dir? && e.readable
    ensures multiset(Listing(e, leq)) == multiset(VisibleEntries(e.children))
  {
    assert Listing(e, leq) == SortEntries(VisibleEntries(e.children), leq);
  }

  /** An entry is listed exactly when it is a visible child. */
  lemma ListingMembers(e: Entry, leq: (string, string) -> bool, x: Entry)
    requires e.Dir? && e.readable
    ensures x in Listing(e, leq) <==> x in e.children && Visible(x.name)
  {
    ListingPermutation(e, leq);
    var r := Listing(e, leq);
    assert x in r <==> x in multiset(r);
    assert x in VisibleEntries(e.children) <==> x in multiset(VisibleEntries(e.children));
  }

  /**
    Within one listing every directory comes before every file, and
    entries of the same kind follow the name order.
   */
  lemma ListingOrder(e: Entry, leq: (string, string) -> bool)
    requires TotalPreorder(leq)
    ensures var r := Listing(e, leq);
      forall i, j :: 0 <= i < j < |r| ==>
        (r[j].Dir? ==> r[i].Dir?) && (r[i].Dir? == r[j].Dir? ==> leq(r[i].name, r[j].name))
  {
    if e.Dir? && e.readable {
      SortEntriesSorted(VisibleEntries(e.children), leq);
    }
  }

  /** The emoji tokens of the tree lines. */
  datatype Icon = Folder | Script | TypeScriptIcon | Style | Config | Doc | Plain

  function IconText(i: Icon): string
  {
    match i
    case Folder => "\U{1F4C1}"
    case Script => "\U{26A1}"
    case TypeScriptIcon => "\U{1F537}"
    case Style => "\U{1F3A8}"
    case Config => "\U{2699}\U{FE0F}"
    case Doc => "\U{1F4D6}"
    case Plain => "\U{1F4C4}"
  }

  /** The emoji choice: a directory gets the folder, a file the first rule its name matches. */
  function IconFor(e: Entry): Icon
  {
    if e.Dir? then Folder
    else if EndsWith(e.name, ".js") || EndsWith(e.name, ".jsx") then Script
    else if EndsWith(e.name, ".ts") || EndsWith(e.name, ".tsx") then TypeScriptIcon
    else if EndsWith(e.name, ".css") then Style
    else if EndsWith(e.name, ".json") then Config
    else if EndsWith(e.name, ".md") then Doc
    else Plain
  }

  /** The file rules as a table, in the order they are tried. */
  const FileRules: seq<(seq<string>, Icon)> := [
    ([".js", ".jsx"], Script),
    ([".ts", ".tsx"], TypeScriptIcon),
    ([".css"], Style),
    ([".json"], Config),
    ([".md"], Doc)
  ]

  predicate EndsWithAny(name: string, exts: seq<string>)
  {
    exists k :: 0 <= k < |exts| && EndsWith(name, exts[k])
  }

  lemma EndsWithAnyOne(name: string, a: string)
    ensures EndsWithAny(name, [a]) <==> EndsWith(name, a)
  {
    if EndsWith(name, a) {
      assert [a][0] == a;
    }
  }

  lemma EndsWithAnyPair(name: string, a: string, b: string)
    ensures EndsWithAny(name, [a, b]) <==> EndsWith(name, a) || EndsWith(name, b)
  {
    if EndsWith(name, a) {
      assert [a, b][0] == a;
    } else if EndsWith(name, b) {
      assert [a, b][1] == b;
    }
  }

  /**
    The icon of the first rule from `from` on with a matching extension,
    or the plain icon when none matches.
   */
  function FirstRule(name: string, rules: seq<(seq<string>, Icon)>, from: nat): (i: Icon)
    requires from <= |rules|
    ensures || (i == Plain && forall k :: from <= k < |rules| ==> !EndsWithAny(name, rules[k].0))
            || exists m :: && from <= m < |rules| && rules[m].1 == i && EndsWithAny(name, rules[m].0)
                           && forall k :: from <= k < m ==> !EndsWithAny(name, rules[k].0)
    decreases |rules| - from
  {
    if from == |rules| then Plain
    else if EndsWithAny(name, rules[from].0) then rules[from].1
    else FirstRule(name, rules, from + 1)
  }

  /** The emoji of a file is the one of the first matching rule: the order of the rules is the order of the `else if` chain. */
  lemma IconByFirstRule(name: string)
    ensures IconFor(File(name)) == FirstRule(name, FileRules, 0)
  {
    EndsWithAnyPair(name, ".js", ".jsx");
    EndsWithAnyPair(name, ".ts", ".tsx");
    EndsWithAnyOne(name, ".css");
    EndsWithAnyOne(name, ".json");
    EndsWithAnyOne(name, ".md");
    assert FirstRule(name, FileRules, 5) == Plain;
    assert FirstRule(name, FileRules, 4) == if EndsWith(name, ".md") then Doc else Plain;
    assert FirstRule(name, FileRules, 3) == if EndsWith(name, ".json") then Config else FirstRule(name, FileRules, 4);
    assert FirstRule(name, FileRules, 2) == if EndsWith(name, ".css") then Style else FirstRule(name, FileRules, 3);
    assert FirstRule(name, FileRules, 1)
      == if EndsWith(name, ".ts") || EndsWith(name, ".tsx") then TypeScriptIcon else FirstRule(name, FileRules, 2);
    assert FirstRule(name, FileRules, 0)
      == if EndsWith(name, ".js") || EndsWith(name, ".jsx") then Script else FirstRule(name, FileRules, 1);
  }

  /** The branch drawn in front of a line. */
  datatype Branch = NoBranch | Middle | Last

  function BranchText(b: Branch): string
  {
    match b
    case NoBranch => ""
    case Middle => "\U{251C}\U{2500}\U{2500} "
    case Last => "\U{2514}\U{2500}\U{2500} "
  }

  /** One line of the tree before it is written out. */
  datatype Line = Line(level: nat, branch: Branch, icon: Icon, name: string, isDir: bool)

  /** The indent unit, repeated once per level. */
  const IndentUnit: string := "\U{2502}   "

  /** The text of a line: indent, branch, emoji, a space, the name, and `/` after a directory. */
  function Format(l: Line): string
  {
    Repeat(IndentUnit, l.level) + BranchText(l.branch) + IconText(l.icon) + " " + l.name
    + (if l.isDir then "/" else "")
  }

  function FormatAll(ls: seq<Line>): (r: seq<string>)
    ensures |r| == |ls|
  {
    seq(|ls|, k requires 0 <= k < |ls| => Format(ls[k]))
  }

  lemma FormatAllConcat(a: seq<Line>, b: seq<Line>)
    ensures FormatAll(a + b) == FormatAll(a) + FormatAll(b)
  {
    assert forall k :: 0 <= k < |a + b| ==> FormatAll(a + b)[k] == (FormatAll(a) + FormatAll(b))[k];
  }

  /** The line of the `i`-th entry of a listing at the given level. */
  function Head(items: seq<Entry>, i: nat, level: nat): (l: Line)
    requires i < |items|
  {
    var b := if level == 0 then NoBranch else if i == |items| - 1 then Last else Middle;
    Line(level, b, IconFor(items[i]), items[i].name, items[i].Dir?)
  }

  /** The levels still to be drawn below `level`. */
  function Depth(level: nat, maxLevel: nat): nat
  {
    if level <= maxLevel then maxLevel - level else 0
  }

  /** The tree lines of `e` drawn at `level`: none above `maxLevel`. */
  function Lines(e: Entry, level: nat, maxLevel: nat, leq: (string, string) -> bool): (r: seq<Line>)
    ensures forall k :: 0 <= k < |r| ==> level <= r[k].level <= maxLevel && Visible(r[k].name)
    ensures level > maxLevel ==> r == []
    decreases Depth(level, maxLevel), 2, 0
  {
    if level > maxLevel then []
    else Range(e, 0, |Listing(e, leq)|, level, maxLevel, leq)
  }

  /** The lines of the listing's entries `lo` up to `hi`, each followed by its subtree. */
  function Range(e: Entry, lo: nat, hi: nat, level: nat, maxLevel: nat, leq: (string, string) -> bool): (r: seq<Line>)
    requires lo <= hi <= |Listing(e, leq)| && level <= maxLevel
    ensures forall k :: 0 <= k < |r| ==> level <= r[k].level <= maxLevel && Visible(r[k].name)
    decreases Depth(level, maxLevel), 1, hi - lo
  {
    if lo == hi then []
    else
      var items := Listing(e, leq);
      Range(e, lo, hi - 1, level, maxLevel, leq) + [Head(items, hi - 1, level)]
      + Subtree(items[hi - 1], level, maxLevel, leq)
  }

  /** The lines below an entry: a directory's own tree one level deeper, while that level is drawn. */
  function Subtree(item: Entry, level: nat, maxLevel: nat, leq: (string, string) -> bool): (r: seq<Line>)
    requires level <= maxLevel
    ensures forall k :: 0 <= k < |r| ==> level < r[k].level <= maxLevel && Visible(r[k].name)
    decreases Depth(level, maxLevel), 0, 0
  {
    if item.Dir? && level < maxLevel then Lines(item, level + 1, maxLevel, leq) else []
  }

  /** A directory, and only a directory, gets the folder emoji. */
  lemma FolderIffDirectory(e: Entry)
    ensures IconFor(e) == Folder <==> e.Dir?
  {
  }

  /**
    A line starts with exactly `level` indent units: the units, then a
    character that does not start another one. A directory line ends in `/`.
   */
  lemma FormatIndent(l: Line)
    ensures |Format(l)| > |IndentUnit| * l.level
    ensures Format(l)[..|IndentUnit| * l.level] == Repeat(IndentUnit, l.level)
    ensures Format(l)[|IndentUnit| * l.level] != IndentUnit[0]
    ensures l.isDir ==> Format(l)[|Format(l)| - 1] == '/'
  {
    var indent := Repeat(IndentUnit, l.level);
    var rest := BranchText(l.branch) + IconText(l.icon) + " " + l.name + (if l.isDir then "/" else "");
    assert Format(l) == indent + rest;
    assert |indent| == |IndentUnit| * l.level;
    assert rest[0] != IndentUnit[0] by {
      match l.branch
      case NoBranch => assert rest[0] == IconText(l.icon)[0];
      case Middle =>
      case Last =>
    }
  }

  lemma {:induction false} RangeSplit(e: Entry, lo: nat, mid: nat, hi: nat, level: nat, maxLevel: nat, leq: (string, string) -> bool)
    requires lo <= mid <= hi <= |Listing(e, leq)| && level <= maxLevel
    ensures Range(e, lo, hi, level, maxLevel, leq) == Range(e, lo, mid, level, maxLevel, leq) + Range(e, mid, hi, level, maxLevel, leq)
    decreases hi - mid
  {
    if mid < hi {
      RangeSplit(e, lo, mid, hi - 1, level, maxLevel, leq);
      RangeSplitStep(e, lo, mid, hi, level, maxLevel, leq);
    } else {
      var left := Range(e, lo, mid, level, maxLevel, leq);
      assert Range(e, mid, hi, level, maxLevel, leq) == [];
      assert left + [] == left;
    }
  }

  /** A split of the entries before the last one carries over to all of them. */
  lemma RangeSplitStep(e: Entry, lo: nat, mid: nat, hi: nat, level: nat, maxLevel: nat, leq: (string, string) -> bool)
    requires lo <= mid < hi <= |Listing(e, leq)| && level <= maxLevel
    requires Range(e, lo, hi - 1, level, maxLevel, leq) == Range(e, lo, mid, level, maxLevel, leq) + Range(e, mid, hi - 1, level, maxLevel, leq)
    ensures Range(e, lo, hi, level, maxLevel, leq) == Range(e, lo, mid, level, maxLevel, leq) + Range(e, mid, hi, level, maxLevel, leq)
  {
    var items := Listing(e, leq);
    var head := [Head(items, hi - 1, level)];
    var sub := Subtree(items[hi - 1], level, maxLevel, leq);
    var left := Range(e, lo, mid, level, maxLevel, leq);
    var right := Range(e, mid, hi - 1, level, maxLevel, leq);
    calc {
      Range(e, lo, hi, level, maxLevel, leq);
      Range(e, lo, hi - 1, level, maxLevel, leq) + head + sub;
      left + right + head + sub;
      { ConcatAssoc(left, right, head, sub); }
      left + (right + head + sub);
      left + Range(e, mid, hi, level, maxLevel, leq);
    }
  }

  /** Regrouping four line sequences, used in the preorder step. */
  lemma ConcatAssoc(a: seq<Line>, b: seq<Line>, c: seq<Line>, d: seq<Line>)
    ensures a + b + c + d == a + (b + c + d)
  {
  }

  /**
    The output is a preorder walk: the line of the `i`-th entry of the
    listing comes right after the lines of the entries before it and their
    subtrees, and right before its own subtree and the rest.
   */
  lemma Preorder(e: Entry, i: nat, level: nat, maxLevel: nat, leq: (string, string) -> bool)
    requires level <= maxLevel && i < |Listing(e, leq)|
    ensures var items := Listing(e, leq);
      Lines(e, level, maxLevel, leq)
      == Range(e, 0, i, level, maxLevel, leq) + [Head(items, i, level)]
         + Subtree(items[i], level, maxLevel, leq) + Range(e, i + 1, |items|, level, maxLevel, leq)
  {
    var n := |Listing(e, leq)|;
    RangeSplit(e, 0, i + 1, n, level, maxLevel, leq);
  }

  /** The lines of `ls` drawn at exactly `level`. */
  function AtLevel(ls: seq<Line>, level: nat): (r: seq<Line>)
    ensures forall k :: 0 <= k < |r| ==> r[k].level == level
  {
    if ls == [] then []
    else AtLevel(ls[..|ls| - 1], level) + (if ls[|ls| - 1].level == level then [ls[|ls| - 1]] else [])
  }

  lemma {:induction false} AtLevelConcat(a: seq<Line>, b: seq<Line>, level: nat)
    ensures AtLevel(a + b, level) == AtLevel(a, level) + AtLevel(b, level)
    decreases |b|
  {
    if b != [] {
      var b' := b[..|b| - 1];
      var last := b[|b| - 1];
      assert (a + b)[..|a + b| - 1] == a + b';
      assert (a + b)[|a + b| - 1] == last;
      AtLevelConcat(a, b', level);
      var tail := if last.level == level then [last] else [];
      assert AtLevel(a + b, level) == AtLevel(a, level) + AtLevel(b', level) + tail;
      assert AtLevel(b, level) == AtLevel(b', level) + tail;
      assert AtLevel(a, level) + AtLevel(b', level) + tail == AtLevel(a, level) + (AtLevel(b', level) + tail);
    } else {
      assert a + b == a;
    }
  }

  lemma {:induction false} AtLevelNone(ls: seq<Line>, level: nat)
    requires forall k :: 0 <= k < |ls| ==> ls[k].level != level
    ensures AtLevel(ls, level) == []
    decreases |ls|
  {
    if ls != [] {
      AtLevelNone(ls[..|ls| - 1], level);
    }
  }

  /** An entry's line followed by its deeper subtree adds just that line at its level. */
  lemma AtLevelStep(before: seq<Line>, head: Line, sub: seq<Line>, level: nat)
    requires head.level == level && forall k :: 0 <= k < |sub| ==> sub[k].level > level
    ensures AtLevel(before + [head] + sub, level) == AtLevel(before, level) + [head]
  {
    AtLevelConcat(before + [head], sub, level);
    AtLevelConcat(before, [head], level);
    AtLevelNone(sub, level);
    assert [head][..0] == [];
  }

  /** The head lines of a listing's entries `lo` up to `hi`. */
  function Heads(items: seq<Entry>, lo: nat, hi: nat, level: nat): (r: seq<Line>)
    requires lo <= hi <= |items|
    ensures |r| == hi - lo
    ensures forall k :: 0 <= k < hi - lo ==> r[k] == Head(items, lo + k, level)
    decreases hi - lo
  {
    if lo == hi then [] else Heads(items, lo, hi - 1, level) + [Head(items, hi - 1, level)]
  }

  lemma {:induction false} RangeAtLevel(e: Entry, lo: nat, hi: nat, level: nat, maxLevel: nat, leq: (string, string) -> bool)
    requires lo <= hi <= |Listing(e, leq)| && level <= maxLevel
    ensures AtLevel(Range(e, lo, hi, level, maxLevel, leq), level) == Heads(Listing(e, leq), lo, hi, level)
    decreases hi - lo
  {
    if lo < hi {
      var items := Listing(e, leq);
      var before := AtLevel(Range(e, lo, hi - 1, level, maxLevel, leq), level);
      RangeAtLevelStep(e, lo, hi, level, maxLevel, leq);
      RangeAtLevel(e, lo, hi - 1, level, maxLevel, leq);
      assert before == Heads(items, lo, hi - 1, level);
      assert Heads(items, lo, hi, level) == Heads(items, lo, hi - 1, level) + [Head(items, hi - 1, level)];
      assert AtLevel(Range(e, lo, hi, level, maxLevel, leq), level) == before + [Head(items, hi - 1, level)];
    } else {
      assert Range(e, lo, hi, level, maxLevel, leq) == [];
      assert AtLevel([], level) == [];
      assert Heads(Listing(e, leq), lo, hi, level) == [];
    }
  }

  /** One more entry adds just its own line at the listing's level. */
  lemma RangeAtLevelStep(e: Entry, lo: nat, hi: nat, level: nat, maxLevel: nat, leq: (string, string) -> bool)
    requires lo < hi <= |Listing(e, leq)| && level <= maxLevel
    ensures AtLevel(Range(e, lo, hi, level, maxLevel, leq), level)
            == AtLevel(Range(e, lo, hi - 1, level, maxLevel, leq), level) + [Head(Listing(e, leq), hi - 1, level)]
  {
    var items := Listing(e, leq);
    var head := Head(items, hi - 1, level);
    var sub := Subtree(items[hi - 1], level, maxLevel, leq);
    var before := Range(e, lo, hi - 1, level, maxLevel, leq);
    assert Range(e, lo, hi, level, maxLevel, leq) == before + [head] + sub;
    AtLevelStep(before, head, sub, level);
  }

  /**
    The lines at the starting level are the listing itself, in its order,
    each entry once: level 0 draws no branch; deeper, the last entry gets
    the closing branch and every other one the middle branch.
   */
  lemma TopLevelLines(e: Entry, level: nat, maxLevel: nat, leq: (string, string) -> bool)
    requires level <= maxLevel
    ensures var items := Listing(e, leq);
      var top := AtLevel(Lines(e, level, maxLevel, leq), level);
      && |top| == |items|
      && (forall i :: 0 <= i < |items| ==>
            top[i].name == items[i].name && top[i].isDir == items[i].Dir? && top[i].icon == IconFor(items[i]))
      && (level == 0 ==> forall i :: 0 <= i < |items| ==> top[i].branch == NoBranch)
      && (level > 0 ==> forall i :: 0 <= i < |items| ==> (top[i].branch == Last <==> i == |items| - 1))
      && (level > 0 ==> forall i :: 0 <= i < |items| ==> top[i].branch != NoBranch)
  {
    var items := Listing(e, leq);
    var top := AtLevel(Lines(e, level, maxLevel, leq), level);
    RangeAtLevel(e, 0, |items|, level, maxLevel, leq);
    assert top == Heads(items, 0, |items|, level);
    assert forall i :: 0 <= i < |items| ==> top[i] == Head(items, i, level);
  }

  /** The emoji `else if` chain of one line. */
  method ChooseEmoji(item: Entry) returns (emoji: string)
    ensures emoji == IconText(IconFor(item))
  {
    emoji := IconText(Plain);
    if item.Dir? {
      emoji := IconText(Folder);
    } else if EndsWith(item.name, ".js") || EndsWith(item.name, ".jsx") {
      emoji := IconText(Script);
    } else if EndsWith(item.name, ".ts") || EndsWith(item.name, ".tsx") {
      emoji := IconText(TypeScriptIcon);
    } else if EndsWith(item.name, ".css") {
      emoji := IconText(Style);
    } else if EndsWith(item.name, ".json") {
      emoji := IconText(Config);
    } else if EndsWith(item.name, ".md") {
      emoji := IconText(Doc);
    }
  }

  /** One more entry of the listing adds its formatted line and then its formatted subtree. */
  lemma RangeStepFormat(e: Entry, index: nat, level: nat, maxLevel: nat, leq: (string, string) -> bool)
    requires index < |Listing(e, leq)| && level <= maxLevel
    ensures var items := Listing(e, leq);
      FormatAll(Range(e, 0, index + 1, level, maxLevel, leq))
      == FormatAll(Range(e, 0, index, level, maxLevel, leq)) + [Format(Head(items, index, level))]
         + FormatAll(Subtree(items[index], level, maxLevel, leq))
  {
    var items := Listing(e, leq);
    var before := Range(e, 0, index, level, maxLevel, leq);
    var head := Head(items, index, level);
    var sub := Subtree(items[index], level, maxLevel, leq);
    assert Range(e, 0, index + 1, level, maxLevel, leq) == before + [head] + sub;
    FormatAllConcat(before, [head]);
    FormatAllConcat(before + [head], sub);
    assert FormatAll([head]) == [Format(head)];
  }

  /** The line pushed for the `index`-th entry: indent, branch, emoji, name and `/` after a directory. */
  method EntryLine(items: seq<Entry>, index: nat, level: nat, indent: string) returns (line: string)
    requires index < |items| && indent == Repeat(IndentUnit, level)
    ensures line == Format(Head(items, index, level))
  {
    var item := items[index];
    var isDirectory := item.Dir?;
    var isLastItem := index == |items| - 1;
    var prefix := if level == 0 then "" else if isLastItem then BranchText(Last) else BranchText(Middle);
    var emoji := ChooseEmoji(item);
    line := indent + prefix + emoji + " " + item.name + (if isDirectory then "/" else "");
  }

  /**
    `generateFolderStructure(dirPath, level, maxLevel)`: walks the listing
    with a loop, pushing each entry's line and then, for a directory
    above `maxLevel`, the lines of the recursive call.
   */
  method GenerateFolderStructure(dir: Entry, level: nat, maxLevel: nat, leq: (string, string) -> bool)
    returns (structure: seq<string>)
    ensures structure == FormatAll(Lines(dir, level, maxLevel, leq))
    decreases Depth(level, maxLevel)
  {
    structure := [];
    var indent := Repeat(IndentUnit, level);
    if level > maxLevel {
      return;
    }
    var items := Listing(dir, leq);
    for index := 0 to |items|
      invariant structure == FormatAll(Range(dir, 0, index, level, maxLevel, leq))
    {
      var item := items[index];
      var line := EntryLine(items, index, level, indent);
      RangeStepFormat(dir, index, level, maxLevel, leq);
      structure := structure + [line];
      var subStructure := [];
      if item.Dir? && level < maxLevel {
        subStructure := GenerateFolderStructure(item, level + 1, maxLevel, leq);
      }
      assert subStructure == FormatAll(Subtree(item, level, maxLevel, leq));
      structure := structure + subStructure;
    }
  }

  /** The script's own call: from the working directory, levels 0 to 3. */
  method GenerateFolderStructureDefault(root: Entry, leq: (string, string) -> bool) returns (structure: seq<string>)
    ensures structure == FormatAll(Lines(root, 0, 3, leq))
  {
    structure := GenerateFolderStructure(root, 0, 3, leq);
  }
}
