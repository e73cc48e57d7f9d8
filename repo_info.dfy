/**
  Repository owner and name, read from the `origin` remote
  (`getRepoInfo`). Running `git remote get-url origin` is replaced by its
  output, or `None` when the command fails; the base name of the working
  directory is a parameter.
 */
module RepoInfo {
  import opened Wrappers
  import opened JsStrings

  datatype Repo = Repo(owner: string, name: string)

  const Host: string := "github.com"
  const GitSuffix: string := ".git"
  const FallbackOwner: string := "YOUR-USERNAME"

  predicate NoSlash(t: string)
  {
    Lacks(t, '/')
  }

  /** The position of the first `/` in `t`, if any. */
  function FirstSlash(t: string): (r: Option<nat>)
    ensures r.Some? ==> r.value < |t| && t[r.value] == '/' && NoSlash(t[..r.value])
    ensures r.None? ==> NoSlash(t)
  {
    if t == [] then None
    else if t[0] == '/' then Some(0)
    else
      match FirstSlash(t[1..])
      case None => None
      case Some(i) =>
        assert t[..i + 1] == [t[0]] + t[1..][..i];
        Some(i + 1)
  }

  /**
    The name group `([^\/]+?)` followed by `(?:\.git)?$`: being lazy, the
    group stops at the shortest length after which only `.git` or nothing
    is left, so a trailing `.git` is dropped unless it is all there is.
   */
  function LazyName(tail: string): string
  {
    if |tail| > |GitSuffix| && EndsWith(tail, GitSuffix) then tail[..|tail| - |GitSuffix|] else tail
  }

  /**
    The regular expression `github\.com[\/:]([^\/]+)\/([^\/]+?)(?:\.git)?$`
    tried at position `p` of `s` only.
   */
  function MatchAt(s: string, p: nat): Option<Repo>
  {
    if p + |Host| + 1 > |s| || s[p..p + |Host|] != Host || (s[p + |Host|] != '/' && s[p + |Host|] != ':') then None
    else
      var rest := s[p + |Host| + 1..];
      match FirstSlash(rest)
      case None => None
      case Some(i) =>
        var tail := rest[i + 1..];
        if i == 0 || tail == [] || !NoSlash(tail) then None
        else Some(Repo(rest[..i], LazyName(tail)))
  }

  /**
    What it means for the expression to match at `p` with the given groups:
    the text from `p` on is the host, a separator, and then the owner, a
    slash, the name and an optional `.git` that reaches the end of the text; neither
    group is empty or holds a slash, and no shorter name would have let the
    rest of the expression match.
   */
  ghost predicate RegexAt(s: string, p: nat, sep: char, owner: string, name: string, suffix: string)
  {
    && p + |Host| < |s|
    && s[p..p + |Host|] == Host
    && s[p + |Host|] == sep && (sep == '/' || sep == ':')
    && (suffix == "" || suffix == GitSuffix)
    && owner != [] && NoSlash(owner)
    && name != [] && NoSlash(name)
    && s[p + |Host| + 1..] == owner + "/" + name + suffix
    && forall k :: 0 < k < |name| ==> name[k..] + suffix != "" && name[k..] + suffix != GitSuffix
  }

  /** Every result of MatchAt is a match of the expression. */
  lemma MatchAtSound(s: string, p: nat)
    requires MatchAt(s, p).Some?
    ensures exists sep, suffix :: RegexAt(s, p, sep, MatchAt(s, p).value.owner, MatchAt(s, p).value.name, suffix)
  {
    var r := MatchAt(s, p).value;
    var rest := s[p + |Host| + 1..];
    var i := FirstSlash(rest).value;
    assert p + |Host| + 1 <= |s| && s[p..p + |Host|] == Host;
    assert i != 0 && rest[i + 1..] != [] && NoSlash(rest[i + 1..]);
    assert r == Repo(rest[..i], LazyName(rest[i + 1..]));
    var suffix := RestSound(rest, i);
    assert RegexAt(s, p, s[p + |Host|], r.owner, r.name, suffix);
  }

  /**
    What follows the separator splits into a slash-free owner, a slash, the
    lazy name and the suffix it leaves.
   */
  lemma RestSound(rest: string, i: nat) returns (suffix: string)
    requires FirstSlash(rest) == Some(i) && i != 0
    requires rest[i + 1..] != [] && NoSlash(rest[i + 1..])
    ensures var name := LazyName(rest[i + 1..]);
      && (suffix == "" || suffix == GitSuffix)
      && NoSlash(rest[..i]) && rest[..i] != []
      && name != [] && NoSlash(name)
      && rest == rest[..i] + "/" + name + suffix
      && forall k :: 0 < k < |name| ==> name[k..] + suffix != "" && name[k..] + suffix != GitSuffix
  {
    var tail := rest[i + 1..];
    suffix := if |tail| > |GitSuffix| && EndsWith(tail, GitSuffix) then GitSuffix else "";
    var name := LazyName(tail);
    LazyNameSplit(tail);
    assert tail == name + suffix;
    SplitAtSlash(rest, i);
    assert NoSlash(name) by {
      assert name == tail[..|name|];
    }
  }

  /** A text is what comes before a slash in it, the slash, and what comes after. */
  lemma SplitAtSlash(t: string, i: nat)
    requires i < |t| && t[i] == '/'
    ensures t == t[..i] + "/" + t[i + 1..]
  {
    assert t[..i] + "/" + t[i + 1..] == t[..i] + t[i..];
  }

  /** LazyName keeps the shortest name that leaves only `.git` or nothing. */
  lemma LazyNameSplit(tail: string)
    requires tail != []
    ensures var suffix := if |tail| > |GitSuffix| && EndsWith(tail, GitSuffix) then GitSuffix else "";
      var name := LazyName(tail);
      && name != [] && tail == name + suffix
      && forall k :: 0 < k < |name| ==> name[k..] + suffix != "" && name[k..] + suffix != GitSuffix
  {
    var suffix := if |tail| > |GitSuffix| && EndsWith(tail, GitSuffix) then GitSuffix else "";
    var name := LazyName(tail);
    assert tail == name + suffix;
    forall k | 0 < k < |name|
      ensures name[k..] + suffix != "" && name[k..] + suffix != GitSuffix
    {
      if suffix == "" {
        assert name[k..] == tail[k..];
      }
    }
  }

  /** A slash right after a slash-free prefix is the first slash. */
  lemma FirstSlashAfter(owner: string, more: string)
    requires NoSlash(owner)
    ensures FirstSlash(owner + "/" + more) == Some(|owner|)
  {
    var t := owner + "/" + more;
    assert t[|owner|] == '/';
    var i := FirstSlash(t).value;
    assert forall j :: 0 <= j < |owner| ==> t[j] == owner[j];
  }

  /** A name the lazy group would pick is what LazyName gives back. */
  lemma LazyNameOf(name: string, suffix: string)
    requires name != [] && (suffix == "" || suffix == GitSuffix)
    requires forall k :: 0 < k < |name| ==> name[k..] + suffix != "" && name[k..] + suffix != GitSuffix
    ensures LazyName(name + suffix) == name
  {
    var tail := name + suffix;
    if suffix == "" {
      assert tail == name;
      if |name| > |GitSuffix| {
        var k := |name| - |GitSuffix|;
        assert name[k..] + suffix != GitSuffix;
        assert name[k..] + suffix == name[k..] == tail[|tail| - |GitSuffix|..];
      }
    } else {
      assert tail[..|tail| - |GitSuffix|] == name;
    }
  }

  lemma NoSlashConcat(a: string, b: string)
    requires NoSlash(a) && NoSlash(b)
    ensures NoSlash(a + b)
  {
    forall j | 0 <= j < |a + b| ensures (a + b)[j] != '/' {
      if j >= |a| { assert (a + b)[j] == b[j - |a|]; }
    }
  }

  /** Every match of the expression at `p` is what MatchAt returns there. */
  lemma MatchAtComplete(s: string, p: nat, sep: char, owner: string, name: string, suffix: string)
    requires RegexAt(s, p, sep, owner, name, suffix)
    ensures MatchAt(s, p) == Some(Repo(owner, name))
  {
    var rest := s[p + |Host| + 1..];
    var tail := name + suffix;
    FirstSlashAfter(owner, tail);
    assert rest == owner + "/" + tail;
    assert rest[|owner| + 1..] == tail;
    assert rest[..|owner|] == owner;
    NoSlashConcat(name, suffix);
    LazyNameOf(name, suffix);
    assert !(p + |Host| + 1 > |s| || s[p..p + |Host|] != Host || (s[p + |Host|] != '/' && s[p + |Host|] != ':'));
    assert FirstSlash(rest) == Some(|owner|);
    assert tail != [] && NoSlash(tail) && |owner| != 0;
  }

  /**
    `String.prototype.match` with this non-global expression: the match that
    starts leftmost, trying positions from `p` on.
   */
  function SearchFrom(s: string, p: nat): (r: Option<Repo>)
    requires p <= |s|
    ensures r.Some? ==> exists q :: p <= q <= |s| && MatchAt(s, q) == r && forall k :: p <= k < q ==> MatchAt(s, k).None?
    ensures r.None? ==> forall k :: p <= k <= |s| ==> MatchAt(s, k).None?
    decreases |s| - p
  {
    var m := MatchAt(s, p);
    if m.Some? then m
    else if p == |s| then None
    else
      var r := SearchFrom(s, p + 1);
      SearchStep(s, p, r);
      r
  }

  /** No match at `p` leaves the leftmost match from `p + 1` on as the leftmost from `p`. */
  lemma SearchStep(s: string, p: nat, r: Option<Repo>)
    requires p < |s| && MatchAt(s, p).None?
    requires r.Some? ==> exists q :: p + 1 <= q <= |s| && MatchAt(s, q) == r && forall k :: p + 1 <= k < q ==> MatchAt(s, k).None?
    requires r.None? ==> forall k :: p + 1 <= k <= |s| ==> MatchAt(s, k).None?
    ensures r.Some? ==> exists q :: p <= q <= |s| && MatchAt(s, q) == r && forall k :: p <= k < q ==> MatchAt(s, k).None?
    ensures r.None? ==> forall k :: p <= k <= |s| ==> MatchAt(s, k).None?
  {
    if r.Some? {
      var q :| p + 1 <= q <= |s| && MatchAt(s, q) == r && forall k :: p + 1 <= k < q ==> MatchAt(s, k).None?;
      assert forall k :: p <= k < q ==> MatchAt(s, k).None?;
    }
  }

  /** `remoteUrl.match(...)`, keeping only the two groups. */
  function MatchRemote(url: string): Option<Repo>
  {
    SearchFrom(url, 0)
  }

  /**
    `getRepoInfo`: the owner and name from the trimmed remote when the
    expression matches it, otherwise the fallback owner and the working
    directory's base name. `remote` is `None` when the git command fails.
   */
  function GetRepoInfo(remote: Option<string>, cwdName: string): (r: Repo)
    ensures remote.None? ==> r == Repo(FallbackOwner, cwdName)
    ensures r == Repo(FallbackOwner, cwdName)
            || (remote.Some? && exists q, sep, suffix :: RegexAt(Trim(remote.value), q, sep, r.owner, r.name, suffix))
  {
    var m := if remote.Some? then MatchRemote(Trim(remote.value)) else None;
    if m.Some? then
      var u := Trim(remote.value);
      var q :| 0 <= q <= |u| && MatchAt(u, q) == m;
      MatchAtSound(u, q);
      m.value
    else Repo(FallbackOwner, cwdName)
  }

  /** The remote as GitHub offers it for cloning over HTTPS or SSH. */
  function RemoteUrl(owner: string, name: string, ssh: bool, withSuffix: bool): string
  {
    (if ssh then "git@" else "https://") + Host + (if ssh then ":" else "/")
    + owner + "/" + name + (if withSuffix then GitSuffix else "")
  }

  /**
    The leftmost match is the one at `q` when nothing matches before `q`.
   */
  lemma MatchRemoteAt(s: string, q: nat)
    requires q <= |s| && MatchAt(s, q).Some?
    requires forall k :: 0 <= k < q ==> MatchAt(s, k).None?
    ensures MatchRemote(s) == MatchAt(s, q)
  {
  }

  /** The remote URL is the scheme, the host, the separator, and the path. */
  lemma RemoteUrlShape(owner: string, name: string, ssh: bool, withSuffix: bool)
    ensures var q := if ssh then 4 else 8;
            var s := RemoteUrl(owner, name, ssh, withSuffix);
            && q + |Host| < |s|
            && s[q..q + |Host|] == Host
            && s[q + |Host|] == (if ssh then ':' else '/')
            && s[q + |Host| + 1..] == owner + "/" + name + (if withSuffix then GitSuffix else "")
  {
    var scheme := if ssh then "git@" else "https://";
    var sep := if ssh then ':' else '/';
    var s := RemoteUrl(owner, name, ssh, withSuffix);
    var q := |scheme|;
    var front := scheme + Host;
    var rest := owner + "/" + name + (if withSuffix then GitSuffix else "");
    assert s == front + ([sep] + rest);
    assert front[q..] == Host;
    assert s[q..q + |Host|] == front[q..];
    assert s[q + |Host| + 1..] == rest;
  }

  /** The lazy name group cannot stop early inside the name. */
  lemma NameNotCutShort(name: string, withSuffix: bool)
    requires !withSuffix ==> !(|name| > |GitSuffix| && EndsWith(name, GitSuffix))
    ensures var suffix := if withSuffix then GitSuffix else "";
            forall k :: 0 < k < |name| ==> name[k..] + suffix != "" && name[k..] + suffix != GitSuffix
  {
    var suffix := if withSuffix then GitSuffix else "";
    forall k | 0 < k < |name|
      ensures name[k..] + suffix != "" && name[k..] + suffix != GitSuffix
    {
      if !withSuffix {
        assert name[k..] + suffix == name[k..];
        assert |name| - k == |GitSuffix| ==> name[k..] == name[|name| - |GitSuffix|..];
      }
    }
  }

  /** In the remote URL, the expression matches right after the scheme. */
  lemma RemoteUrlMatchesAt(owner: string, name: string, ssh: bool, withSuffix: bool)
    requires owner != [] && NoSlash(owner) && name != [] && NoSlash(name)
    requires !withSuffix ==> !(|name| > |GitSuffix| && EndsWith(name, GitSuffix))
    ensures RegexAt(RemoteUrl(owner, name, ssh, withSuffix), if ssh then 4 else 8,
                    if ssh then ':' else '/', owner, name, if withSuffix then GitSuffix else "")
  {
    RemoteUrlShape(owner, name, ssh, withSuffix);
    NameNotCutShort(name, withSuffix);
  }

  /** Before the host, the scheme holds no match. */
  lemma RemoteUrlNoEarlierMatch(owner: string, name: string, ssh: bool, withSuffix: bool, k: nat)
    requires k < (if ssh then 4 else 8)
    ensures MatchAt(RemoteUrl(owner, name, ssh, withSuffix), k).None?
  {
    var scheme := if ssh then "git@" else "https://";
    var s := RemoteUrl(owner, name, ssh, withSuffix);
    assert s[..|scheme| + |Host|] == scheme + Host;
    if k + |Host| <= |s| {
      assert s[k..k + |Host|][0] == s[k] == (scheme + Host)[k];
      if ssh {
        assert s[k..k + |Host|][3] == s[k + 3] == (scheme + Host)[k + 3];
      }
    }
  }

  /**
    Owner and name round-trip through both remote forms; without a `.git`
    suffix the name must not itself end in `.git` after more characters,
    since the lazy group would drop it.
   */
  lemma RemoteUrlRoundTrip(owner: string, name: string, ssh: bool, withSuffix: bool)
    requires owner != [] && NoSlash(owner) && name != [] && NoSlash(name)
    requires !withSuffix ==> !(|name| > |GitSuffix| && EndsWith(name, GitSuffix))
    ensures MatchRemote(RemoteUrl(owner, name, ssh, withSuffix)) == Some(Repo(owner, name))
  {
    var s := RemoteUrl(owner, name, ssh, withSuffix);
    var q := if ssh then 4 else 8;
    RemoteUrlMatchesAt(owner, name, ssh, withSuffix);
    MatchAtComplete(s, q, if ssh then ':' else '/', owner, name, if withSuffix then GitSuffix else "");
    forall k | 0 <= k < q ensures MatchAt(s, k).None? {
      RemoteUrlNoEarlierMatch(owner, name, ssh, withSuffix, k);
    }
    MatchRemoteAt(s, q);
  }

  /** The owner and name of a GitHub remote, even with whitespace around it as git prints it. */
  lemma GetRepoInfoOfRemote(owner: string, name: string, ssh: bool, withSuffix: bool,
                            pre: string, post: string, cwdName: string)
    requires owner != [] && NoSlash(owner) && name != [] && NoSlash(name)
    requires !withSuffix ==> !(|name| > |GitSuffix| && EndsWith(name, GitSuffix))
    requires !withSuffix ==> !IsWhitespace(name[|name| - 1])
    requires AllWhitespace(pre) && AllWhitespace(post)
    ensures GetRepoInfo(Some(pre + RemoteUrl(owner, name, ssh, withSuffix) + post), cwdName) == Repo(owner, name)
  {
    var u := RemoteUrl(owner, name, ssh, withSuffix);
    assert u[0] == (if ssh then 'g' else 'h');
    assert u[|u| - 1] == (if withSuffix then 't' else name[|name| - 1]);
    TrimPadded(pre, u, post);
    RemoteUrlRoundTrip(owner, name, ssh, withSuffix);
  }

  predicate MentionsHost(t: string)
  {
    exists k :: 0 <= k <= |t| && StartsWith(t[k..], Host)
  }

  /** Without the host anywhere in the text, the expression cannot match. */
  lemma NoHostNoMatch(t: string)
    requires !MentionsHost(t)
    ensures MatchRemote(t).None?
  {
    forall k | 0 <= k <= |t| ensures MatchAt(t, k).None? {
      if k + |Host| <= |t| {
        assert t[k..k + |Host|] == t[k..][..|Host|];
        assert !StartsWith(t[k..], Host);
      }
      MatchNeedsHost(t, k);
    }
  }

  /** A match at `k` starts with the host. */
  lemma MatchNeedsHost(t: string, k: nat)
    ensures MatchAt(t, k).Some? ==> k + |Host| <= |t| && t[k..k + |Host|] == Host
  {
  }

  /** A slice of a text without the host has none either. */
  lemma NoHostInSlice(t: string, i: nat, j: nat)
    requires i <= j <= |t| && !MentionsHost(t)
    ensures !MentionsHost(t[i..j])
  {
    var u := t[i..j];
    forall k | 0 <= k <= |u| ensures !StartsWith(u[k..], Host) {
      if |Host| <= |u[k..]| {
        assert u[k..][..|Host|] == t[i + k..][..|Host|];
        assert !StartsWith(t[i + k..], Host);
      }
    }
  }

  /** A remote that is not on github.com gives the fallback owner and the directory name. */
  lemma GetRepoInfoOffGitHub(url: string, cwdName: string)
    requires !MentionsHost(url)
    ensures GetRepoInfo(Some(url), cwdName) == Repo(FallbackOwner, cwdName)
  {
    var u := Trim(url);
    var i :| 0 <= i <= |url| - |u| && u == url[i..i + |u|];
    NoHostInSlice(url, i, i + |u|);
    NoHostNoMatch(u);
    assert MatchRemote(Trim(url)).None?;
  }

  /**
    The leftmost match of the expression in the trimmed remote decides the
    result: its owner and name groups are the repository's owner and name.
   */
  lemma GetRepoInfoOfMatch(remote: string, cwdName: string, q: nat, sep: char,
                           owner: string, name: string, suffix: string)
    requires RegexAt(Trim(remote), q, sep, owner, name, suffix)
    requires forall k, sep', owner', name', suffix' :: 0 <= k < q ==> !RegexAt(Trim(remote), k, sep', owner', name', suffix')
    ensures GetRepoInfo(Some(remote), cwdName) == Repo(owner, name)
  {
    var u := Trim(remote);
    MatchAtComplete(u, q, sep, owner, name, suffix);
    forall k | 0 <= k < q
      ensures MatchAt(u, k).None?
    {
      if MatchAt(u, k).Some? {
        MatchAtSound(u, k);
        assert false;
      }
    }
    MatchRemoteAt(u, q);
  }
}
