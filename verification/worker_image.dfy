/**
  Container image identifiers of custom worker images: "registry/namespace/repo:tag".
  `from_str` splits off the tag at the last ':' and the registry before the
  second-to-last '/'; `repo_with_tag` and `full_name_with_tag` print the parts
  back. `parse_output` flattens the build log the Docker daemon streams back.
 */
module WorkerImage {
  import opened Common

  // ---------------------------------------------------------------------------
  // Python's str.rsplit (single-character separator) and str.join

  /** Number of occurrences of `c` in `s`. */
  function CountChar(s: string, c: char): nat
  {
    if s == [] then 0
    else CountChar(s[..|s| - 1], c) + (if s[|s| - 1] == c then 1 else 0)
  }

  /** Index of the last occurrence of `c` in `s`, if any. */
  function LastIndex(s: string, c: char): (r: Option<nat>)
    ensures r.None? <==> c !in s
    ensures r.Some? ==> r.value < |s| && s[r.value] == c
                        && forall k :: r.value < k < |s| ==> s[k] != c
  {
    if s == [] then None
    else if s[|s| - 1] == c then Some(|s| - 1)
    else LastIndex(s[..|s| - 1], c)
  }

  lemma {:induction false} CountNone(s: string, c: char)
    requires c !in s
    ensures CountChar(s, c) == 0
  {
    if s != [] {
      CountNone(s[..|s| - 1], c);
    }
  }

  /** Cutting at the last occurrence removes exactly one occurrence. */
  lemma {:induction false} CountBeforeLast(s: string, c: char)
    requires LastIndex(s, c).Some?
    ensures CountChar(s, c) == CountChar(s[..LastIndex(s, c).value], c) + 1
  {
    var p := s[..|s| - 1];
    if s[|s| - 1] != c {
      CountBeforeLast(p, c);
      assert p[..LastIndex(p, c).value] == s[..LastIndex(s, c).value];
    }
  }

  /**
    `s.rsplit(sep, maxsplit)`: at most `maxsplit` cuts, taken from the right.
    When fewer cuts than allowed were made, no separator is left in the first part.
   */
  function RSplit(s: string, sep: char, maxsplit: nat): (parts: seq<string>)
    ensures 1 <= |parts| <= maxsplit + 1
    ensures |parts| <= maxsplit ==> sep !in parts[0]
    decreases maxsplit
  {
    if maxsplit == 0 then [s]
    else match LastIndex(s, sep)
      case None => [s]
      case Some(i) => RSplit(s[..i], sep, maxsplit - 1) + [s[i + 1..]]
  }

  /** `sep.join(parts)`: nothing for no parts, else a string that starts with the first part. */
  function Join(sep: string, parts: seq<string>): (r: string)
    ensures parts == [] ==> r == ""
    ensures parts != [] ==> parts[0] <= r
  {
    if |parts| == 0 then ""
    else if |parts| == 1 then parts[0]
    else Join(sep, parts[..|parts| - 1]) + sep + parts[|parts| - 1]
  }

  function Min(a: nat, b: nat): nat { if a <= b then a else b }

  /** rsplit makes as many cuts as it may and as there are separators; every part but the first is separator-free. */
  lemma {:induction false} RSplitShape(s: string, sep: char, maxsplit: nat)
    ensures |RSplit(s, sep, maxsplit)| == Min(maxsplit, CountChar(s, sep)) + 1
    ensures forall k :: 1 <= k < |RSplit(s, sep, maxsplit)| ==> sep !in RSplit(s, sep, maxsplit)[k]
    ensures RSplit(s, sep, maxsplit)[0] <= s
    decreases maxsplit
  {
    if maxsplit > 0 {
      match LastIndex(s, sep)
      case None =>
        CountNone(s, sep);
      case Some(i) =>
        CountBeforeLast(s, sep);
        RSplitShape(s[..i], sep, maxsplit - 1);
    } else {
    }
  }

  lemma JoinSnoc(sep: string, parts: seq<string>, last: string)
    requires parts != []
    ensures Join(sep, parts + [last]) == Join(sep, parts) + sep + last
  {
    assert (parts + [last])[..|parts|] == parts;
  }

  /** Rejoining the parts in front of a separator at `i` with the part after it. */
  lemma CutAndJoin(s: string, i: nat, front: seq<string>)
    requires i < |s| && front != [] && Join([s[i]], front) == s[..i]
    ensures Join([s[i]], front + [s[i + 1..]]) == s
  {
    JoinSnoc([s[i]], front, s[i + 1..]);
    assert s == s[..i] + [s[i]] + s[i + 1..];
  }

  /** Joining the parts of an rsplit with the separator gives the string back. */
  lemma {:induction false} JoinRSplit(s: string, sep: char, maxsplit: nat)
    ensures Join([sep], RSplit(s, sep, maxsplit)) == s
    decreases maxsplit
  {
    if maxsplit > 0 && LastIndex(s, sep).Some? {
      var i := LastIndex(s, sep).value;
      var front, tail := RSplit(s[..i], sep, maxsplit - 1), s[i + 1..];
      assert RSplit(s, sep, maxsplit) == front + [tail];
      JoinRSplit(s[..i], sep, maxsplit - 1);
      CutAndJoin(s, i, front);
    }
  }

  // ---------------------------------------------------------------------------
  // ContainerImageRegistry

  datatype ContainerImageRegistry = ContainerImageRegistry(url: string, tlsEnabled: bool)

  /** `ContainerImageRegistry.from_url`: TLS is on exactly for URLs starting with "https". */
  function FromUrl(fullStr: string): (r: ContainerImageRegistry)
    ensures r.url == fullStr
    ensures r.tlsEnabled <==> |fullStr| >= 5 && fullStr[..5] == "https"
  {
    ContainerImageRegistry(fullStr, "https" <= fullStr)
  }

  // ---------------------------------------------------------------------------
  // SyftWorkerImageIdentifier

  datatype ImageIdentifier = ImageIdentifier(registry: Option<ContainerImageRegistry>, repo: string, tag: string)

  /** `from_str` raises ValueError when the tuple unpacking of `rsplit(":", 1)` finds a single part. */
  datatype ParseError = NotEnoughValuesToUnpack

  /** `SyftWorkerImageIdentifier.from_str` */
  function FromStr(fullStr: string): (r: Result<ImageIdentifier, ParseError>)
    ensures r.Err? <==> ':' !in fullStr
  {
    var halves := RSplit(fullStr, ':', 1);
    if |halves| != 2 then Err(NotEnoughValuesToUnpack)
    else FromRepoUrl(halves[0], halves[1])
  }

  /** The second half of from_str: the registry is what precedes the second-to-last '/' of the part before the tag. */
  function FromRepoUrl(repoUrl: string, tag: string): (r: Result<ImageIdentifier, ParseError>)
    ensures r.Ok? && r.value.tag == tag
  {
    var args := RSplit(repoUrl, '/', 2);
    if |args| == 3 then
      Ok(ImageIdentifier(Some(FromUrl(args[0])), Join("/", args[1..]), tag))
    else
      Ok(ImageIdentifier(None, Join("/", args), tag))
  }

  /**
    `repo_with_tag`: with a colon-free tag, the ':' it inserts is the last one,
    which is where from_str cuts the tag off again.
   */
  function RepoWithTag(id: ImageIdentifier): (s: string)
    ensures ':' !in id.tag ==> LastIndex(s, ':') == Some(|id.repo|)
  {
    var s := id.repo + ":" + id.tag;
    if ':' in id.tag then s
    else
      assert forall k :: |id.repo| < k < |s| ==> s[k] == id.tag[k - |id.repo| - 1];
      LastIndexAt(s, ':', |id.repo|);
      s
  }

  /** `full_name_with_tag`: the registry URL, or "docker.io" when there is none, in front of repo_with_tag. */
  function FullNameWithTag(id: ImageIdentifier): string
  {
    match id.registry
    case Some(reg) => reg.url + "/" + id.repo + ":" + id.tag
    case None => "docker.io/" + id.repo + ":" + id.tag
  }

  /** The part of a parsable string in front of its last ':'. */
  function RepoUrl(fullStr: string): string
    requires ':' in fullStr
  {
    fullStr[..LastIndex(fullStr, ':').value]
  }

  /** The tag is what follows the last ':' and holds no ':'; the rest is parsed from the part in front of it. */
  lemma FromStrTag(fullStr: string)
    requires ':' in fullStr
    ensures FromStr(fullStr).Ok?
    ensures var id := FromStr(fullStr).value;
      && ':' !in id.tag
      && fullStr == RepoUrl(fullStr) + ":" + id.tag
      && FromStr(fullStr) == FromRepoUrl(RepoUrl(fullStr), id.tag)
  {
    var i := LastIndex(fullStr, ':').value;
    RSplitShape(fullStr, ':', 1);
    assert RSplit(fullStr[..i], ':', 0) == [fullStr[..i]];
    assert fullStr == fullStr[..i] + ":" + fullStr[i + 1..];
  }

  /** A registry is split off exactly when the part before the tag holds two '/' or more. */
  lemma FromStrRegistry(fullStr: string)
    requires ':' in fullStr
    ensures FromStr(fullStr).Ok?
    ensures FromStr(fullStr).value.registry.Some? <==> CountChar(RepoUrl(fullStr), '/') >= 2
  {
    FromStrTag(fullStr);
    RSplitShape(RepoUrl(fullStr), '/', 2);
  }

  lemma JoinPair(sep: string, a: string, b: string)
    ensures Join(sep, [a, b]) == a + sep + b
  {
    assert [a, b][..1] == [a];
  }

  lemma JoinTriple(sep: string, a: string, b: string, c: string)
    ensures Join(sep, [a, b, c]) == a + sep + b + sep + c
  {
    assert [a, b, c][..2] == [a, b];
    JoinPair(sep, a, b);
  }

  /** The parts from_str builds from the part in front of the tag. */
  lemma FromStrParts(fullStr: string)
    requires ':' in fullStr
    ensures FromStr(fullStr).Ok?
    ensures var id, args := FromStr(fullStr).value, RSplit(RepoUrl(fullStr), '/', 2);
      && (|args| == 3 ==> id.registry == Some(FromUrl(args[0])) && id.repo == args[1] + "/" + args[2])
      && (|args| != 3 ==> id.registry.None? && id.repo == RepoUrl(fullStr))
  {
    FromStrTag(fullStr);
    var args := RSplit(RepoUrl(fullStr), '/', 2);
    JoinRSplit(RepoUrl(fullStr), '/', 2);
    if |args| == 3 {
      assert args[1..] == [args[1], args[2]];
      JoinPair("/", args[1], args[2]);
    }
  }

  /** The parsed repo holds at most one '/'. */
  lemma FromStrRepo(fullStr: string)
    requires ':' in fullStr
    ensures FromStr(fullStr).Ok?
    ensures CountChar(FromStr(fullStr).value.repo, '/') <= 1
  {
    FromStrParts(fullStr);
    var repoUrl := RepoUrl(fullStr);
    var args := RSplit(repoUrl, '/', 2);
    RSplitShape(repoUrl, '/', 2);
    if |args| == 3 {
      CountNone(args[1], '/');
      CountNone(args[2], '/');
      CountOfAppend(args[1] + "/", args[2], '/');
      CountOfAppend(args[1], "/", '/');
    }
  }

  lemma {:induction false} CountOfAppend(a: string, b: string, c: char)
    ensures CountChar(a + b, c) == CountChar(a, c) + CountChar(b, c)
    decreases |b|
  {
    if b != [] {
      assert (a + b)[..|a + b| - 1] == a + b[..|b| - 1];
      CountOfAppend(a, b[..|b| - 1], c);
    } else {
      assert a + b == a;
    }
  }

  /** Three parts joined are the first, the separator, and the other two joined. */
  lemma JoinHead(sep: string, parts: seq<string>)
    requires |parts| == 3
    ensures parts[0] + sep + Join(sep, parts[1..]) == Join(sep, parts)
  {
    var a, b, c := parts[0], parts[1], parts[2];
    assert parts == [a, b, c] && parts[1..] == [b, c];
    JoinTriple(sep, a, b, c);
    JoinPair(sep, b, c);
    assert a + sep + (b + sep + c) == a + sep + b + sep + c;
  }

  /** The registry URL, if any, and the repo, rejoined by '/', give back the part in front of the tag. */
  lemma RejoinRepoUrl(repoUrl: string, tag: string)
    ensures var id := FromRepoUrl(repoUrl, tag).value;
      && (id.registry.Some? ==> id.registry.value.url + "/" + id.repo == repoUrl)
      && (id.registry.None? ==> id.repo == repoUrl)
  {
    var args := RSplit(repoUrl, '/', 2);
    JoinRSplit(repoUrl, '/', 2);
    if |args| == 3 {
      JoinHead("/", args);
    }
  }

  /** Without a registry, printing the repo with its tag gives the parsed string back. */
  lemma RoundTripWithoutRegistry(fullStr: string)
    requires ':' in fullStr
    ensures FromStr(fullStr).Ok?
    ensures FromStr(fullStr).value.registry.None? ==> RepoWithTag(FromStr(fullStr).value) == fullStr
  {
    FromStrTag(fullStr);
    RejoinRepoUrl(RepoUrl(fullStr), FromStr(fullStr).value.tag);
  }

  lemma Reassociate(url: string, repo: string, tag: string, repoUrl: string)
    requires url + "/" + repo == repoUrl
    ensures url + "/" + (repo + ":" + tag) == repoUrl + ":" + tag
  {
    assert url + "/" + (repo + ":" + tag) == (url + "/" + repo) + ":" + tag;
  }

  /** With a registry, printing the full name with its tag gives the parsed string back. */
  lemma RoundTripWithRegistry(fullStr: string)
    requires ':' in fullStr
    ensures FromStr(fullStr).Ok?
    ensures FromStr(fullStr).value.registry.Some? ==> FullNameWithTag(FromStr(fullStr).value) == fullStr
  {
    FromStrTag(fullStr);
    var repoUrl, tag := RepoUrl(fullStr), FromStr(fullStr).value.tag;
    var id := FromRepoUrl(repoUrl, tag).value;
    assert FromStr(fullStr).value == id;
    RejoinRepoUrl(repoUrl, tag);
    if id.registry.Some? {
      Reassociate(id.registry.value.url, id.repo, tag, repoUrl);
    }
  }

  /** A parsed string without a registry part prints in full with "docker.io/" in front. */
  lemma DefaultRegistry(fullStr: string)
    requires ':' in fullStr
    ensures FromStr(fullStr).Ok?
    ensures FromStr(fullStr).value.registry.None? ==> FullNameWithTag(FromStr(fullStr).value) == "docker.io/" + fullStr
  {
    RoundTripWithoutRegistry(fullStr);
  }

  lemma LastIndexAt(s: string, c: char, i: nat)
    requires i < |s| && s[i] == c
    requires forall k :: i < k < |s| ==> s[k] != c
    ensures LastIndex(s, c) == Some(i)
  {
  }

  /** Cutting `a + [c] + b` at its last `c` when `b` holds none. */
  lemma SplitLastAt(a: string, c: char, b: string, maxsplit: nat)
    requires c !in b && maxsplit > 0
    ensures RSplit(a + [c] + b, c, maxsplit) == RSplit(a, c, maxsplit - 1) + [b]
  {
    var s := a + [c] + b;
    assert forall k :: |a| < k < |s| ==> s[k] == b[k - |a| - 1];
    LastIndexAt(s, c, |a|);
    assert s[..|a|] == a && s[|a| + 1..] == b;
  }

  /** A string with a registry, a two-segment repo and a tag parses into exactly those parts. */
  lemma FromStrOfParts(reg: string, ns: string, name: string, tag: string)
    requires '/' !in ns && '/' !in name && ':' !in tag
    ensures FromStr(reg + "/" + ns + "/" + name + ":" + tag)
      == Ok(ImageIdentifier(Some(FromUrl(reg)), ns + "/" + name, tag))
  {
    var repoUrl := reg + "/" + ns + "/" + name;
    SplitLastAt(repoUrl, ':', tag, 1);
    assert RSplit(repoUrl + ":" + tag, ':', 1) == [repoUrl, tag];
    SplitLastAt(reg + "/" + ns, '/', name, 2);
    SplitLastAt(reg, '/', ns, 1);
    assert RSplit(repoUrl, '/', 2) == [reg, ns, name];
    assert [reg, ns, name][1..] == [ns, name];
    JoinPair("/", ns, name);
  }

  // ---------------------------------------------------------------------------
  // parse_output

  /** One value of a log line: a string, a dict (rendered by json.dumps), or anything else (rendered by str). */
  datatype LogItem<D, O> = Text(s: string) | Dict(d: D) | Other(o: O)

  function RenderItem<D, O>(item: LogItem<D, O>, dumps: D -> string, show: O -> string): string
  {
    match item
    case Text(s) => s
    case Dict(d) => dumps(d)
    case Other(o) => show(o)
  }

  /** The text of one line: its values' renderings, in the line's order. */
  function RenderLine<D, O>(line: seq<LogItem<D, O>>, dumps: D -> string, show: O -> string): string
  {
    if line == [] then ""
    else RenderLine(line[..|line| - 1], dumps, show) + RenderItem(line[|line| - 1], dumps, show)
  }

  /** The text of the whole log: its lines' texts, in order, with nothing in between. */
  function RenderLines<D, O>(lines: seq<seq<LogItem<D, O>>>, dumps: D -> string, show: O -> string): string
  {
    if lines == [] then ""
    else RenderLines(lines[..|lines| - 1], dumps, show) + RenderLine(lines[|lines| - 1], dumps, show)
  }

  /** `parse_output`: concatenates every value of every line of the build log. */
  method ParseOutput<D, O>(lines: seq<seq<LogItem<D, O>>>, dumps: D -> string, show: O -> string) returns (log: string)
    ensures log == RenderLines(lines, dumps, show)
  {
    log := "";
    for i := 0 to |lines|
      invariant log == RenderLines(lines[..i], dumps, show)
    {
      var line := lines[i];
      ghost var before := log;
      for j := 0 to |line|
        invariant log == before + RenderLine(line[..j], dumps, show)
      {
        log := log + RenderItem(line[j], dumps, show);
        assert line[..j + 1][..j] == line[..j];
      }
      assert line[..|line|] == line;
      assert lines[..i + 1][..i] == lines[..i];
    }
    assert lines[..|lines|] == lines;
  }

  /** The log of two streams one after the other is the concatenation of their logs. */
  lemma {:induction false} RenderLinesAppend<D, O>(a: seq<seq<LogItem<D, O>>>, b: seq<seq<LogItem<D, O>>>,
                                                   dumps: D -> string, show: O -> string)
    ensures RenderLines(a + b, dumps, show) == RenderLines(a, dumps, show) + RenderLines(b, dumps, show)
    decreases |b|
  {
    if b == [] {
      assert a + b == a;
    } else {
      var front, last := b[..|b| - 1], b[|b| - 1];
      var ab := a + b;
      assert ab[..|ab| - 1] == a + front && ab[|ab| - 1] == last;
      RenderLinesAppend(a, front, dumps, show);
      var x, y, z := RenderLines(a, dumps, show), RenderLines(front, dumps, show), RenderLine(last, dumps, show);
      assert RenderLines(ab, dumps, show) == x + y + z;
      assert RenderLines(b, dumps, show) == y + z;
      AppendAssociative(x, y, z);
    }
  }

  lemma AppendAssociative(x: string, y: string, z: string)
    ensures x + y + z == x + (y + z)
  {
  }

  /** Only strings: the log is their plain concatenation, in order. */
  function Concat(ss: seq<string>): string
  {
    if ss == [] then "" else Concat(ss[..|ss| - 1]) + ss[|ss| - 1]
  }

  lemma {:induction false} TextLineVerbatim<D, O>(texts: seq<string>, dumps: D -> string, show: O -> string)
    ensures RenderLine(seq(|texts|, k requires 0 <= k < |texts| => Text(texts[k])), dumps, show) == Concat(texts)
  {
    if texts != [] {
      var line: seq<LogItem<D, O>> := seq(|texts|, k requires 0 <= k < |texts| => Text(texts[k]));
      var front := texts[..|texts| - 1];
      TextLineVerbatim<D, O>(front, dumps, show);
      assert line[..|line| - 1] == seq(|front|, k requires 0 <= k < |front| => Text(front[k]));
    }
  }
}

/** The identifier of the class documentation, worked through from_str. */
module WorkerImageExample {
  import opened Common
  import opened WorkerImage

  /** The worked example of the class documentation: "docker.io/openmined/test-nginx:0.7.8". */
  lemma DocumentedExample()
    ensures FromStr("docker.io" + "/" + "openmined" + "/" + "test-nginx" + ":" + "0.7.8")
      == Ok(ImageIdentifier(Some(ContainerImageRegistry("docker.io", false)), "openmined/test-nginx", "0.7.8"))
  {
    ParsesDocumentedParts();
    DockerHubWithoutTls();
  }

  lemma ParsesDocumentedParts()
    ensures FromStr("docker.io" + "/" + "openmined" + "/" + "test-nginx" + ":" + "0.7.8")
      == Ok(ImageIdentifier(Some(FromUrl("docker.io")), "openmined/test-nginx", "0.7.8"))
  {
    FromStrOfParts("docker.io", "openmined", "test-nginx", "0.7.8");
    DocumentedRepo();
  }

  lemma DocumentedRepo()
    ensures "openmined" + "/" + "test-nginx" == "openmined/test-nginx"
  {
  }

  /** Docker Hub's address does not start with "https". */
  lemma DockerHubWithoutTls()
    ensures FromUrl("docker.io") == ContainerImageRegistry("docker.io", false)
  {
    var d := "docker.io";
    assert d[0] == 'd' && "https"[0] == 'h';
    assert !("https" <= d);
  }
}
