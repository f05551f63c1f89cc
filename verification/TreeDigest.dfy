/** The byte stream hashed for a reference tree, and why it identifies the tree. */
module TreeDigest {
  import Sorting

  newtype byte = b: int | 0 <= b < 256

  type Bytes = seq<byte>

  const NUL: byte := 0
  const NEWLINE: byte := 10

  predicate IsHexDigit(b: byte) { 48 <= b <= 57 || 97 <= b <= 102 }

  /** The hexadecimal form of a SHA-256 hash. */
  type Hex = h: Bytes | |h| == 64 && forall i :: 0 <= i < |h| ==> IsHexDigit(h[i]) witness seq(64, i => 48 as byte)

  /** "file" and "symlink". */
  const FILE_TAG: Bytes := [102, 105, 108, 101]
  const LINK_TAG: Bytes := [115, 121, 109, 108, 105, 110, 107]

  /** A path found below the root, relative to it. */
  datatype Node =
    | RegularFile(path: Bytes, content: Bytes)
    | SymbolicLink(path: Bytes, target: Bytes)
    | Directory(path: Bytes)
    | Special(path: Bytes)

  /** What is hashed for one entry. */
  datatype Record =
    | FileRecord(path: Bytes, size: nat, sha: Hex)
    | LinkRecord(path: Bytes, target: Bytes)

  datatype Outcome = Digested(sha: Hex, count: nat, placeholders: seq<Bytes>) | UnsupportedFile(path: Bytes)

  function Digits(n: nat): Bytes {
    if n < 10 then [(48 + n) as byte] else Digits(n / 10) + [(48 + n % 10) as byte]
  }

  function Encode(r: Record): Bytes {
    match r
    case FileRecord(path, size, sha) => FILE_TAG + [NUL] + path + [NUL] + Digits(size) + [NUL] + sha + [NEWLINE]
    case LinkRecord(path, target) => LINK_TAG + [NUL] + path + [NUL] + target + [NEWLINE]
  }

  /** The stream fed to the hash, one record after the other. */
  function Stream(records: seq<Record>): Bytes {
    if records == [] then [] else Stream(records[..|records| - 1]) + Encode(records[|records| - 1])
  }

  /** A regular file that holds exactly the expected link target stands for the link. */
  predicate IsPlaceholder(node: Node, links: map<Bytes, Bytes>) {
    node.RegularFile? && node.path in links && node.content == links[node.path]
  }

  /** The record of a node, none for what is skipped. */
  function RecordOf(node: Node, links: map<Bytes, Bytes>, excluded: Bytes -> bool, sha: Bytes -> Hex): seq<Record> {
    if excluded(node.path) then [] else
    match node
    case SymbolicLink(path, target) => [LinkRecord(path, target)]
    case RegularFile(path, content) =>
      if IsPlaceholder(node, links) then [LinkRecord(path, links[path])]
      else [FileRecord(path, |content|, sha(content))]
    case _ => []
  }

  function RecordsOf(nodes: seq<Node>, links: map<Bytes, Bytes>, excluded: Bytes -> bool, sha: Bytes -> Hex)
    : seq<Record>
  {
    if nodes == [] then [] else
    RecordsOf(nodes[..|nodes| - 1], links, excluded, sha) + RecordOf(nodes[|nodes| - 1], links, excluded, sha)
  }

  function PlaceholdersIn(nodes: seq<Node>, links: map<Bytes, Bytes>, excluded: Bytes -> bool): seq<Bytes> {
    if nodes == [] then [] else
    var node := nodes[|nodes| - 1];
    PlaceholdersIn(nodes[..|nodes| - 1], links, excluded)
      + (if !excluded(node.path) && IsPlaceholder(node, links) then [node.path] else [])
  }

  /** Strict lexicographic order, which on UTF-8 bytes is the order of the paths as text. */
  predicate Before(a: Bytes, b: Bytes) {
    b != [] && (a == [] || a[0] < b[0] || (a[0] == b[0] && Before(a[1..], b[1..])))
  }

  function Insert(nodes: seq<Node>, node: Node): seq<Node> {
    if nodes == [] || !Before(node.path, nodes[|nodes| - 1].path) then nodes + [node]
    else Insert(nodes[..|nodes| - 1], node) + [nodes[|nodes| - 1]]
  }

  /** The nodes in the order of their paths. */
  function Sorted(nodes: seq<Node>): seq<Node> {
    if nodes == [] then [] else Insert(Sorted(nodes[..|nodes| - 1]), nodes[|nodes| - 1])
  }

  predicate Supported(nodes: seq<Node>, excluded: Bytes -> bool) {
    forall i :: 0 <= i < |nodes| ==> nodes[i].Special? ==> excluded(nodes[i].path)
  }

  /** Node `i` is the first that is neither excluded nor of a supported kind. */
  ghost predicate FirstUnsupported(nodes: seq<Node>, i: nat, excluded: Bytes -> bool) {
    i < |nodes| && nodes[i].Special? && !excluded(nodes[i].path) && Supported(nodes[..i], excluded)
  }

  method DigestReferenceTree(walk: seq<Node>, links: map<Bytes, Bytes>, excluded: Bytes -> bool, sha: Bytes -> Hex)
    returns (outcome: Outcome)
    ensures outcome.Digested? <==> Supported(Sorted(walk), excluded)
    ensures outcome.Digested? ==>
      outcome == Digested(sha(Stream(RecordsOf(Sorted(walk), links, excluded, sha))),
                          |RecordsOf(Sorted(walk), links, excluded, sha)|,
                          PlaceholdersIn(Sorted(walk), links, excluded))
    ensures outcome.UnsupportedFile? ==>
      exists i: nat :: FirstUnsupported(Sorted(walk), i, excluded) && outcome.path == Sorted(walk)[i].path
  {
    hide Encode, Stream, RecordsOf, PlaceholdersIn, Sorted;
    var nodes := Sorted(walk);
    var stream: Bytes := [];
    var count := 0;
    var placeholders: seq<Bytes> := [];
    NothingYet(links, excluded, sha);
    for i := 0 to |nodes|
      invariant stream == Stream(RecordsOf(nodes[..i], links, excluded, sha))
      invariant count == |RecordsOf(nodes[..i], links, excluded, sha)|
      invariant placeholders == PlaceholdersIn(nodes[..i], links, excluded)
      invariant forall j :: 0 <= j < i ==> nodes[j].Special? ==> excluded(nodes[j].path)
    {
      var node := nodes[i];
      NextNode(nodes, i, links, excluded, sha);
      if excluded(node.path) {
        continue;
      }
      if node.SymbolicLink? {
        stream := stream + Encode(LinkRecord(node.path, node.target));
        count := count + 1;
        continue;
      }
      if node.Directory? {
        continue;
      }
      if node.Special? {
        assert FirstUnsupported(nodes, i, excluded);
        return UnsupportedFile(node.path);
      }
      if node.path in links && node.content == links[node.path] {
        stream := stream + Encode(LinkRecord(node.path, links[node.path]));
        placeholders := placeholders + [node.path];
      } else {
        stream := stream + Encode(FileRecord(node.path, |node.content|, sha(node.content)));
      }
      count := count + 1;
    }
    assert nodes[..|nodes|] == nodes;
    outcome := Digested(sha(stream), count, placeholders);
  }

  lemma NothingYet(links: map<Bytes, Bytes>, excluded: Bytes -> bool, sha: Bytes -> Hex)
    ensures RecordsOf([], links, excluded, sha) == [] && PlaceholdersIn([], links, excluded) == [] && Stream([]) == []
  {
  }

  lemma NextNode(nodes: seq<Node>, i: nat, links: map<Bytes, Bytes>, excluded: Bytes -> bool, sha: Bytes -> Hex)
    requires i < |nodes|
    ensures var node := nodes[i];
      var before, piece := RecordsOf(nodes[..i], links, excluded, sha), RecordOf(node, links, excluded, sha);
      && RecordsOf(nodes[..i + 1], links, excluded, sha) == before + piece
      && PlaceholdersIn(nodes[..i + 1], links, excluded)
           == PlaceholdersIn(nodes[..i], links, excluded)
              + (if !excluded(node.path) && IsPlaceholder(node, links) then [node.path] else [])
      && Stream(before + piece) == Stream(before) + (if piece == [] then [] else Encode(piece[0]))
  {
    hide Encode;
    assert nodes[..i + 1][..i] == nodes[..i];
    var before, piece := RecordsOf(nodes[..i], links, excluded, sha), RecordOf(nodes[i], links, excluded, sha);
    if piece == [] {
      assert before + piece == before;
    } else {
      assert (before + piece)[..|before|] == before;
    }
  }

  // ----- Unique decoding -----

  /** Paths and targets without NUL, though newlines may occur in them. */
  predicate Encodable(r: Record) { NUL !in r.path && (r.LinkRecord? ==> NUL !in r.target) }

  predicate AllEncodable(records: seq<Record>) { forall i :: 0 <= i < |records| ==> Encodable(records[i]) }

  function Tag(r: Record): Bytes { if r.FileRecord? then FILE_TAG else LINK_TAG }

  /** What follows the tag and its NUL. */
  function Body(r: Record): Bytes {
    match r
    case FileRecord(path, size, sha) => path + [NUL] + (Digits(size) + [NUL] + (sha + [NEWLINE]))
    case LinkRecord(path, target) => path + [NUL] + (target + [NEWLINE])
  }

  lemma EncodeParts(r: Record)
    ensures Encode(r) == Tag(r) + [NUL] + Body(r)
  {
    hide Digits;
    var head := Tag(r) + [NUL];
    match r
    case FileRecord(path, size, sha) =>
      var digits := Digits(size);
      Regroup(head + path + [NUL] + digits + [NUL], sha, [NEWLINE]);
      Regroup(head + path + [NUL] + digits, [NUL], sha + [NEWLINE]);
      Regroup(head + path + [NUL], digits, [NUL] + (sha + [NEWLINE]));
      Regroup(digits, [NUL], sha + [NEWLINE]);
      Regroup(head + path, [NUL], digits + [NUL] + (sha + [NEWLINE]));
      Regroup(head, path, [NUL] + (digits + [NUL] + (sha + [NEWLINE])));
      Regroup(path, [NUL], digits + [NUL] + (sha + [NEWLINE]));
    case LinkRecord(path, target) =>
      Regroup(head + path + [NUL], target, [NEWLINE]);
      Regroup(head + path, [NUL], target + [NEWLINE]);
      Regroup(head, path, [NUL] + (target + [NEWLINE]));
      Regroup(path, [NUL], target + [NEWLINE]);
  }

  lemma Regroup(a: Bytes, b: Bytes, c: Bytes)
    ensures a + b + c == a + (b + c)
  {
  }

  lemma TagsArePlain(r: Record)
    ensures NUL !in Tag(r) && NEWLINE !in Tag(r)
  {
  }

  lemma {:induction false} StreamHead(records: seq<Record>)
    requires records != []
    ensures Stream(records) == Encode(records[0]) + Stream(records[1..])
  {
    hide Encode;
    var n := |records| - 1;
    if n > 0 {
      StreamHead(records[..n]);
      assert records[..n][1..] == records[1..][..n - 1];
    } else {
      assert records[..n] == [] && records[1..] == [];
    }
  }

  /** Cutting at the first delimiter. */
  lemma CutFirst(x: Bytes, u: Bytes, y: Bytes, v: Bytes, d: byte)
    requires x + [d] + u == y + [d] + v && d !in x && d !in y
    ensures x == y && u == v
  {
    var s := x + [d] + u;
    assert s[|x|] == d && s[|y|] == d;
    assert forall i :: 0 <= i < |x| ==> s[i] == x[i];
    assert forall i :: 0 <= i < |y| ==> s[i] == y[i];
    assert |x| == |y|;
    assert s[..|x|] == x && s[..|y|] == y;
    assert s[|x| + 1..] == u && s[|y| + 1..] == v;
  }

  /** Cutting at the last delimiter. */
  lemma CutLast(x: Bytes, u: Bytes, y: Bytes, v: Bytes, d: byte)
    requires x + [d] + u == y + [d] + v && d !in u && d !in v
    ensures x == y && u == v
  {
    var s := x + [d] + u;
    assert s[|x|] == d && s[|y|] == d;
    assert forall i :: |x| < i < |s| ==> s[i] == u[i - |x| - 1];
    assert forall i :: |y| < i < |s| ==> s[i] == v[i - |y| - 1];
    assert |x| == |y|;
    assert s[..|x|] == x && s[..|y|] == y;
    assert s[|x| + 1..] == u && s[|y| + 1..] == v;
  }

  lemma {:induction false} DigitsArePlain(n: nat)
    ensures |Digits(n)| >= 1
    ensures forall i :: 0 <= i < |Digits(n)| ==> 48 <= Digits(n)[i] <= 57
    ensures NUL !in Digits(n)
  {
    if n >= 10 {
      DigitsArePlain(n / 10);
    }
  }

  lemma {:induction false} DigitsInjective(m: nat, n: nat)
    requires Digits(m) == Digits(n)
    ensures m == n
  {
    DigitsArePlain(m / 10);
    DigitsArePlain(n / 10);
    var s := Digits(m);
    if m >= 10 && n >= 10 {
      assert s[..|s| - 1] == Digits(m / 10) && s[..|s| - 1] == Digits(n / 10);
      DigitsInjective(m / 10, n / 10);
    }
    assert s[|s| - 1] == (48 + m % 10) as byte && s[|s| - 1] == (48 + n % 10) as byte;
  }

  /** A stream that is not empty starts with a tag and a NUL. */
  lemma StreamStarts(records: seq<Record>) returns (rest: Bytes)
    requires records != []
    ensures Stream(records) == Tag(records[0]) + [NUL] + rest
    ensures rest == Body(records[0]) + Stream(records[1..])
  {
    hide Encode, Body, Stream, Tag;
    StreamHead(records);
    EncodeParts(records[0]);
    rest := Body(records[0]) + Stream(records[1..]);
  }

  /** A link target is found again although it may contain newlines: what follows it starts with a tag. */
  lemma TargetDecodes(s: Bytes, t: Bytes, a: seq<Record>, b: seq<Record>)
    requires s + [NEWLINE] + Stream(a) == t + [NEWLINE] + Stream(b) && NUL !in s && NUL !in t
    ensures s == t && Stream(a) == Stream(b)
  {
    hide Stream, Tag;
    if a == [] && b == [] {
      EmptyStream();
      assert s + [NEWLINE] + [] == s + [NEWLINE] && t + [NEWLINE] + [] == t + [NEWLINE];
      CutLast(s, [], t, [], NEWLINE);
    } else if a == [] {
      EmptyStream();
      var rest := StreamStarts(b);
      OnlyOneHasNul(s, t, Tag(b[0]), rest);
    } else if b == [] {
      EmptyStream();
      var rest := StreamStarts(a);
      OnlyOneHasNul(t, s, Tag(a[0]), rest);
    } else {
      var more := StreamStarts(a);
      var rest := StreamStarts(b);
      TagsArePlain(a[0]);
      TagsArePlain(b[0]);
      var x, y := s + [NEWLINE] + Tag(a[0]), t + [NEWLINE] + Tag(b[0]);
      assert s + [NEWLINE] + (Tag(a[0]) + [NUL] + more) == x + [NUL] + more;
      assert t + [NEWLINE] + (Tag(b[0]) + [NUL] + rest) == y + [NUL] + rest;
      CutFirst(x, more, y, rest, NUL);
      CutLast(s, Tag(a[0]), t, Tag(b[0]), NEWLINE);
    }
  }

  lemma EmptyStream()
    ensures Stream([]) == []
  {
  }

  lemma OnlyOneHasNul(s: Bytes, t: Bytes, tag: Bytes, rest: Bytes)
    requires NUL !in s
    ensures s + [NEWLINE] + [] != t + [NEWLINE] + (tag + [NUL] + rest)
  {
    var x, y := s + [NEWLINE] + [], t + [NEWLINE] + (tag + [NUL] + rest);
    assert NUL !in x;
    assert y[|t| + 1 + |tag|] == NUL;
  }

  lemma HexIsPlain(h: Hex)
    ensures NEWLINE !in h
  {
    assert forall i :: 0 <= i < |h| ==> IsHexDigit(h[i]);
  }

  lemma FileParts(r: Record, rest: Bytes)
    requires r.FileRecord?
    ensures Body(r) + rest == r.path + [NUL] + (Digits(r.size) + [NUL] + (r.sha + [NEWLINE] + rest))
  {
    hide Digits;
  }

  lemma FileDecodes(a: Record, b: Record, s: Bytes, t: Bytes)
    requires a.FileRecord? && b.FileRecord? && Encodable(a) && Encodable(b) && Body(a) + s == Body(b) + t
    ensures a == b && s == t
  {
    hide Digits, Body;
    DigitsArePlain(a.size);
    DigitsArePlain(b.size);
    var x, y := a.sha + [NEWLINE] + s, b.sha + [NEWLINE] + t;
    FileParts(a, s);
    FileParts(b, t);
    CutFirst(a.path, Digits(a.size) + [NUL] + x, b.path, Digits(b.size) + [NUL] + y, NUL);
    CutFirst(Digits(a.size), x, Digits(b.size), y, NUL);
    HexIsPlain(a.sha);
    HexIsPlain(b.sha);
    CutFirst(a.sha, s, b.sha, t, NEWLINE);
    DigitsInjective(a.size, b.size);
  }

  lemma LinkDecodes(a: Record, b: Record, s: seq<Record>, t: seq<Record>)
    requires a.LinkRecord? && b.LinkRecord? && Encodable(a) && Encodable(b)
    requires Body(a) + Stream(s) == Body(b) + Stream(t)
    ensures a == b && Stream(s) == Stream(t)
  {
    hide Stream;
    assert Body(a) + Stream(s) == a.path + [NUL] + (a.target + [NEWLINE] + Stream(s));
    assert Body(b) + Stream(t) == b.path + [NUL] + (b.target + [NEWLINE] + Stream(t));
    CutFirst(a.path, a.target + [NEWLINE] + Stream(s), b.path, b.target + [NEWLINE] + Stream(t), NUL);
    TargetDecodes(a.target, b.target, s, t);
  }

  /** The stream is uniquely decodable: two lists of entries give the same stream exactly when they are
      equal. */
  lemma {:induction false} StreamDecodes(a: seq<Record>, b: seq<Record>)
    requires AllEncodable(a) && AllEncodable(b)
    ensures Stream(a) == Stream(b) <==> a == b
    decreases |a|
  {
    hide Stream, Body;
    if Stream(a) == Stream(b) {
      EmptyStream();
      if a == [] {
        if b != [] {
          var rest := StreamStarts(b);
        }
      } else {
        var more := StreamStarts(a);
        if b != [] {
          var rest := StreamStarts(b);
          TagsArePlain(a[0]);
          TagsArePlain(b[0]);
          CutFirst(Tag(a[0]), more, Tag(b[0]), rest, NUL);
          assert Encodable(a[0]) && Encodable(b[0]);
          HeadDecodes(a[0], b[0], a[1..], b[1..]);
          TailEncodable(a);
          TailEncodable(b);
          StreamDecodes(a[1..], b[1..]);
          assert a == [a[0]] + a[1..] && b == [b[0]] + b[1..];
        }
      }
    }
  }

  lemma TailEncodable(records: seq<Record>)
    requires AllEncodable(records) && records != []
    ensures AllEncodable(records[1..])
  {
    forall i | 0 <= i < |records| - 1 ensures Encodable(records[1..][i]) {
      assert records[1..][i] == records[i + 1];
    }
  }

  lemma HeadDecodes(a: Record, b: Record, s: seq<Record>, t: seq<Record>)
    requires Tag(a) == Tag(b) && Encodable(a) && Encodable(b)
    requires Body(a) + Stream(s) == Body(b) + Stream(t)
    ensures a == b && Stream(s) == Stream(t)
  {
    hide Stream, Body;
    assert |FILE_TAG| != |LINK_TAG|;
    if a.FileRecord? {
      FileDecodes(a, b, Stream(s), Stream(t));
    } else {
      LinkDecodes(a, b, s, t);
    }
  }

  // ----- From trees to records -----

  predicate PlainNode(node: Node) {
    NUL !in node.path && (node.SymbolicLink? ==> NUL !in node.target)
  }

  /** File systems allow no NUL in a path or a link target. */
  predicate PlainTree(nodes: seq<Node>, links: map<Bytes, Bytes>) {
    && (forall i :: 0 <= i < |nodes| ==> PlainNode(nodes[i]))
    && (forall p :: p in links ==> NUL !in links[p])
  }

  predicate DistinctPaths(nodes: seq<Node>) {
    forall i, j :: 0 <= i < j < |nodes| ==> nodes[i].path != nodes[j].path
  }

  lemma {:induction false} PlainRecords(nodes: seq<Node>, links: map<Bytes, Bytes>, excluded: Bytes -> bool,
                                        sha: Bytes -> Hex)
    requires PlainTree(nodes, links)
    ensures AllEncodable(RecordsOf(nodes, links, excluded, sha))
  {
    if nodes != [] {
      PlainRecords(nodes[..|nodes| - 1], links, excluded, sha);
      assert PlainNode(nodes[|nodes| - 1]);
    }
  }

  lemma {:induction false} InsertContents(nodes: seq<Node>, node: Node)
    ensures multiset(Insert(nodes, node)) == multiset(nodes) + multiset{node}
  {
    if nodes != [] && Before(node.path, nodes[|nodes| - 1].path) {
      InsertContents(nodes[..|nodes| - 1], node);
      assert nodes == nodes[..|nodes| - 1] + [nodes[|nodes| - 1]];
    }
  }

  lemma {:induction false} SortedContents(nodes: seq<Node>)
    ensures multiset(Sorted(nodes)) == multiset(nodes)
  {
    hide Insert;
    if nodes != [] {
      SortedContents(nodes[..|nodes| - 1]);
      InsertContents(Sorted(nodes[..|nodes| - 1]), nodes[|nodes| - 1]);
      WithoutLast(nodes);
    }
  }

  lemma {:induction false} BeforeTotal(a: Bytes, b: Bytes)
    ensures Before(a, b) || Before(b, a) || a == b
    ensures !(Before(a, b) && Before(b, a)) && !Before(a, a)
    decreases |a|
  {
    if a != [] {
      BeforeTotal(a[1..], a[1..]);
      if b != [] && a[0] == b[0] {
        BeforeTotal(a[1..], b[1..]);
        assert a == [a[0]] + a[1..] && b == [b[0]] + b[1..];
      }
    }
  }

  lemma {:induction false} BeforeTransitive(a: Bytes, b: Bytes, c: Bytes)
    requires Before(a, b) && Before(b, c)
    ensures Before(a, c)
    decreases |a|
  {
    if a != [] && a[0] == b[0] == c[0] {
      BeforeTransitive(a[1..], b[1..], c[1..]);
    }
  }

  ghost predicate InPathOrder(nodes: seq<Node>) {
    forall i, j :: 0 <= i < j < |nodes| ==> Before(nodes[i].path, nodes[j].path)
  }

  lemma AppendKeepsOrder(nodes: seq<Node>, node: Node)
    requires InPathOrder(nodes) && forall i :: 0 <= i < |nodes| ==> Before(nodes[i].path, node.path)
    ensures InPathOrder(nodes + [node])
  {
    hide Before;
  }

  lemma OrderOfInit(nodes: seq<Node>)
    requires InPathOrder(nodes) && nodes != []
    ensures var init, last := nodes[..|nodes| - 1], nodes[|nodes| - 1];
      InPathOrder(init) && forall i :: 0 <= i < |init| ==> Before(init[i].path, last.path)
  {
    hide Before;
  }

  lemma {:induction false} InsertKeepsOrder(nodes: seq<Node>, node: Node)
    requires InPathOrder(nodes) && forall i :: 0 <= i < |nodes| ==> nodes[i].path != node.path
    ensures InPathOrder(Insert(nodes, node))
  {
    hide Before, InPathOrder;
    if nodes == [] {
      AppendKeepsOrder([], node);
    } else {
      var init, last := nodes[..|nodes| - 1], nodes[|nodes| - 1];
      OrderOfInit(nodes);
      BeforeTotal(node.path, last.path);
      if Before(node.path, last.path) {
        InsertKeepsOrder(init, node);
        var rest := Insert(init, node);
        InsertContents(init, node);
        forall i | 0 <= i < |rest| ensures Before(rest[i].path, last.path) {
          Sorting.SameContents(rest, init + [node], i);
        }
        AppendKeepsOrder(rest, last);
      } else {
        forall i | 0 <= i < |nodes| ensures Before(nodes[i].path, node.path) {
          if i < |nodes| - 1 {
            assert nodes[i] == init[i];
            BeforeTransitive(nodes[i].path, last.path, node.path);
          }
        }
        AppendKeepsOrder(nodes, node);
      }
    }
  }

  lemma {:induction false} SortedInOrder(nodes: seq<Node>)
    requires DistinctPaths(nodes)
    ensures InPathOrder(Sorted(nodes))
  {
    if nodes != [] {
      var init, last := nodes[..|nodes| - 1], nodes[|nodes| - 1];
      SortedInOrder(init);
      SortedContents(init);
      forall i | 0 <= i < |Sorted(init)| ensures Sorted(init)[i].path != last.path {
        Sorting.SameContents(Sorted(init), init, i);
      }
      InsertKeepsOrder(Sorted(init), last);
    }
  }

  lemma WithoutLast(xs: seq<Node>)
    requires xs != []
    ensures multiset(xs[..|xs| - 1]) == multiset(xs) - multiset{xs[|xs| - 1]}
    ensures xs == xs[..|xs| - 1] + [xs[|xs| - 1]]
  {
    assert xs == xs[..|xs| - 1] + [xs[|xs| - 1]];
  }

  /** A list in strict path order is determined by its members. */
  lemma {:induction false} OrderedIsUnique(xs: seq<Node>, ys: seq<Node>)
    requires InPathOrder(xs) && InPathOrder(ys) && multiset(xs) == multiset(ys)
    ensures xs == ys
  {
    assert |multiset(xs)| == |xs| && |multiset(ys)| == |ys|;
    if xs != [] {
      SameLast(xs, ys);
      WithoutLast(xs);
      WithoutLast(ys);
      OrderedInit(xs);
      OrderedInit(ys);
      hide InPathOrder;
      OrderedIsUnique(xs[..|xs| - 1], ys[..|ys| - 1]);
    }
  }

  lemma OrderedInit(xs: seq<Node>)
    requires InPathOrder(xs) && xs != []
    ensures InPathOrder(xs[..|xs| - 1])
  {
  }

  lemma SameLast(xs: seq<Node>, ys: seq<Node>)
    requires InPathOrder(xs) && InPathOrder(ys) && multiset(xs) == multiset(ys) && xs != [] && ys != []
    ensures xs[|xs| - 1] == ys[|ys| - 1]
  {
    hide Before;
    Sorting.SameContents(xs, ys, |xs| - 1);
    Sorting.SameContents(ys, xs, |ys| - 1);
    BeforeTotal(xs[|xs| - 1].path, ys[|ys| - 1].path);
  }

  /** The order in which the file system lists the tree does not matter. */
  lemma WalkOrderIrrelevant(walk: seq<Node>, other: seq<Node>)
    requires DistinctPaths(walk) && DistinctPaths(other) && multiset(walk) == multiset(other)
    ensures Sorted(walk) == Sorted(other)
  {
    SortedInOrder(walk);
    SortedInOrder(other);
    SortedContents(walk);
    SortedContents(other);
    OrderedIsUnique(Sorted(walk), Sorted(other));
  }

  lemma SortedPlain(nodes: seq<Node>, links: map<Bytes, Bytes>)
    requires PlainTree(nodes, links)
    ensures PlainTree(Sorted(nodes), links)
  {
    hide Sorted, PlainNode;
    SortedContents(nodes);
    forall i | 0 <= i < |Sorted(nodes)| ensures PlainNode(Sorted(nodes)[i]) {
      Sorting.SameContents(Sorted(nodes), nodes, i);
    }
  }

  /** Two trees are hashed over the same bytes exactly when their normalised entries, in path order, are the
      same: same paths, same link targets (a placeholder counting as its link), same file sizes and hashes. */
  lemma StreamIdentifiesTree(walk: seq<Node>, other: seq<Node>, links: map<Bytes, Bytes>, excluded: Bytes -> bool,
                             sha: Bytes -> Hex)
    requires PlainTree(walk, links) && PlainTree(other, links)
    ensures Stream(RecordsOf(Sorted(walk), links, excluded, sha)) == Stream(RecordsOf(Sorted(other), links, excluded, sha))
       <==> RecordsOf(Sorted(walk), links, excluded, sha) == RecordsOf(Sorted(other), links, excluded, sha)
  {
    hide Stream, RecordsOf, Sorted;
    SortedPlain(walk, links);
    SortedPlain(other, links);
    PlainRecords(Sorted(walk), links, excluded, sha);
    PlainRecords(Sorted(other), links, excluded, sha);
    StreamDecodes(RecordsOf(Sorted(walk), links, excluded, sha), RecordsOf(Sorted(other), links, excluded, sha));
  }

  /** Replacing a link by a placeholder file that holds its target does not change what is hashed. */
  lemma PlaceholderIsLink(path: Bytes, links: map<Bytes, Bytes>, excluded: Bytes -> bool, sha: Bytes -> Hex)
    requires path in links
    ensures RecordOf(RegularFile(path, links[path]), links, excluded, sha)
         == RecordOf(SymbolicLink(path, links[path]), links, excluded, sha)
  {
  }

  // ----- What the stream says of a tree -----

  /** The tree holds a regular file at `path` with `content`, and it does not stand for a link. */
  ghost predicate HoldsFile(nodes: seq<Node>, links: map<Bytes, Bytes>, excluded: Bytes -> bool, path: Bytes,
                            content: Bytes)
  {
    !excluded(path) && RegularFile(path, content) in nodes && !(path in links && links[path] == content)
  }

  /** The tree holds a link at `path` to `target`, or a file with exactly the target that is expected there. */
  ghost predicate HoldsLink(nodes: seq<Node>, links: map<Bytes, Bytes>, excluded: Bytes -> bool, path: Bytes,
                            target: Bytes)
  {
    && !excluded(path)
    && (SymbolicLink(path, target) in nodes
        || (RegularFile(path, target) in nodes && path in links && links[path] == target))
  }

  /** Some file of the tree that stands for no link has this path, size and hash. */
  ghost predicate HoldsDigest(nodes: seq<Node>, links: map<Bytes, Bytes>, excluded: Bytes -> bool, sha: Bytes -> Hex,
                              path: Bytes, size: nat, hash: Hex)
  {
    exists c :: HoldsFile(nodes, links, excluded, path, c) && size == |c| && hash == sha(c)
  }

  /** What the hashed list says: each file that stands for no link with its size and the hash of its content,
      each link or placeholder with its target, and nothing else; and which placeholders were found. */
  lemma {:induction false} RecordsExactly(nodes: seq<Node>, links: map<Bytes, Bytes>, excluded: Bytes -> bool,
                                          sha: Bytes -> Hex)
    ensures forall p, n, h :: FileRecord(p, n, h) in RecordsOf(nodes, links, excluded, sha)
              <==> HoldsDigest(nodes, links, excluded, sha, p, n, h)
    ensures forall p, t :: LinkRecord(p, t) in RecordsOf(nodes, links, excluded, sha)
              <==> HoldsLink(nodes, links, excluded, p, t)
    ensures forall p :: p in PlaceholdersIn(nodes, links, excluded)
              <==> p in links && !excluded(p) && RegularFile(p, links[p]) in nodes
  {
    if nodes != [] {
      var init, last := nodes[..|nodes| - 1], nodes[|nodes| - 1];
      RecordsExactly(init, links, excluded, sha);
      var rest, piece := RecordsOf(init, links, excluded, sha), RecordOf(last, links, excluded, sha);
      assert forall x :: x in nodes <==> x in init || x == last;
      forall p, n, h ensures HoldsDigest(nodes, links, excluded, sha, p, n, h) <==>
        HoldsDigest(init, links, excluded, sha, p, n, h) || FileRecord(p, n, h) in piece
      {
        DigestSnoc(init, last, links, excluded, sha, p, n, h);
      }
    }
  }

  lemma DigestSnoc(init: seq<Node>, last: Node, links: map<Bytes, Bytes>, excluded: Bytes -> bool, sha: Bytes -> Hex,
                   p: Bytes, n: nat, h: Hex)
    ensures HoldsDigest(init + [last], links, excluded, sha, p, n, h) <==>
      HoldsDigest(init, links, excluded, sha, p, n, h) || FileRecord(p, n, h) in RecordOf(last, links, excluded, sha)
  {
    var nodes := init + [last];
    if HoldsDigest(nodes, links, excluded, sha, p, n, h) {
      var c :| HoldsFile(nodes, links, excluded, p, c) && n == |c| && h == sha(c);
      assert HoldsFile(init, links, excluded, p, c) || last == RegularFile(p, c);
    }
    if HoldsDigest(init, links, excluded, sha, p, n, h) {
      var c :| HoldsFile(init, links, excluded, p, c) && n == |c| && h == sha(c);
      assert HoldsFile(nodes, links, excluded, p, c);
    }
    if FileRecord(p, n, h) in RecordOf(last, links, excluded, sha) {
      assert HoldsFile(nodes, links, excluded, p, last.content);
    }
  }

  /** Strictly ascending paths. */
  ghost predicate RecordOrder(records: seq<Record>) {
    forall i, j :: 0 <= i < j < |records| ==> Before(records[i].path, records[j].path)
  }

  lemma {:induction false} RecordsInOrder(nodes: seq<Node>, links: map<Bytes, Bytes>, excluded: Bytes -> bool,
                                          sha: Bytes -> Hex)
    requires InPathOrder(nodes)
    ensures RecordOrder(RecordsOf(nodes, links, excluded, sha))
    ensures forall r :: r in RecordsOf(nodes, links, excluded, sha) ==>
              exists i :: 0 <= i < |nodes| && nodes[i].path == r.path
  {
    hide Before;
    if nodes != [] {
      var init, last := nodes[..|nodes| - 1], nodes[|nodes| - 1];
      RecordsInOrder(init, links, excluded, sha);
      var rest := RecordsOf(init, links, excluded, sha);
      forall i | 0 <= i < |rest| ensures Before(rest[i].path, last.path) {
        assert rest[i] in rest;
        var j :| 0 <= j < |init| && init[j].path == rest[i].path;
        assert nodes[j] == init[j];
      }
      forall r | r in rest ensures exists i :: 0 <= i < |nodes| && nodes[i].path == r.path {
        var j :| 0 <= j < |init| && init[j].path == r.path;
        assert nodes[j] == init[j];
      }
    }
  }

  /** A list of records in strict path order is determined by its members. */
  lemma {:induction false} OrderedRecordsAreUnique(xs: seq<Record>, ys: seq<Record>)
    requires RecordOrder(xs) && RecordOrder(ys) && forall r :: r in xs <==> r in ys
    ensures xs == ys
  {
    hide Before;
    BothEmpty(xs, ys);
    if xs != [] {
      assert xs[|xs| - 1] in ys && ys[|ys| - 1] in xs;
      var init, last := xs[..|xs| - 1], xs[|xs| - 1];
      var other, final := ys[..|ys| - 1], ys[|ys| - 1];
      SameFinal(xs, ys);
      forall r ensures r in init <==> r in other {
        NotBefore(xs, r);
        NotBefore(ys, r);
      }
      OrderedRecordsAreUnique(init, other);
      assert xs == init + [last] && ys == other + [final];
    }
  }

  lemma BothEmpty(xs: seq<Record>, ys: seq<Record>)
    requires forall r :: r in xs <==> r in ys
    ensures xs == [] <==> ys == []
  {
    if xs != [] {
      assert xs[0] in ys;
    }
    if ys != [] {
      assert ys[0] in xs;
    }
  }

  lemma NotBefore(xs: seq<Record>, r: Record)
    requires RecordOrder(xs) && xs != []
    ensures r in xs[..|xs| - 1] <==> r in xs && r != xs[|xs| - 1]
  {
    hide Before;
    var init, last := xs[..|xs| - 1], xs[|xs| - 1];
    BeforeTotal(last.path, last.path);
    if r in init {
      var i :| 0 <= i < |init| && init[i] == r;
      assert Before(xs[i].path, last.path);
    }
  }

  lemma SameFinal(xs: seq<Record>, ys: seq<Record>)
    requires RecordOrder(xs) && RecordOrder(ys) && xs != [] && ys != []
    requires xs[|xs| - 1] in ys && ys[|ys| - 1] in xs
    ensures xs[|xs| - 1] == ys[|ys| - 1]
  {
    hide Before;
    var i :| 0 <= i < |ys| && ys[i] == xs[|xs| - 1];
    var j :| 0 <= j < |xs| && xs[j] == ys[|ys| - 1];
    BeforeTotal(xs[|xs| - 1].path, ys[|ys| - 1].path);
  }

  lemma SortedMembers(walk: seq<Node>)
    ensures forall x :: x in Sorted(walk) <==> x in walk
  {
    SortedContents(walk);
    forall x ensures x in Sorted(walk) <==> x in walk {
      assert x in Sorted(walk) <==> x in multiset(Sorted(walk));
      assert x in walk <==> x in multiset(walk);
    }
  }

  /** A tree is supported if every special file in it is excluded, in whatever order it is walked. */
  lemma SupportedWalk(walk: seq<Node>, excluded: Bytes -> bool)
    ensures Supported(Sorted(walk), excluded) <==> forall p :: Special(p) in walk ==> excluded(p)
  {
    hide Sorted;
    SortedMembers(walk);
    var nodes := Sorted(walk);
    forall p | Special(p) in walk && Supported(nodes, excluded) ensures excluded(p) {
      var i :| 0 <= i < |nodes| && nodes[i] == Special(p);
    }
    forall i | 0 <= i < |nodes| && nodes[i].Special? && (forall p :: Special(p) in walk ==> excluded(p))
      ensures excluded(nodes[i].path)
    {
      assert Special(nodes[i].path) in nodes;
    }
  }

  /** The two trees agree path by path, a placeholder counting as the link it stands for. */
  ghost predicate SameTree(walk: seq<Node>, other: seq<Node>, links: map<Bytes, Bytes>, excluded: Bytes -> bool) {
    && (forall p, c :: HoldsFile(walk, links, excluded, p, c) <==> HoldsFile(other, links, excluded, p, c))
    && (forall p, t :: HoldsLink(walk, links, excluded, p, t) <==> HoldsLink(other, links, excluded, p, t))
  }

  /** No two contents in the trees have the same hash. */
  ghost predicate HashesApart(walk: seq<Node>, other: seq<Node>, sha: Bytes -> Hex) {
    forall p, c, q, d :: RegularFile(p, c) in walk && RegularFile(q, d) in other && sha(c) == sha(d) ==> c == d
  }

  /** Two trees without a hash collision are hashed over the same bytes exactly when they agree path by path:
      the same files with the same contents and the same links, and nothing else counts. */
  lemma DigestIdentifiesContents(walk: seq<Node>, other: seq<Node>, links: map<Bytes, Bytes>, excluded: Bytes -> bool,
                                 sha: Bytes -> Hex)
    requires PlainTree(walk, links) && PlainTree(other, links) && DistinctPaths(walk) && DistinctPaths(other)
    requires HashesApart(walk, other, sha)
    ensures Stream(RecordsOf(Sorted(walk), links, excluded, sha)) == Stream(RecordsOf(Sorted(other), links, excluded, sha))
       <==> SameTree(walk, other, links, excluded)
  {
    hide Stream, RecordsOf, Sorted, PlainTree, HashesApart, SameTree, DistinctPaths;
    var xs, ys := RecordsOf(Sorted(walk), links, excluded, sha), RecordsOf(Sorted(other), links, excluded, sha);
    StreamIdentifiesTree(walk, other, links, excluded, sha);
    SortedRecords(walk, links, excluded, sha);
    SortedRecords(other, links, excluded, sha);
    if xs == ys {
      SameMembersSameTree(walk, other, links, excluded, sha);
    }
    if SameTree(walk, other, links, excluded) {
      SameTreeSameMembers(walk, other, links, excluded, sha, xs, ys);
      OrderedRecordsAreUnique(xs, ys);
    }
  }

  /** What the records of the sorted tree say of the tree as walked. */
  ghost predicate Tells(records: seq<Record>, walk: seq<Node>, links: map<Bytes, Bytes>, excluded: Bytes -> bool,
                        sha: Bytes -> Hex)
  {
    && (forall p, n, h :: FileRecord(p, n, h) in records <==> HoldsDigest(walk, links, excluded, sha, p, n, h))
    && (forall p, t :: LinkRecord(p, t) in records <==> HoldsLink(walk, links, excluded, p, t))
  }

  lemma SortedRecords(walk: seq<Node>, links: map<Bytes, Bytes>, excluded: Bytes -> bool, sha: Bytes -> Hex)
    requires DistinctPaths(walk)
    ensures var records := RecordsOf(Sorted(walk), links, excluded, sha);
      RecordOrder(records) && Tells(records, walk, links, excluded, sha)
  {
    hide Sorted, DistinctPaths, Before, RecordsOf;
    SortedInOrder(walk);
    RecordsInOrder(Sorted(walk), links, excluded, sha);
    RecordsExactly(Sorted(walk), links, excluded, sha);
    SortedMembers(walk);
    SameHoldings(Sorted(walk), walk, links, excluded, sha);
  }

  lemma SameHoldings(nodes: seq<Node>, walk: seq<Node>, links: map<Bytes, Bytes>, excluded: Bytes -> bool,
                     sha: Bytes -> Hex)
    requires forall x :: x in nodes <==> x in walk
    ensures forall p, c :: HoldsFile(nodes, links, excluded, p, c) <==> HoldsFile(walk, links, excluded, p, c)
    ensures forall p, t :: HoldsLink(nodes, links, excluded, p, t) <==> HoldsLink(walk, links, excluded, p, t)
    ensures forall p, n, h :: HoldsDigest(nodes, links, excluded, sha, p, n, h)
                         <==> HoldsDigest(walk, links, excluded, sha, p, n, h)
  {
  }

  lemma SameMembersSameTree(walk: seq<Node>, other: seq<Node>, links: map<Bytes, Bytes>, excluded: Bytes -> bool,
                            sha: Bytes -> Hex)
    requires HashesApart(walk, other, sha)
    requires exists records :: Tells(records, walk, links, excluded, sha) && Tells(records, other, links, excluded, sha)
    ensures SameTree(walk, other, links, excluded)
  {
    var records :| Tells(records, walk, links, excluded, sha) && Tells(records, other, links, excluded, sha);
    forall p, c ensures HoldsFile(walk, links, excluded, p, c) <==> HoldsFile(other, links, excluded, p, c) {
      SameFile(walk, other, links, excluded, sha, records, p, c);
    }
  }

  lemma SameFile(walk: seq<Node>, other: seq<Node>, links: map<Bytes, Bytes>, excluded: Bytes -> bool, sha: Bytes -> Hex,
                 records: seq<Record>, p: Bytes, c: Bytes)
    requires HashesApart(walk, other, sha)
    requires Tells(records, walk, links, excluded, sha) && Tells(records, other, links, excluded, sha)
    ensures HoldsFile(walk, links, excluded, p, c) <==> HoldsFile(other, links, excluded, p, c)
  {
    if HoldsFile(walk, links, excluded, p, c) {
      assert HoldsDigest(walk, links, excluded, sha, p, |c|, sha(c));
      assert FileRecord(p, |c|, sha(c)) in records;
      var d :| HoldsFile(other, links, excluded, p, d) && |c| == |d| && sha(c) == sha(d);
    }
    if HoldsFile(other, links, excluded, p, c) {
      assert HoldsDigest(other, links, excluded, sha, p, |c|, sha(c));
      assert FileRecord(p, |c|, sha(c)) in records;
      var d :| HoldsFile(walk, links, excluded, p, d) && |c| == |d| && sha(c) == sha(d);
    }
  }

  lemma SameTreeSameMembers(walk: seq<Node>, other: seq<Node>, links: map<Bytes, Bytes>, excluded: Bytes -> bool,
                            sha: Bytes -> Hex, xs: seq<Record>, ys: seq<Record>)
    requires SameTree(walk, other, links, excluded)
    requires Tells(xs, walk, links, excluded, sha) && Tells(ys, other, links, excluded, sha)
    ensures forall r :: r in xs <==> r in ys
  {
    forall p, n, h ensures HoldsDigest(walk, links, excluded, sha, p, n, h)
                      <==> HoldsDigest(other, links, excluded, sha, p, n, h)
    {
      hide HoldsFile;
    }
    forall r ensures r in xs <==> r in ys {
      match r
      case FileRecord(p, n, h) =>
      case LinkRecord(p, t) =>
    }
  }

  /** `k` is the first position in which the two differ, and `a` is the smaller there. */
  predicate SmallerAt(a: Bytes, b: Bytes, k: nat) { k < |a| && k < |b| && a[..k] == b[..k] && a[k] < b[k] }

  /** The order of a dictionary: a proper prefix, or smaller where the two first differ. */
  ghost predicate DictionaryOrder(a: Bytes, b: Bytes) {
    (|a| < |b| && b[..|a|] == a) || exists k: nat :: SmallerAt(a, b, k)
  }

  /** `Before` is the order of a dictionary. */
  lemma {:induction false} BeforeMeans(a: Bytes, b: Bytes)
    ensures Before(a, b) <==> DictionaryOrder(a, b)
  {
    hide DictionaryOrder;
    if a != [] && b != [] && a[0] == b[0] {
      BeforeMeans(a[1..], b[1..]);
      SameHead(a[0], a[1..], b[1..]);
      assert a == [a[0]] + a[1..] && b == [b[0]] + b[1..];
    } else {
      OtherHead(a, b);
    }
  }

  lemma AgreeBefore(a: Bytes, b: Bytes, k: nat)
    requires k <= |a| && k <= |b| && a[..k] == b[..k]
    ensures forall j :: 0 <= j < k ==> a[j] == b[j]
  {
    forall j | 0 <= j < k ensures a[j] == b[j] {
      assert a[..k][j] == b[..k][j];
    }
  }

  lemma OtherHead(a: Bytes, b: Bytes)
    requires a == [] || b == [] || a[0] != b[0]
    ensures DictionaryOrder(a, b) <==> b != [] && (a == [] || a[0] < b[0])
  {
    if a != [] && b != [] && a[0] < b[0] {
      assert SmallerAt(a, b, 0);
    }
    forall k: nat | SmallerAt(a, b, k) ensures k == 0 {
      AgreeBefore(a, b, k);
    }
  }

  lemma SameHead(d: byte, a: Bytes, b: Bytes)
    ensures DictionaryOrder([d] + a, [d] + b) <==> DictionaryOrder(a, b)
  {
    var x, y := [d] + a, [d] + b;
    forall k: nat ensures SmallerAt(x, y, k + 1) <==> SmallerAt(a, b, k) {
      if k < |a| && k < |b| {
        assert x[..k + 1] == [d] + a[..k] && y[..k + 1] == [d] + b[..k];
        assert a[..k] == x[..k + 1][1..] && b[..k] == y[..k + 1][1..];
      }
    }
    assert !SmallerAt(x, y, 0);
    if |a| < |b| {
      assert y[..|x|] == [d] + b[..|a|];
      assert b[..|a|] == y[..|x|][1..] && a == x[1..];
    }
    if exists k: nat :: SmallerAt(x, y, k) {
      var k: nat :| SmallerAt(x, y, k);
      assert SmallerAt(a, b, k - 1);
    }
    if exists k: nat :: SmallerAt(a, b, k) {
      var k: nat :| SmallerAt(a, b, k);
      assert SmallerAt(x, y, k + 1);
    }
  }

  /** The value of a row of decimal digits. */
  function DecimalValue(digits: Bytes): int {
    if digits == [] then 0
    else 10 * DecimalValue(digits[..|digits| - 1]) + (digits[|digits| - 1] as int - 48)
  }

  /** Sizes are written in decimal, without leading zeros. */
  lemma {:induction false} DigitsAreDecimal(n: nat)
    ensures DecimalValue(Digits(n)) == n
    ensures n > 0 ==> Digits(n)[0] != 48
  {
    DigitsArePlain(n);
    if n >= 10 {
      DigitsAreDecimal(n / 10);
      DigitsArePlain(n / 10);
      assert Digits(n)[..|Digits(n)| - 1] == Digits(n / 10);
    } else {
      assert Digits(n)[..0] == [];
    }
  }
}
