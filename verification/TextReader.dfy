/** The plain-text reader of browse.go (`reader`): title, readable text and up to some thirty links of a page. */
module TextReader {
  import opened Text
  import opened HtmlTree

  const LIMIT: nat := 32000
  const LINKS: nat := 30

  datatype WebLink = WebLink(text: string, url: string)

  /** What the walk has collected so far. */
  datatype Page = Page(text: string, title: string, links: seq<WebLink>)

  const EMPTY := Page("", "", [])

  // ---------------------------------------------------------------- text below a node

  /** All text below a node with white space collapsed; a text node's own data is returned as it is. */
  function Contents(n: Node): string
    decreases n, 0
  {
    match n
    case TextNode(data) => data
    case Element(_, _, children) => Join(Fields(Joined(children)), " ")
    case Other(children) => Join(Fields(Joined(children)), " ")
  }

  function Joined(ns: seq<Node>): string
    decreases ns, 0
  {
    if ns == [] then "" else Contents(ns[0]) + " " + Joined(ns[1..])
  }

  /** The words of all text nodes below a node, in document order. */
  function WordsBelow(n: Node): seq<string>
    decreases n, 0
  {
    match n
    case TextNode(data) => Fields(data)
    case Element(_, _, children) => WordsBelowAll(children)
    case Other(children) => WordsBelowAll(children)
  }

  function WordsBelowAll(ns: seq<Node>): seq<string>
    decreases ns, 0
  {
    if ns == [] then [] else WordsBelow(ns[0]) + WordsBelowAll(ns[1..])
  }

  /** Collapsing white space level by level neither loses, joins nor reorders words. */
  lemma {:induction false} ContentsKeepsWords(n: Node)
    ensures Fields(Contents(n)) == WordsBelow(n)
    decreases n, 0
  {
    match n
    case TextNode(_) =>
    case Element(_, _, children) =>
      JoinedKeepsWords(children);
      CollapseKeepsWords(Joined(children));
    case Other(children) =>
      JoinedKeepsWords(children);
      CollapseKeepsWords(Joined(children));
  }

  lemma {:induction false} JoinedKeepsWords(ns: seq<Node>)
    ensures Fields(Joined(ns)) == WordsBelowAll(ns)
    decreases ns, 0
  {
    if ns != [] {
      ContentsKeepsWords(ns[0]);
      JoinedKeepsWords(ns[1..]);
      FieldsSplit(Contents(ns[0]), " ", Joined(ns[1..]));
    }
  }

  // ---------------------------------------------------------------- laying the text out

  /** `strings.Split` at line feeds. */
  function Lines(s: string): (ls: seq<string>)
    ensures ls != []
    decreases |s|
  {
    var i := IndexOf(s, '\n');
    if i == |s| then [s] else [s[..i]] + Lines(s[i + 1..])
  }

  function TrimLeft(s: string): string {
    if s != "" && IsSpace(s[0]) then TrimLeft(s[1..]) else s
  }

  function TrimRight(s: string): string {
    if s != "" && IsSpace(s[|s| - 1]) then TrimRight(s[..|s| - 1]) else s
  }

  function Trim(s: string): string {
    TrimRight(TrimLeft(s))
  }

  function NonBlank(ls: seq<string>): seq<string> {
    if ls == [] then []
    else (if Trim(ls[0]) == "" then [] else [Trim(ls[0])]) + NonBlank(ls[1..])
  }

  function Layout(s: string): string {
    Join(NonBlank(Lines(s)), "\n\n")
  }

  lemma {:induction false} TrimLeftKeepsWords(s: string)
    ensures Fields(TrimLeft(s)) == Fields(s)
  {
    if s != "" && IsSpace(s[0]) {
      TrimLeftKeepsWords(s[1..]);
    }
  }

  lemma {:induction false} TrimRightKeepsWords(s: string)
    ensures Fields(TrimRight(s)) == Fields(s)
  {
    if s != "" && IsSpace(s[|s| - 1]) {
      TrimRightKeepsWords(s[..|s| - 1]);
      FieldsTrailing(s[..|s| - 1], [s[|s| - 1]]);
      assert s[..|s| - 1] + [s[|s| - 1]] == s;
    }
  }

  lemma {:induction false} LinesKeepWords(s: string)
    ensures FieldsOfAll(Lines(s)) == Fields(s)
    decreases |s|
  {
    var i := IndexOf(s, '\n');
    if i == |s| {
      assert FieldsOfAll([s]) == Fields(s) + FieldsOfAll([]) == Fields(s);
    } else {
      LinesKeepWords(s[i + 1..]);
      FieldsSplit(s[..i], "\n", s[i + 1..]);
      assert s == s[..i] + "\n" + s[i + 1..];
      assert ([s[..i]] + Lines(s[i + 1..]))[1..] == Lines(s[i + 1..]);
    }
  }

  lemma {:induction false} NonBlankKeepsWords(ls: seq<string>)
    ensures FieldsOfAll(NonBlank(ls)) == FieldsOfAll(ls)
  {
    if ls != [] {
      var t := Trim(ls[0]);
      NonBlankKeepsWords(ls[1..]);
      TrimLeftKeepsWords(ls[0]);
      TrimRightKeepsWords(TrimLeft(ls[0]));
      if t != "" {
        assert ([t] + NonBlank(ls[1..]))[1..] == NonBlank(ls[1..]);
      } else {
        assert [] + NonBlank(ls[1..]) == NonBlank(ls[1..]);
        assert Fields(ls[0]) == [];
      }
    }
  }

  /** Laying out keeps every word, in order. */
  lemma LayoutKeepsWords(s: string)
    ensures Fields(Layout(s)) == Fields(s)
  {
    FieldsOfJoin(NonBlank(Lines(s)), "\n\n");
    NonBlankKeepsWords(Lines(s));
    LinesKeepWords(s);
  }

  // ---------------------------------------------------------------- first occurrences

  ghost predicate DistinctUrls(links: seq<WebLink>) {
    forall i, j :: 0 <= i < j < |links| ==> links[i].url != links[j].url
  }

  function Urls(links: seq<WebLink>): set<string> {
    set l | l in links :: l.url
  }

  /** `kept` followed by the candidates whose address has not occurred before. */
  function Unseen(kept: seq<WebLink>, candidates: seq<WebLink>): seq<WebLink>
    decreases |candidates|
  {
    if candidates == [] then kept
    else Unseen(if candidates[0].url in Urls(kept) then kept else kept + [candidates[0]], candidates[1..])
  }

  lemma {:induction false} UnseenConcat(kept: seq<WebLink>, a: seq<WebLink>, b: seq<WebLink>)
    ensures Unseen(kept, a + b) == Unseen(Unseen(kept, a), b)
    decreases |a|
  {
    if a == [] {
      assert a + b == b;
    } else {
      assert (a + b)[1..] == a[1..] + b;
      UnseenConcat(if a[0].url in Urls(kept) then kept else kept + [a[0]], a[1..], b);
    }
  }

  lemma {:induction false} UnseenIsDistinct(kept: seq<WebLink>, candidates: seq<WebLink>)
    requires DistinctUrls(kept)
    ensures DistinctUrls(Unseen(kept, candidates)) && kept <= Unseen(kept, candidates)
    ensures |Unseen(kept, candidates)| <= |kept| + |candidates|
    ensures Urls(Unseen(kept, candidates)) == Urls(kept) + Urls(candidates)
    ensures forall l :: l in Unseen(kept, candidates) ==> l in kept || l in candidates
    decreases |candidates|
  {
    if candidates != [] {
      var c := candidates[0];
      var next := if c.url in Urls(kept) then kept else kept + [c];
      if c.url !in Urls(kept) {
        forall i | 0 <= i < |kept| ensures kept[i].url != c.url {
          assert kept[i] in kept;
        }
        assert Urls(kept + [c]) == Urls(kept) + {c.url};
      }
      UnseenIsDistinct(next, candidates[1..]);
      assert candidates == [c] + candidates[1..];
      assert Urls(candidates) == {c.url} + Urls(candidates[1..]);
    }
  }

  // ---------------------------------------------------------------- the walk, step by step

  /** Elements whose subtrees are skipped, elements that start a new line, and the rule that resolves and accepts
      a reference. */
  datatype Rules = Rules(dropped: set<string>, breaks: set<string>, resolve: string -> Option<string>) {

    /** The nodes a walk without limit reaches, in document order. A title is reached but not entered. */
    function Visited(n: Node): seq<Node>
      decreases n, 0
    {
      match n
      case TextNode(_) => [n]
      case Other(children) => [n] + VisitedAll(children)
      case Element(name, _, children) =>
        if name in dropped then [] else if name == "title" then [n] else [n] + VisitedAll(children)
    }

    function VisitedAll(ns: seq<Node>): seq<Node>
      decreases ns, 0
    {
      if ns == [] then [] else Visited(ns[0]) + VisitedAll(ns[1..])
    }

    lemma {:induction false} VisitedSnoc(ns: seq<Node>, n: Node)
      ensures VisitedAll(ns + [n]) == VisitedAll(ns) + Visited(n)
    {
      if ns == [] {
        assert ns + [n] == [n] && VisitedAll([n]) == Visited(n) + [] == Visited(n);
      } else {
        assert (ns + [n])[1..] == ns[1..] + [n];
        VisitedSnoc(ns[1..], n);
        Associate(Visited(ns[0]), VisitedAll(ns[1..]), Visited(n));
      }
    }

    /** The links an anchor offers: its caption with each accepted `href`; none when it has no caption. */
    function Offers(caption: string, attrs: seq<Attr>): seq<WebLink> {
      if attrs == [] || caption == "" then []
      else
        (if attrs[0].key == "href" && resolve(attrs[0].val).Some?
         then [WebLink(caption, resolve(attrs[0].val).value)] else [])
        + Offers(caption, attrs[1..])
    }

    /** The effect of one attribute: an accepted new address of a captioned anchor is added. */
    lemma OffersStep(kept: seq<WebLink>, caption: string, attrs: seq<Attr>)
      requires attrs != []
      ensures
        var u := resolve(attrs[0].val);
        Unseen(kept, Offers(caption, attrs)) ==
        Unseen(if caption != "" && attrs[0].key == "href" && u.Some? && u.value !in Urls(kept)
               then kept + [WebLink(caption, u.value)] else kept, Offers(caption, attrs[1..]))
    {
      var rest := Offers(caption, attrs[1..]);
      if caption != "" && attrs[0].key == "href" && resolve(attrs[0].val).Some? {
        var l := WebLink(caption, resolve(attrs[0].val).value);
        assert ([l] + rest)[0] == l && ([l] + rest)[1..] == rest;
      } else {
        assert [] + rest == rest;
      }
    }

    function Candidates(n: Node): seq<WebLink> {
      if n.Element? && n.name == "a" then Offers(Contents(n), n.attrs) else []
    }

    function AllCandidates(ns: seq<Node>): seq<WebLink> {
      if ns == [] then [] else Candidates(ns[0]) + AllCandidates(ns[1..])
    }

    /** What a visited node adds to the text. */
    function Piece(n: Node): string {
      match n
      case TextNode(data) =>
        var clean := Join(Fields(data), " ");
        if clean == "" then "" else clean + " "
      case Element(name, _, _) => if name != "title" && name in breaks then "\n" else ""
      case Other(_) => ""
    }

    function Pieces(ns: seq<Node>): string {
      if ns == [] then "" else Piece(ns[0]) + Pieces(ns[1..])
    }

    /** One visited node; nothing happens once the text has passed the limit. */
    function Step(p: Page, n: Node): Page {
      if Size(p.text) > LIMIT then p
      else if n.Element? && n.name == "title" then p.(title := Contents(n))
      else
        var links := if |p.links| < LINKS then Unseen(p.links, Candidates(n)) else p.links;
        p.(text := p.text + Piece(n), links := links)
    }

    function Steps(p: Page, ns: seq<Node>): Page
      decreases |ns|
    {
      if ns == [] then p else Steps(Step(p, ns[0]), ns[1..])
    }

    lemma {:induction false} StepsConcat(p: Page, a: seq<Node>, b: seq<Node>)
      ensures Steps(p, a + b) == Steps(Steps(p, a), b)
      decreases |a|
    {
      if a == [] {
        assert a + b == b;
      } else {
        assert (a + b)[1..] == a[1..] + b;
        StepsConcat(Step(p, a[0]), a[1..], b);
      }
    }

    lemma {:induction false} StepsPastLimit(p: Page, ns: seq<Node>)
      requires Size(p.text) > LIMIT
      ensures Steps(p, ns) == p
      decreases |ns|
    {
      if ns != [] {
        StepsPastLimit(p, ns[1..]);
      }
    }

    // -------------------------------------------------------------- text

    /** Number of nodes visited before the text passes the limit. */
    function Reached(len: nat, ns: seq<Node>): (k: nat)
      ensures k <= |ns|
      decreases |ns|
    {
      if ns == [] || len > LIMIT then 0 else 1 + Reached(len + Size(Piece(ns[0])), ns[1..])
    }

    lemma SizeOfPieces(ns: seq<Node>)
      requires ns != []
      ensures Size(Pieces(ns)) == Size(Piece(ns[0])) + Size(Pieces(ns[1..]))
    {
      SizeConcat(Piece(ns[0]), Pieces(ns[1..]));
    }

    lemma {:induction false} ReachedUnderLimit(len: nat, ns: seq<Node>)
      requires len + Size(Pieces(ns)) <= LIMIT
      ensures Reached(len, ns) == |ns|
      decreases |ns|
    {
      if ns != [] {
        SizeOfPieces(ns);
        ReachedUnderLimit(len + Size(Piece(ns[0])), ns[1..]);
      }
    }

    /** The text is what the reached nodes add, in order. */
    lemma {:induction false} StepsText(p: Page, ns: seq<Node>)
      ensures Steps(p, ns).text == p.text + Pieces(ns[..Reached(Size(p.text), ns)])
      decreases |ns|
    {
      var k := Reached(Size(p.text), ns);
      if ns == [] {
      } else if Size(p.text) > LIMIT {
        StepsPastLimit(p, ns);
      } else {
        var q := Step(p, ns[0]);
        SizeConcat(p.text, Piece(ns[0]));
        assert q.text == p.text + Piece(ns[0]);
        StepsText(q, ns[1..]);
        assert ns[..k][1..] == ns[1..][..k - 1];
        Associate(p.text, Piece(ns[0]), Pieces(ns[1..][..k - 1]));
      }
    }

    /** The words of the text nodes among the visited nodes, in document order. */
    function WordsOf(ns: seq<Node>): seq<string> {
      if ns == [] then [] else (if ns[0].TextNode? then Fields(ns[0].data) else []) + WordsOf(ns[1..])
    }

    lemma {:induction false} PiecesKeepWords(ns: seq<Node>)
      ensures Fields(Pieces(ns)) == WordsOf(ns)
    {
      if ns != [] {
        PiecesKeepWords(ns[1..]);
        var rest := Pieces(ns[1..]);
        match ns[0]
        case TextNode(data) =>
          var clean := Join(Fields(data), " ");
          CollapseKeepsWords(data);
          if clean == "" {
            assert Piece(ns[0]) + rest == rest;
          } else {
            FieldsSplit(clean, " ", rest);
          }
        case Element(name, _, _) =>
          if Piece(ns[0]) == "" {
            assert "" + rest == rest;
          } else {
            FieldsOfSpace("\n", rest);
          }
        case Other(_) =>
          assert "" + rest == rest;
      }
    }

    // -------------------------------------------------------------- the words of the page

    /** The words of the kept text nodes of a tree, defined on the tree alone. */
    function KeptWords(n: Node): seq<string>
      decreases n, 0
    {
      match n
      case TextNode(data) => Fields(data)
      case Other(children) => KeptWordsAll(children)
      case Element(name, _, children) => if name in dropped || name == "title" then [] else KeptWordsAll(children)
    }

    function KeptWordsAll(ns: seq<Node>): seq<string>
      decreases ns, 0
    {
      if ns == [] then [] else KeptWords(ns[0]) + KeptWordsAll(ns[1..])
    }

    lemma {:induction false} WordsOfConcat(a: seq<Node>, b: seq<Node>)
      ensures WordsOf(a + b) == WordsOf(a) + WordsOf(b)
    {
      if a == [] {
        assert a + b == b;
      } else {
        assert (a + b)[1..] == a[1..] + b;
        WordsOfConcat(a[1..], b);
        Associate(if a[0].TextNode? then Fields(a[0].data) else [], WordsOf(a[1..]), WordsOf(b));
      }
    }

    lemma {:induction false} VisitedWords(n: Node)
      ensures WordsOf(Visited(n)) == KeptWords(n)
      decreases n, 0
    {
      match n
      case TextNode(data) => assert Fields(data) + [] == Fields(data);
      case Other(children) =>
        VisitedAllWords(children);
        assert ([n] + VisitedAll(children))[1..] == VisitedAll(children);
      case Element(name, _, children) =>
        if name !in dropped && name != "title" {
          VisitedAllWords(children);
          assert ([n] + VisitedAll(children))[1..] == VisitedAll(children);
        }
    }

    lemma {:induction false} VisitedAllWords(ns: seq<Node>)
      ensures WordsOf(VisitedAll(ns)) == KeptWordsAll(ns)
      decreases ns, 0
    {
      if ns != [] {
        VisitedWords(ns[0]);
        VisitedAllWords(ns[1..]);
        WordsOfConcat(Visited(ns[0]), VisitedAll(ns[1..]));
      }
    }

    /** What the reader returns for `root`. */
    function Read(root: Node): Page {
      Steps(EMPTY, Visited(root))
    }

    lemma {:induction false} WordsOfPrefix(ns: seq<Node>, k: nat)
      requires k <= |ns|
      ensures WordsOf(ns[..k]) <= WordsOf(ns)
    {
      if k > 0 {
        assert ns[..k][1..] == ns[1..][..k - 1];
        WordsOfPrefix(ns[1..], k - 1);
      }
    }

    lemma ReadWords(root: Node)
      ensures Fields(Layout(Read(root).text)) == WordsOf(Visited(root)[..Reached(0, Visited(root))])
    {
      var pieces := Pieces(Visited(root)[..Reached(0, Visited(root))]);
      StepsText(EMPTY, Visited(root));
      assert Read(root).text == "" + pieces == pieces;
      LayoutKeepsWords(pieces);
      PiecesKeepWords(Visited(root)[..Reached(0, Visited(root))]);
    }

    /** The words of the returned text are, in order, a prefix of the words of the kept text nodes; they are all of
        them when the text stays under the limit. */
    lemma ReadKeepsWords(root: Node)
      ensures Fields(Layout(Read(root).text)) <= KeptWords(root)
      ensures Size(Pieces(Visited(root))) <= LIMIT ==> Fields(Layout(Read(root).text)) == KeptWords(root)
    {
      var ns := Visited(root);
      var k := Reached(0, ns);
      ReadWords(root);
      VisitedWords(root);
      WordsOfPrefix(ns, k);
      if Size(Pieces(ns)) <= LIMIT {
        ReachedUnderLimit(0, ns);
        assert ns[..k] == ns;
      }
    }

    // -------------------------------------------------------------- links

    /** The collected links are the first occurrences among the candidates of the first `g` visited nodes, and
        collecting stopped early only because a limit was reached. */
    lemma {:induction false} StepsLinks(p: Page, ns: seq<Node>) returns (g: nat)
      ensures g <= |ns|
      ensures Steps(p, ns).links == Unseen(p.links, AllCandidates(ns[..g]))
      ensures g == |ns| || |Steps(p, ns).links| >= LINKS || Size(Steps(p, ns).text) > LIMIT
      decreases |ns|
    {
      if ns == [] {
        g := 0;
        assert ns[..0] == [];
      } else if Size(p.text) > LIMIT || |p.links| >= LINKS {
        g := 0;
        assert ns[..0] == [];
        FullStays(p, ns);
      } else {
        var q := Step(p, ns[0]);
        var h := StepsLinks(q, ns[1..]);
        g := h + 1;
        assert ns[..g] == [ns[0]] + ns[1..][..h] && ns[..g][1..] == ns[1..][..h];
        if ns[0].Element? && ns[0].name == "title" {
          assert Candidates(ns[0]) == [];
        }
        UnseenConcat(p.links, Candidates(ns[0]), AllCandidates(ns[1..][..h]));
      }
    }

    lemma {:induction false} FullStays(p: Page, ns: seq<Node>)
      requires Size(p.text) > LIMIT || |p.links| >= LINKS
      ensures Steps(p, ns).links == p.links
      ensures Size(p.text) > LIMIT ==> Steps(p, ns).text == p.text
      decreases |ns|
    {
      if ns != [] {
        FullStays(Step(p, ns[0]), ns[1..]);
      }
    }

    function Hrefs(attrs: seq<Attr>): nat {
      if attrs == [] then 0 else (if attrs[0].key == "href" then 1 else 0) + Hrefs(attrs[1..])
    }

    lemma {:induction false} OffersBound(caption: string, attrs: seq<Attr>)
      ensures |Offers(caption, attrs)| <= Hrefs(attrs)
    {
      if attrs != [] && caption != "" {
        OffersBound(caption, attrs[1..]);
      }
    }

    predicate AnchorsHaveAtMost(m: nat, ns: seq<Node>) {
      forall n :: n in ns && n.Element? && n.name == "a" ==> Hrefs(n.attrs) <= m
    }

    lemma {:induction false} LinkBound(p: Page, ns: seq<Node>, m: nat)
      requires m >= 1 && AnchorsHaveAtMost(m, ns) && |p.links| <= LINKS - 1 + m && DistinctUrls(p.links)
      ensures |Steps(p, ns).links| <= LINKS - 1 + m
      decreases |ns|
    {
      if ns != [] {
        var n := ns[0];
        assert n in ns;
        UnseenIsDistinct(p.links, Candidates(n));
        if n.Element? && n.name == "a" {
          OffersBound(Contents(n), n.attrs);
        }
        LinkBound(Step(p, n), ns[1..], m);
      }
    }

    /** Links have pairwise distinct addresses in order of first occurrence, and one anchor with several `href`
        attributes is all that can take their number past thirty. */
    lemma ReadLinks(root: Node, m: nat) returns (g: nat)
      requires m >= 1 && AnchorsHaveAtMost(m, Visited(root))
      ensures DistinctUrls(Read(root).links)
      ensures |Read(root).links| <= LINKS - 1 + m
      ensures g <= |Visited(root)| && Read(root).links == Unseen([], AllCandidates(Visited(root)[..g]))
      ensures g == |Visited(root)| || |Read(root).links| >= LINKS || Size(Read(root).text) > LIMIT
    {
      g := StepsLinks(EMPTY, Visited(root));
      UnseenIsDistinct([], AllCandidates(Visited(root)[..g]));
      LinkBound(EMPTY, Visited(root), m);
    }
  }

  // ---------------------------------------------------------------- the walk with its captured variables

  lemma {:induction false} JoinedSnoc(ns: seq<Node>, n: Node)
    ensures Joined(ns + [n]) == Joined(ns) + (Contents(n) + " ")
  {
    if ns == [] {
      assert ns + [n] == [n] && Joined([n]) == Contents(n) + " " + "" == Contents(n) + " ";
    } else {
      assert (ns + [n])[1..] == ns[1..] + [n];
      JoinedSnoc(ns[1..], n);
      Associate(Contents(ns[0]) + " ", Joined(ns[1..]), Contents(n) + " ");
    }
  }

  /** The recursive text collector. */
  method Collect(n: Node) returns (s: string)
    ensures s == Contents(n)
    decreases n
  {
    if n.TextNode? {
      return n.data;
    }
    var b := "";
    for i := 0 to |n.children|
      invariant b == Joined(n.children[..i])
    {
      var part := Collect(n.children[i]);
      b := b + (part + " ");
      JoinedSnoc(n.children[..i], n.children[i]);
      assert n.children[..i] + [n.children[i]] == n.children[..i + 1];
    }
    assert n.children[..|n.children|] == n.children;
    s := Join(Fields(b), " ");
  }

  /** The final loop over the lines of the collected text. */
  method LayOut(text: string) returns (s: string)
    ensures s == Layout(text)
  {
    var ls := Lines(text);
    var kept: seq<string> := [];
    for i := 0 to |ls|
      invariant kept + NonBlank(ls[i..]) == NonBlank(ls)
    {
      var line := Trim(ls[i]);
      assert ls[i..][1..] == ls[i + 1..];
      if line != "" {
        Associate(kept, [line], NonBlank(ls[i + 1..]));
        kept := kept + [line];
      }
    }
    assert NonBlank(ls[|ls|..]) == [] && kept + [] == kept;
    s := Join(kept, "\n\n");
  }

  class PageReader {
    var text: string
    var title: string
    var links: seq<WebLink>
    var seen: set<string>
    const rules: Rules

    ghost predicate Valid()
      reads this
    {
      seen == Urls(links)
    }

    ghost function Abs(): Page
      reads this
    {
      Page(text, title, links)
    }

    constructor (rules: Rules)
      ensures Valid() && Abs() == EMPTY && this.rules == rules
    {
      text, title, links, seen := "", "", [], {};
      this.rules := rules;
    }

    method OfferLinks(n: Node)
      requires Valid() && n.Element?
      modifies this`links, this`seen
      ensures Valid() && links == Unseen(old(links), rules.Offers(Contents(n), n.attrs))
    {
      ghost var all := rules.Offers(Contents(n), n.attrs);
      for i := 0 to |n.attrs|
        invariant Valid() && Unseen(links, rules.Offers(Contents(n), n.attrs[i..])) == Unseen(old(links), all)
      {
        var a := n.attrs[i];
        rules.OffersStep(links, Contents(n), n.attrs[i..]);
        assert n.attrs[i..][1..] == n.attrs[i + 1..];
        if a.key == "href" {
          var u := rules.resolve(a.val);
          if u.Some? && u.value !in seen {
            var caption := Collect(n);
            if caption != "" {
              assert Urls(links + [WebLink(caption, u.value)]) == Urls(links) + {u.value};
              links := links + [WebLink(caption, u.value)];
              seen := seen + {u.value};
            }
          }
        }
      }
    }

    method Children(ns: seq<Node>)
      requires Valid()
      modifies this
      ensures Valid() && Abs() == rules.Steps(old(Abs()), rules.VisitedAll(ns))
      decreases ns, 1
    {
      for i := 0 to |ns|
        invariant Valid() && Abs() == rules.Steps(old(Abs()), rules.VisitedAll(ns[..i]))
      {
        rules.StepsConcat(old(Abs()), rules.VisitedAll(ns[..i]), rules.Visited(ns[i]));
        rules.VisitedSnoc(ns[..i], ns[i]);
        assert ns[..i] + [ns[i]] == ns[..i + 1];
        Walk(ns[i]);
      }
      assert ns[..|ns|] == ns;
    }

    method Walk(n: Node)
      requires Valid()
      modifies this
      ensures Valid() && Abs() == rules.Steps(old(Abs()), rules.Visited(n))
      decreases n, 0
    {
      if Size(text) > LIMIT {
        rules.StepsPastLimit(Abs(), rules.Visited(n));
        return;
      }
      ghost var before := Abs();
      if n.Element? {
        if n.name in rules.dropped {
          return;
        }
        if n.name == "title" {
          title := Collect(n);
          return;
        }
        if n.name == "a" && |links| < LINKS {
          OfferLinks(n);
        }
        if n.name in rules.breaks {
          text := text + "\n";
        }
      }
      if n.TextNode? {
        var clean := Join(Fields(n.data), " ");
        if clean != "" {
          text := text + (clean + " ");
        }
        return;
      }
      assert Abs() == rules.Step(before, n);
      rules.StepsConcat(before, [n], rules.VisitedAll(n.children));
      Children(n.children);
    }
  }

  /** The rules of the phone's text view. */
  function ReaderRules(resolve: string -> Option<string>): Rules {
    Rules({"script", "style", "noscript", "svg", "iframe", "form", "nav", "footer"},
          {"p", "div", "h1", "h2", "h3", "li", "br", "article"}, resolve)
  }

  /** `reader`: title, text and links of a parsed page. */
  method ReadPage(root: Node, resolve: string -> Option<string>)
    returns (title: string, text: string, links: seq<WebLink>)
    ensures
      var page := ReaderRules(resolve).Read(root);
      title == page.title && text == Layout(page.text) && links == page.links
  {
    var r := new PageReader(ReaderRules(resolve));
    r.Walk(root);
    text := LayOut(r.text);
    title, links := r.title, r.links;
  }

  // ---------------------------------------------------------------- thirty links

  function AnchorTo(hrefs: seq<string>): Node {
    Element("a", seq(|hrefs|, i requires 0 <= i < |hrefs| => Attr("href", hrefs[i])), [TextNode("x")])
  }

  /** One anchor for each reference. */
  function Anchors(refs: seq<string>): seq<Node> {
    if refs == [] then [] else Anchors(refs[..|refs| - 1]) + [AnchorTo([refs[|refs| - 1]])]
  }

  /** Anchors are inline elements and not dropped. */
  predicate KeepsAnchors(rules: Rules) {
    "a" !in rules.dropped && "a" !in rules.breaks
  }

  /** The references are accepted and lead to different addresses. */
  predicate Distinct(rules: Rules, refs: seq<string>) {
    && (forall i :: 0 <= i < |refs| ==> rules.resolve(refs[i]).Some?)
    && forall i, j :: 0 <= i < j < |refs| ==> rules.resolve(refs[i]) != rules.resolve(refs[j])
  }

  /** The links are those of the references, in order. */
  predicate LinksTo(rules: Rules, links: seq<WebLink>, refs: seq<string>) {
    |links| == |refs| && forall i :: 0 <= i < |refs| ==> rules.resolve(refs[i]) == Some(links[i].url)
  }

  lemma VisitedAnchor(rules: Rules, hrefs: seq<string>)
    requires KeepsAnchors(rules)
    ensures rules.Visited(AnchorTo(hrefs)) == [AnchorTo(hrefs), TextNode("x")]
  {
    assert rules.VisitedAll([TextNode("x")]) == [TextNode("x")] + [];
  }

  lemma CaptionOfAnchor(hrefs: seq<string>)
    ensures Contents(AnchorTo(hrefs)) == "x" && Join(Fields("x"), " ") == "x"
  {
    FieldsOfWord("x");
    FieldsSplit("x", " ", "");
    assert Joined([TextNode("x")]) == "x" + " " + "";
  }

  /** An anchor met below both limits contributes its new addresses and two bytes of text. */
  lemma StepAnchor(rules: Rules, p: Page, hrefs: seq<string>)
    requires KeepsAnchors(rules) && Size(p.text) <= LIMIT && |p.links| < LINKS
    ensures
      var q := rules.Steps(p, rules.Visited(AnchorTo(hrefs)));
      q.links == Unseen(p.links, rules.Offers("x", AnchorTo(hrefs).attrs)) && Size(q.text) == Size(p.text) + 2
  {
    VisitedAnchor(rules, hrefs);
    CaptionOfAnchor(hrefs);
    var n, t := AnchorTo(hrefs), TextNode("x");
    var q := rules.Step(p, n);
    assert q.text == p.text by { assert p.text + "" == p.text; }
    StepCaption(rules, q);
    StepsOfTwo(rules, p, n, t);
  }

  lemma StepCaption(rules: Rules, p: Page)
    requires Size(p.text) <= LIMIT
    ensures
      var q := rules.Step(p, TextNode("x"));
      q.links == p.links && Size(q.text) == Size(p.text) + 2
  {
    var t := TextNode("x");
    CaptionOfAnchor([]);
    assert rules.Piece(t) == "x" + " " == "x ";
    SizeConcat(p.text, "x ");
    assert Size("x ") == 2 by { assert "x "[1..] == " " && " "[1..] == ""; }
    assert rules.Candidates(t) == [];
  }

  lemma StepsOfTwo(rules: Rules, p: Page, a: Node, b: Node)
    ensures rules.Steps(p, [a, b]) == rules.Step(rules.Step(p, a), b)
  {
    var q := rules.Step(p, a);
    assert [a, b][1..] == [b] && [b][1..] == [];
    assert rules.Steps(q, [b]) == rules.Steps(rules.Step(q, b), []);
  }

  lemma DistinctPrefix(rules: Rules, refs: seq<string>, more: seq<string>)
    requires Distinct(rules, refs + more)
    ensures Distinct(rules, refs)
  {
    assert forall i :: 0 <= i < |refs| ==> (refs + more)[i] == refs[i];
  }

  lemma AddFresh(rules: Rules, links: seq<WebLink>, seen: seq<string>, ref: string)
    requires LinksTo(rules, links, seen) && Distinct(rules, seen + [ref])
    ensures rules.resolve(ref).Some? && rules.resolve(ref).value !in Urls(links)
    ensures LinksTo(rules, links + [WebLink("x", rules.resolve(ref).value)], seen + [ref])
  {
    var all := seen + [ref];
    assert all[|seen|] == ref;
    forall k | 0 <= k < |links| ensures rules.resolve(ref) != Some(links[k].url) {
      assert all[k] == seen[k];
    }
  }

  /** An anchor with one or two new addresses adds them. */
  lemma CollectFresh(rules: Rules, links: seq<WebLink>, seen: seq<string>, refs: seq<string>)
    returns (more: seq<WebLink>)
    requires 1 <= |refs| <= 2 && LinksTo(rules, links, seen) && Distinct(rules, seen + refs)
    ensures more == Unseen(links, rules.Offers("x", AnchorTo(refs).attrs)) && LinksTo(rules, more, seen + refs)
  {
    var attrs := AnchorTo(refs).attrs;
    assert refs == [refs[0]] + refs[1..];
    Associate(seen, [refs[0]], refs[1..]);
    DistinctPrefix(rules, seen + [refs[0]], refs[1..]);
    AddFresh(rules, links, seen, refs[0]);
    more := links + [WebLink("x", rules.resolve(refs[0]).value)];
    rules.OffersStep(links, "x", attrs);
    if |refs| == 1 {
      assert attrs[1..] == [];
      assert refs == [refs[0]];
    } else {
      assert refs[1..] == [refs[1]];
      AddFresh(rules, more, seen + [refs[0]], refs[1]);
      rules.OffersStep(more, "x", attrs[1..]);
      assert attrs[1..][1..] == [];
      more := more + [WebLink("x", rules.resolve(refs[1]).value)];
    }
  }

  /** Anchors with one new address each are all collected while there are fewer than thirty. */
  lemma {:induction false} ReadAnchors(rules: Rules, refs: seq<string>)
    requires KeepsAnchors(rules) && Distinct(rules, refs) && |refs| < LINKS
    ensures
      var p := rules.Steps(EMPTY, rules.VisitedAll(Anchors(refs)));
      Size(p.text) == 2 * |refs| && LinksTo(rules, p.links, refs)
  {
    if refs != [] {
      var front, last := refs[..|refs| - 1], [refs[|refs| - 1]];
      assert front + last == refs;
      ReadAnchors(rules, front);
      var p := rules.Steps(EMPTY, rules.VisitedAll(Anchors(front)));
      rules.VisitedSnoc(Anchors(front), AnchorTo(last));
      rules.StepsConcat(EMPTY, rules.VisitedAll(Anchors(front)), rules.Visited(AnchorTo(last)));
      StepAnchor(rules, p, last);
      var _ := CollectFresh(rules, p.links, front, last);
    }
  }

  /** Twenty-nine anchors followed by one anchor with the last two references. */
  function CrowdedPage(refs: seq<string>): Node
    requires |refs| == LINKS + 1
  {
    Other(Anchors(refs[..LINKS - 1]) + [AnchorTo(refs[LINKS - 1..])])
  }

  lemma CrowdedPageHas31(rules: Rules, refs: seq<string>)
    requires KeepsAnchors(rules) && |refs| == LINKS + 1 && Distinct(rules, refs)
    ensures LinksTo(rules, rules.Read(CrowdedPage(refs)).links, refs)
  {
    var front, last := refs[..LINKS - 1], refs[LINKS - 1..];
    var few := Anchors(front);
    var all := rules.VisitedAll(few + [AnchorTo(last)]);
    var p := rules.Steps(EMPTY, rules.VisitedAll(few));
    assert front + last == refs;
    ReadAnchors(rules, front);
    rules.VisitedSnoc(few, AnchorTo(last));
    rules.StepsConcat(EMPTY, rules.VisitedAll(few), rules.Visited(AnchorTo(last)));
    StepAnchor(rules, p, last);
    var _ := CollectFresh(rules, p.links, front, last);
    assert rules.Step(EMPTY, CrowdedPage(refs)) == EMPTY by { assert "" + "" == ""; }
    assert ([CrowdedPage(refs)] + all)[1..] == all;
  }

  lemma HrefsOfAnchor(rules: Rules, refs: seq<string>)
    requires 1 <= |refs| <= 2
    ensures rules.Hrefs(AnchorTo(refs).attrs) == |refs|
  {
    var attrs := AnchorTo(refs).attrs;
    if |refs| == 1 {
      assert attrs[1..] == [];
    } else {
      assert attrs[1..] == [Attr("href", refs[1])] && [Attr("href", refs[1])][1..] == [];
      assert rules.Hrefs([Attr("href", refs[1])]) == 1;
    }
  }

  lemma {:induction false} CrowdedAnchors(rules: Rules, refs: seq<string>)
    requires KeepsAnchors(rules)
    ensures forall v :: v in rules.VisitedAll(Anchors(refs)) && v.Element? ==> rules.Hrefs(v.attrs) == 1
  {
    if refs != [] {
      var last := [refs[|refs| - 1]];
      CrowdedAnchors(rules, refs[..|refs| - 1]);
      rules.VisitedSnoc(Anchors(refs[..|refs| - 1]), AnchorTo(last));
      VisitedAnchor(rules, last);
      HrefsOfAnchor(rules, last);
    }
  }

  lemma CrowdedPageHrefs(rules: Rules, refs: seq<string>)
    requires KeepsAnchors(rules) && |refs| == LINKS + 1
    ensures rules.AnchorsHaveAtMost(2, rules.Visited(CrowdedPage(refs)))
  {
    var few, last := Anchors(refs[..LINKS - 1]), refs[LINKS - 1..];
    CrowdedAnchors(rules, refs[..LINKS - 1]);
    rules.VisitedSnoc(few, AnchorTo(last));
    VisitedAnchor(rules, last);
    HrefsOfAnchor(rules, last);
    forall n | n in rules.Visited(CrowdedPage(refs)) && n.Element? ensures rules.Hrefs(n.attrs) <= 2 {
      assert n in rules.VisitedAll(few) || n == AnchorTo(last);
    }
  }

  // -------------------------------------------------------------- where links come from

  lemma {:induction false} OfferResolves(rules: Rules, caption: string, attrs: seq<Attr>, l: WebLink)
    returns (ref: string)
    requires l in rules.Offers(caption, attrs)
    ensures rules.resolve(ref) == Some(l.url)
  {
    if attrs[0].key == "href" && rules.resolve(attrs[0].val) == Some(l.url) {
      ref := attrs[0].val;
    } else {
      ref := OfferResolves(rules, caption, attrs[1..], l);
    }
  }

  lemma {:induction false} CandidateResolves(rules: Rules, ns: seq<Node>, l: WebLink) returns (ref: string)
    requires l in rules.AllCandidates(ns)
    ensures rules.resolve(ref) == Some(l.url)
  {
    if l in rules.Candidates(ns[0]) {
      ref := OfferResolves(rules, Contents(ns[0]), ns[0].attrs, l);
    } else {
      ref := CandidateResolves(rules, ns[1..], l);
    }
  }

  /** Links collected from candidates are those of some references. */
  lemma {:induction false} Sources(rules: Rules, ns: seq<Node>, links: seq<WebLink>) returns (refs: seq<string>)
    requires forall l :: l in links ==> l in rules.AllCandidates(ns)
    ensures LinksTo(rules, links, refs)
  {
    if links == [] {
      refs := [];
    } else {
      var n := |links| - 1;
      var front := Sources(rules, ns, links[..n]);
      var ref := CandidateResolves(rules, ns, links[n]);
      refs := front + [ref];
    }
  }

  lemma ReadSources(rules: Rules, root: Node) returns (refs: seq<string>)
    ensures LinksTo(rules, rules.Read(root).links, refs) && Distinct(rules, refs)
  {
    var g := rules.StepsLinks(EMPTY, rules.Visited(root));
    var candidates := rules.AllCandidates(rules.Visited(root)[..g]);
    UnseenIsDistinct([], candidates);
    refs := Sources(rules, rules.Visited(root)[..g], rules.Read(root).links);
  }

  /** Some 31 references are accepted and lead to different addresses. */
  ghost predicate ManyAddresses(rules: Rules) {
    exists refs :: |refs| == LINKS + 1 && Distinct(rules, refs)
  }

  lemma ManyFrom(rules: Rules, refs: seq<string>)
    requires Distinct(rules, refs)
    ensures |refs| > LINKS ==> ManyAddresses(rules)
  {
    if |refs| > LINKS {
      assert Distinct(rules, refs[..LINKS + 1]);
    }
  }

  lemma ThirtyLinks(rules: Rules, m: nat)
    requires KeepsAnchors(rules) && m >= 1
    ensures (forall root :: rules.AnchorsHaveAtMost(m, rules.Visited(root)) ==> |rules.Read(root).links| <= LINKS)
            <==> (m == 1 || !ManyAddresses(rules))
  {
    if m == 1 {
      forall root | rules.AnchorsHaveAtMost(m, rules.Visited(root)) ensures |rules.Read(root).links| <= LINKS {
        var _ := rules.ReadLinks(root, 1);
      }
    } else if refs :| |refs| == LINKS + 1 && Distinct(rules, refs) {
      CrowdedPageHas31(rules, refs);
      CrowdedPageHrefs(rules, refs);
      assert rules.AnchorsHaveAtMost(m, rules.Visited(CrowdedPage(refs)));
    } else {
      forall root ensures |rules.Read(root).links| <= LINKS {
        var refs := ReadSources(rules, root);
        ManyFrom(rules, refs);
      }
    }
  }

  /** Whatever references the reader accepts, thirty is the most links a page can return exactly when no anchor may
      carry more than one `href`, or there are not 31 addresses to lead to: the count is only checked before an anchor,
      not before each of its attributes. */
  lemma ThirtyLinksExactly(resolve: string -> Option<string>, m: nat)
    requires m >= 1
    ensures
      var rules := ReaderRules(resolve);
      (forall root :: rules.AnchorsHaveAtMost(m, rules.Visited(root)) ==> |rules.Read(root).links| <= LINKS)
      <==> (m == 1 || !ManyAddresses(rules))
  {
    AnchorsAreInline(resolve);
    ThirtyLinks(ReaderRules(resolve), m);
  }

  lemma AnchorsAreInline(resolve: string -> Option<string>)
    ensures KeepsAnchors(ReaderRules(resolve))
  {
  }
}
