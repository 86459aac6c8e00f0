/** What the text view of a page says, told from the parsed tree: which nodes it is made from, its paragraphs word by
    word, its title, and where its links come from. */
module TextContent {
  import opened Text
  import opened HtmlTree
  import opened TextReader

  // ---------------------------------------------------------------- the nodes it is made from

  predicate IsTitle(n: Node) {
    n.Element? && n.name == "title"
  }

  predicate Dropped(rules: Rules, n: Node) {
    n.Element? && n.name in rules.dropped
  }

  /** The node or an ancestor is dropped, or an ancestor is a title. */
  predicate Skipped(rules: Rules, p: Place) {
    Dropped(rules, p.node) || exists m :: m in p.above && (Dropped(rules, m) || IsTitle(m))
  }

  function Met(rules: Rules, ps: seq<Place>): seq<Node> {
    if ps == [] then [] else (if Skipped(rules, ps[0]) then [] else [ps[0].node]) + Met(rules, ps[1..])
  }

  lemma {:induction false} MetConcat(rules: Rules, a: seq<Place>, b: seq<Place>)
    ensures Met(rules, a + b) == Met(rules, a) + Met(rules, b)
  {
    if a == [] {
      assert a + b == b;
    } else {
      assert (a + b)[0] == a[0] && (a + b)[1..] == a[1..] + b;
      MetConcat(rules, a[1..], b);
    }
  }

  lemma {:induction false} NothingMet(rules: Rules, ps: seq<Place>)
    requires forall p :: p in ps ==> Skipped(rules, p)
    ensures Met(rules, ps) == []
  {
    if ps != [] {
      assert ps[0] in ps;
      NothingMet(rules, ps[1..]);
    }
  }

  predicate Open(rules: Rules, above: seq<Node>) {
    forall m :: m in above ==> !Dropped(rules, m) && !IsTitle(m)
  }

  /** Below a dropped element and inside a title nothing is met. */
  lemma ClosedBelow(rules: Rules, n: Node, above: seq<Node>)
    requires !n.TextNode? && (Dropped(rules, n) || IsTitle(n))
    ensures Met(rules, PlacesAll(n.children, above + [n])) == []
  {
    forall p | p in PlacesAll(n.children, above + [n]) ensures Skipped(rules, p) {
      AboveStaysAll(n.children, above + [n], p);
      assert (above + [n])[|above|] == n && n in p.above;
    }
    NothingMet(rules, PlacesAll(n.children, above + [n]));
  }

  /** The walk meets, in document order, exactly the nodes that are not skipped. */
  lemma {:induction false} VisitedExactly(rules: Rules, n: Node, above: seq<Node>)
    requires Open(rules, above)
    ensures rules.Visited(n) == Met(rules, Places(n, above))
    decreases n, 0
  {
    var here := Place(n, above);
    if n.TextNode? {
      assert Places(n, above) == [here] && [here][1..] == [];
    } else {
      var below := PlacesAll(n.children, above + [n]);
      assert ([here] + below)[1..] == below;
      if Dropped(rules, n) || IsTitle(n) {
        ClosedBelow(rules, n, above);
      } else {
        VisitedAllExactly(rules, n.children, above + [n]);
      }
    }
  }

  lemma {:induction false} VisitedAllExactly(rules: Rules, ns: seq<Node>, above: seq<Node>)
    requires Open(rules, above)
    ensures rules.VisitedAll(ns) == Met(rules, PlacesAll(ns, above))
    decreases ns, 0
  {
    if ns != [] {
      VisitedExactly(rules, ns[0], above);
      VisitedAllExactly(rules, ns[1..], above);
      MetConcat(rules, Places(ns[0], above), PlacesAll(ns[1..], above));
    }
  }

  // ---------------------------------------------------------------- paragraphs

  /** The words of the text nodes, parted where an element starts a new line. */
  function Paragraphs(rules: Rules, ns: seq<Node>): (ps: seq<seq<string>>)
    ensures ps != []
  {
    if ns == [] then [[]]
    else
      var rest := Paragraphs(rules, ns[1..]);
      if ns[0].TextNode? then [Fields(ns[0].data) + rest[0]] + rest[1..]
      else if ns[0].Element? && ns[0].name in rules.breaks && !IsTitle(ns[0]) then [[]] + rest
      else rest
  }

  /** Each word followed by a space. */
  function Spaced(ws: seq<string>): string {
    if ws == [] then "" else ws[0] + " " + Spaced(ws[1..])
  }

  /** Spaced paragraphs, one a line. */
  function Stacked(ps: seq<seq<string>>): string
    requires ps != []
  {
    if |ps| == 1 then Spaced(ps[0]) else Spaced(ps[0]) + "\n" + Stacked(ps[1..])
  }

  /** The paragraphs that have words, those parted by single spaces. */
  function Lined(ps: seq<seq<string>>): seq<string> {
    if ps == [] then [] else (if ps[0] == [] then [] else [Join(ps[0], " ")]) + Lined(ps[1..])
  }

  predicate AllWords(ws: seq<string>) {
    forall w :: w in ws ==> IsWord(w)
  }

  lemma {:induction false} SpacedConcat(a: seq<string>, b: seq<string>)
    ensures Spaced(a + b) == Spaced(a) + Spaced(b)
  {
    if a == [] {
      assert a + b == b;
    } else {
      assert (a + b)[0] == a[0] && (a + b)[1..] == a[1..] + b;
      SpacedConcat(a[1..], b);
      Associate(a[0] + " ", Spaced(a[1..]), Spaced(b));
    }
  }

  /** Joining with spaces and adding one is spacing. */
  lemma {:induction false} JoinSpaced(ws: seq<string>)
    requires ws != []
    ensures Join(ws, " ") + " " == Spaced(ws)
  {
    if |ws| == 1 {
      assert Spaced(ws[1..]) == "" && ws[0] + " " + "" == ws[0] + " ";
    } else {
      JoinSpaced(ws[1..]);
      Associate(ws[0] + " ", Join(ws[1..], " "), " ");
    }
  }

  lemma PieceOfText(rules: Rules, n: Node)
    requires n.TextNode?
    ensures rules.Piece(n) == Spaced(Fields(n.data))
  {
    var ws := Fields(n.data);
    if ws != [] {
      JoinSpaced(ws);
      assert Join(ws, " ") != "" by {
        if |ws| == 1 { assert IsWord(ws[0]); }
      }
    }
  }

  lemma StackedFirst(a: seq<string>, ps: seq<seq<string>>)
    requires ps != []
    ensures Stacked([a + ps[0]] + ps[1..]) == Spaced(a) + Stacked(ps)
  {
    var qs := [a + ps[0]] + ps[1..];
    SpacedConcat(a, ps[0]);
    assert qs[1..] == ps[1..];
    if |ps| > 1 {
      Associate(Spaced(a), Spaced(ps[0]), "\n");
      Associate(Spaced(a), Spaced(ps[0]) + "\n", Stacked(ps[1..]));
    }
  }

  /** The text collected from nodes is their paragraphs, stacked. */
  lemma {:induction false} PiecesAreStacked(rules: Rules, ns: seq<Node>)
    ensures rules.Pieces(ns) == Stacked(Paragraphs(rules, ns))
  {
    if ns != [] {
      PiecesAreStacked(rules, ns[1..]);
      var rest := Paragraphs(rules, ns[1..]);
      if ns[0].TextNode? {
        PieceOfText(rules, ns[0]);
        StackedFirst(Fields(ns[0].data), rest);
      } else if ns[0].Element? && ns[0].name in rules.breaks && !IsTitle(ns[0]) {
        assert ([[]] + rest)[1..] == rest;
        assert "" + "\n" + Stacked(rest) == "\n" + Stacked(rest);
      } else {
        assert "" + rules.Pieces(ns[1..]) == rules.Pieces(ns[1..]);
      }
    }
  }

  lemma {:induction false} ParagraphsHaveWords(rules: Rules, ns: seq<Node>)
    ensures forall ws :: ws in Paragraphs(rules, ns) ==> AllWords(ws)
  {
    if ns != [] {
      ParagraphsHaveWords(rules, ns[1..]);
      var rest := Paragraphs(rules, ns[1..]);
      assert rest[0] in rest && AllWords(rest[0]);
      if ns[0].TextNode? { assert AllWords(Fields(ns[0].data) + rest[0]); }
    }
  }

  lemma {:induction false} SpacedHasNoBreak(ws: seq<string>)
    requires AllWords(ws)
    ensures '\n' !in Spaced(ws)
  {
    if ws != [] {
      assert IsWord(ws[0]);
      SpacedHasNoBreak(ws[1..]);
    }
  }

  function SpacedAll(ps: seq<seq<string>>): seq<string> {
    if ps == [] then [] else [Spaced(ps[0])] + SpacedAll(ps[1..])
  }

  lemma {:induction false} LinesOfStacked(ps: seq<seq<string>>)
    requires ps != [] && forall ws :: ws in ps ==> AllWords(ws)
    ensures Lines(Stacked(ps)) == SpacedAll(ps)
  {
    var first := Spaced(ps[0]);
    SpacedHasNoBreak(ps[0]);
    if |ps| == 1 {
      assert first + "" == first;
      IndexOfAfter(first, "", '\n');
      assert SpacedAll(ps[1..]) == [];
    } else {
      var later := Stacked(ps[1..]);
      LinesOfStacked(ps[1..]);
      Associate(first, "\n", later);
      IndexOfAfter(first, "\n" + later, '\n');
      var s := first + ("\n" + later);
      assert s[..|first|] == first && s[|first| + 1..] == later;
    }
  }

  lemma {:induction false} JoinEnds(ws: seq<string>)
    requires ws != [] && AllWords(ws)
    ensures Join(ws, " ") != "" && !IsSpace(Join(ws, " ")[0]) && !IsSpace(Join(ws, " ")[|Join(ws, " ")| - 1])
  {
    assert IsWord(ws[0]);
    if |ws| > 1 { JoinEnds(ws[1..]); }
  }

  /** Trimming a spaced line leaves its words parted by single spaces. */
  lemma TrimSpaced(ws: seq<string>)
    requires AllWords(ws)
    ensures Trim(Spaced(ws)) == Join(ws, " ") && (Trim(Spaced(ws)) == "" <==> ws == [])
  {
    if ws != [] {
      var j := Join(ws, " ");
      JoinSpaced(ws);
      JoinEnds(ws);
      assert (j + " ")[0] == j[0] && TrimLeft(j + " ") == j + " ";
      assert (j + " ")[..|j|] == j;
      assert TrimRight(j + " ") == TrimRight(j) == j;
    }
  }

  lemma {:induction false} NonBlankSpaced(ps: seq<seq<string>>)
    requires forall ws :: ws in ps ==> AllWords(ws)
    ensures NonBlank(SpacedAll(ps)) == Lined(ps)
  {
    if ps != [] {
      TrimSpaced(ps[0]);
      NonBlankSpaced(ps[1..]);
      assert SpacedAll(ps)[1..] == SpacedAll(ps[1..]);
    }
  }

  // ---------------------------------------------------------------- how far it reads

  lemma {:induction false} ReachedIsFirstPast(rules: Rules, len: nat, ns: seq<Node>)
    ensures forall j :: 0 <= j < rules.Reached(len, ns) ==> len + Size(rules.Pieces(ns[..j])) <= LIMIT
    ensures rules.Reached(len, ns) < |ns| ==> len + Size(rules.Pieces(ns[..rules.Reached(len, ns)])) > LIMIT
    decreases |ns|
  {
    var k := rules.Reached(len, ns);
    assert ns[..0] == [];
    if k > 0 {
      var len' := len + Size(rules.Piece(ns[0]));
      ReachedIsFirstPast(rules, len', ns[1..]);
      forall j | 0 < j <= k ensures len + Size(rules.Pieces(ns[..j])) == len' + Size(rules.Pieces(ns[1..][..j - 1])) {
        rules.SizeOfPieces(ns[..j]);
        assert ns[..j][1..] == ns[1..][..j - 1] && ns[..j][0] == ns[0];
      }
    }
  }

  /** The reader stops after the first of the nodes it meets with which its text passes the limit. */
  predicate StopsAfter(rules: Rules, ns: seq<Node>, k: nat) {
    && k <= |ns|
    && (forall j :: 0 <= j < k ==> Size(Stacked(Paragraphs(rules, ns[..j]))) <= LIMIT)
    && (k < |ns| ==> Size(Stacked(Paragraphs(rules, ns[..k]))) > LIMIT)
  }

  /** The returned text, to the letter: the paragraphs of the nodes met that have words, their words parted by single
      spaces, with blank lines between the paragraphs. */
  lemma TextExactly(rules: Rules, root: Node) returns (k: nat)
    ensures
      var ns := Met(rules, Places(root, []));
      StopsAfter(rules, ns, k) && Layout(rules.Read(root).text) == Join(Lined(Paragraphs(rules, ns[..k])), "\n\n")
  {
    VisitedExactly(rules, root, []);
    k := StopsExactly(rules, rules.Visited(root));
    TextOf(rules, root, rules.Visited(root)[..k]);
  }

  lemma TextOf(rules: Rules, root: Node, met: seq<Node>)
    requires met == rules.Visited(root)[..rules.Reached(0, rules.Visited(root))]
    ensures Layout(rules.Read(root).text) == Join(Lined(Paragraphs(rules, met)), "\n\n")
  {
    var ps := Paragraphs(rules, met);
    rules.StepsText(EMPTY, rules.Visited(root));
    assert rules.Read(root).text == "" + rules.Pieces(met) == rules.Pieces(met);
    PiecesAreStacked(rules, met);
    ParagraphsHaveWords(rules, met);
    LinesOfStacked(ps);
    NonBlankSpaced(ps);
  }

  // ---------------------------------------------------------------- the title

  /** A caption or title is the words below its element parted by single spaces. */
  lemma ContentsExactly(n: Node)
    requires !n.TextNode?
    ensures Contents(n) == Join(WordsBelow(n), " ")
  {
    JoinedKeepsWords(n.children);
  }

  function LastTitle(ns: seq<Node>): (r: Option<Node>)
    ensures r.Some? ==> r.value in ns && IsTitle(r.value)
  {
    if ns == [] then None
    else if LastTitle(ns[1..]).Some? then LastTitle(ns[1..])
    else if IsTitle(ns[0]) then Some(ns[0]) else None
  }

  /** It is the title after which no other one comes, if there is a title at all. */
  lemma {:induction false} LastTitleIsLast(ns: seq<Node>, i: nat)
    requires i < |ns| && IsTitle(ns[i]) && forall j :: i < j < |ns| ==> !IsTitle(ns[j])
    ensures LastTitle(ns) == Some(ns[i])
  {
    if i == 0 {
      NoTitle(ns[1..]);
    } else {
      LastTitleIsLast(ns[1..], i - 1);
    }
  }

  lemma {:induction false} NoTitle(ns: seq<Node>)
    requires forall n :: n in ns ==> !IsTitle(n)
    ensures LastTitle(ns) == None
  {
    if ns != [] {
      assert forall n :: n in ns[1..] ==> n in ns;
      NoTitle(ns[1..]);
    }
  }

  /** The title a page has after the nodes. */
  function TitleAfter(title: string, ns: seq<Node>): string
    decreases |ns|
  {
    if ns == [] then title else TitleAfter(if IsTitle(ns[0]) then Contents(ns[0]) else title, ns[1..])
  }

  lemma {:induction false} TitleAfterIsLast(title: string, ns: seq<Node>)
    ensures TitleAfter(title, ns) == if LastTitle(ns).None? then title else Contents(LastTitle(ns).value)
    decreases |ns|
  {
    if ns != [] {
      TitleAfterIsLast(if IsTitle(ns[0]) then Contents(ns[0]) else title, ns[1..]);
    }
  }

  lemma TitleAfterFirst(title: string, ns: seq<Node>, k: nat)
    requires k < |ns|
    ensures TitleAfter(title, ns[..k + 1]) ==
            TitleAfter(if IsTitle(ns[0]) then Contents(ns[0]) else title, ns[1..][..k])
  {
    assert ns[..k + 1][1..] == ns[1..][..k];
  }

  lemma StepTitle(rules: Rules, p: Page, n: Node)
    requires Size(p.text) <= LIMIT
    ensures rules.Step(p, n).title == if IsTitle(n) then Contents(n) else p.title
    ensures Size(rules.Step(p, n).text) == Size(p.text) + Size(rules.Piece(n))
  {
    SizeConcat(p.text, rules.Piece(n));
    assert rules.Step(p, n).text == p.text + rules.Piece(n) by { assert p.text + "" == p.text; }
  }

  lemma {:induction false} StepsTitle(rules: Rules, p: Page, ns: seq<Node>)
    ensures rules.Steps(p, ns).title == TitleAfter(p.title, ns[..rules.Reached(Size(p.text), ns)])
    decreases |ns|
  {
    if ns == [] {
    } else if Size(p.text) > LIMIT {
      rules.StepsPastLimit(p, ns);
    } else {
      var q := rules.Step(p, ns[0]);
      StepTitle(rules, p, ns[0]);
      StepsTitle(rules, q, ns[1..]);
      assert rules.Steps(p, ns) == rules.Steps(q, ns[1..]);
      TitleAfterFirst(p.title, ns, rules.Reached(Size(q.text), ns[1..]));
    }
  }

  lemma StopsExactly(rules: Rules, ns: seq<Node>) returns (k: nat)
    ensures k == rules.Reached(0, ns) && StopsAfter(rules, ns, k)
  {
    k := rules.Reached(0, ns);
    ReachedIsFirstPast(rules, 0, ns);
    forall j | 0 <= j <= |ns| ensures rules.Pieces(ns[..j]) == Stacked(Paragraphs(rules, ns[..j])) {
      PiecesAreStacked(rules, ns[..j]);
    }
  }

  /** The returned title is the words of the last title met before the limit, or empty when none was met. */
  lemma TitleExactly(rules: Rules, root: Node) returns (k: nat)
    ensures StopsAfter(rules, Met(rules, Places(root, [])), k)
    ensures
      var last := LastTitle(Met(rules, Places(root, []))[..k]);
      rules.Read(root).title == if last.None? then "" else Join(WordsBelow(last.value), " ")
  {
    VisitedExactly(rules, root, []);
    k := StopsExactly(rules, rules.Visited(root));
    StepsTitle(rules, EMPTY, rules.Visited(root));
    TitleAfterIsLast("", rules.Visited(root)[..k]);
    var last := LastTitle(rules.Visited(root)[..k]);
    if last.Some? { ContentsExactly(last.value); }
  }

  // ---------------------------------------------------------------- the links

  /** The anchor has words and an `href` that resolves to the link's address, and the link carries those words. */
  predicate LinkOf(rules: Rules, n: Node, l: WebLink) {
    && n.Element? && n.name == "a" && WordsBelow(n) != [] && l.text == Join(WordsBelow(n), " ")
    && exists i :: 0 <= i < |n.attrs| && n.attrs[i].key == "href" && rules.resolve(n.attrs[i].val) == Some(l.url)
  }

  lemma {:induction false} OffersExactly(rules: Rules, caption: string, attrs: seq<Attr>, l: WebLink)
    ensures l in rules.Offers(caption, attrs) <==>
            caption != "" && l.text == caption &&
            exists i :: 0 <= i < |attrs| && attrs[i].key == "href" && rules.resolve(attrs[i].val) == Some(l.url)
  {
    if attrs != [] && caption != "" {
      OffersExactly(rules, caption, attrs[1..], l);
      if i :| 0 <= i < |attrs[1..]| && attrs[1..][i].key == "href" && rules.resolve(attrs[1..][i].val) == Some(l.url) {
        assert attrs[i + 1] == attrs[1..][i];
      }
      if i :| 0 <= i < |attrs| && attrs[i].key == "href" && rules.resolve(attrs[i].val) == Some(l.url) {
        if i > 0 { assert attrs[1..][i - 1] == attrs[i]; }
      }
    }
  }

  lemma {:induction false} WordsBelowAreWords(n: Node)
    ensures AllWords(WordsBelow(n))
  {
    ContentsKeepsWords(n);
  }

  lemma CandidatesExactly(rules: Rules, n: Node, l: WebLink)
    ensures l in rules.Candidates(n) <==> LinkOf(rules, n, l)
  {
    if n.Element? && n.name == "a" {
      ContentsExactly(n);
      WordsBelowAreWords(n);
      if WordsBelow(n) != [] { JoinEnds(WordsBelow(n)); }
      OffersExactly(rules, Contents(n), n.attrs, l);
    }
  }

  lemma {:induction false} AllCandidatesExactly(rules: Rules, ns: seq<Node>, l: WebLink)
    ensures l in rules.AllCandidates(ns) <==> exists n :: n in ns && LinkOf(rules, n, l)
  {
    if ns != [] {
      CandidatesExactly(rules, ns[0], l);
      AllCandidatesExactly(rules, ns[1..], l);
      assert forall n :: n in ns <==> n == ns[0] || n in ns[1..];
    }
  }

  /** Every link returned is one of an anchor met, with its words. While neither limit is reached, every address that an
      anchor met leads to is returned. */
  lemma LinksExactly(rules: Rules, root: Node)
    ensures
      var ns, page := Met(rules, Places(root, [])), rules.Read(root);
      && (forall l :: l in page.links ==> exists n :: n in ns && LinkOf(rules, n, l))
      && (|page.links| < LINKS && Size(page.text) <= LIMIT ==>
            forall n, l :: n in ns && LinkOf(rules, n, l) ==> exists m :: m in page.links && m.url == l.url)
  {
    var ns, page := rules.Visited(root), rules.Read(root);
    VisitedExactly(rules, root, []);
    var g := rules.StepsLinks(EMPTY, ns);
    var candidates := rules.AllCandidates(ns[..g]);
    UnseenIsDistinct([], candidates);
    forall l | l in page.links ensures exists n :: n in ns && LinkOf(rules, n, l) {
      AllCandidatesExactly(rules, ns[..g], l);
    }
    if |page.links| < LINKS && Size(page.text) <= LIMIT {
      assert ns[..g] == ns;
      forall n, l | n in ns && LinkOf(rules, n, l) ensures exists m :: m in page.links && m.url == l.url {
        AllCandidatesExactly(rules, ns, l);
        assert l.url in Urls(candidates);
      }
    }
  }
}
