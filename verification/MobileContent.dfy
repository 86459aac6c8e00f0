/** What a reader of the mobile page gets to see, told from the parsed tree alone: every character and every kept
    element or accepted anchor outside the dropped subtrees, in document order, each inside exactly the tags of its
    kept ancestors. */
module MobileContent {
  import opened Text
  import opened HtmlTree
  import opened Cutting
  import opened MobileReader

  datatype Frame = Tag(name: string) | To(url: string)

  datatype Mark = Letter(c: char) | Start(frame: Frame)

  /** Something a reader meets, and the elements it stands in, innermost first. */
  datatype Shown = Shown(mark: Mark, inside: seq<Frame>)

  function Letters(data: string, inside: seq<Frame>): seq<Shown> {
    seq(|data|, i requires 0 <= i < |data| => Shown(Letter(data[i]), inside))
  }

  // ---------------------------------------------------------------- told from the tree

  /** How an element appears on the page, if it does: kept elements, and anchors whose first `href` is accepted. */
  function FrameOf(rules: Rules, n: Node): Option<Frame> {
    if !n.Element? then None
    else if n.name in rules.kept then Some(Tag(n.name))
    else if n.name != "a" then None
    else match rules.Target(n.attrs) case None => None case Some(url) => Some(To(url))
  }

  /** The target of an anchor is what its first `href` resolves to. */
  lemma {:induction false} TargetExactly(rules: Rules, attrs: seq<Attr>, url: string)
    ensures rules.Target(attrs) == Some(url) <==>
            exists i :: 0 <= i < |attrs| && attrs[i].key == "href" && rules.resolve(attrs[i].val) == Some(url) &&
              forall j :: 0 <= j < i ==> attrs[j].key != "href"
  {
    if attrs != [] && attrs[0].key != "href" {
      TargetExactly(rules, attrs[1..], url);
      if i :| 0 <= i < |attrs| && attrs[i].key == "href" && rules.resolve(attrs[i].val) == Some(url) &&
              forall j :: 0 <= j < i ==> attrs[j].key != "href" {
        assert attrs[1..][i - 1] == attrs[i];
        assert forall j :: 0 <= j < i - 1 ==> attrs[1..][j] == attrs[j + 1];
      }
      if i :| 0 <= i < |attrs[1..]| && attrs[1..][i].key == "href" && rules.resolve(attrs[1..][i].val) == Some(url) &&
              forall j :: 0 <= j < i ==> attrs[1..][j].key != "href" {
        assert attrs[i + 1] == attrs[1..][i];
        assert forall j :: 1 <= j < i + 1 ==> attrs[j] == attrs[1..][j - 1];
      }
    }
  }

  /** The frames of the ancestors that appear and are not void, innermost first. */
  function Context(rules: Rules, above: seq<Node>): seq<Frame> {
    if above == [] then []
    else
      var inner := above[|above| - 1];
      var outer := Context(rules, above[..|above| - 1]);
      match FrameOf(rules, inner)
      case None => outer
      case Some(f) => if inner.name in rules.void then outer else [f] + outer
  }

  predicate Dropped(rules: Rules, n: Node) {
    n.Element? && n.name in rules.dropped
  }

  /** The node or one of its ancestors is dropped. */
  predicate Hidden(rules: Rules, p: Place) {
    Dropped(rules, p.node) || exists m :: m in p.above && Dropped(rules, m)
  }

  function ShownAt(rules: Rules, p: Place): seq<Shown> {
    if Hidden(rules, p) then []
    else if p.node.TextNode? then Letters(p.node.data, Context(rules, p.above))
    else match FrameOf(rules, p.node)
      case None => []
      case Some(f) => [Shown(Start(f), Context(rules, p.above))]
  }

  function ShownAll(rules: Rules, ps: seq<Place>): seq<Shown> {
    if ps == [] then [] else ShownAt(rules, ps[0]) + ShownAll(rules, ps[1..])
  }

  // ---------------------------------------------------------------- told from the page

  /** Reads markup tag by tag: void tags hold nothing, every other tag holds what stands before its closing tag. */
  function Account(rules: Rules, ts: seq<Token>, inside: seq<Frame>): seq<Shown> {
    if ts == [] then []
    else
      match ts[0]
      case Chars(text) => Letters(text, inside) + Account(rules, ts[1..], inside)
      case Open(tag) =>
        [Shown(Start(Tag(tag)), inside)] +
        Account(rules, ts[1..], if tag in rules.void then inside else [Tag(tag)] + inside)
      case Link(url) => [Shown(Start(To(url)), inside)] + Account(rules, ts[1..], [To(url)] + inside)
      case Close(_) => Account(rules, ts[1..], if inside == [] then [] else inside[1..])
  }

  function InsideAfter(rules: Rules, ts: seq<Token>, inside: seq<Frame>): seq<Frame> {
    if ts == [] then inside
    else
      match ts[0]
      case Chars(_) => InsideAfter(rules, ts[1..], inside)
      case Open(tag) => InsideAfter(rules, ts[1..], if tag in rules.void then inside else [Tag(tag)] + inside)
      case Link(url) => InsideAfter(rules, ts[1..], [To(url)] + inside)
      case Close(_) => InsideAfter(rules, ts[1..], if inside == [] then [] else inside[1..])
  }

  lemma {:induction false} AccountConcat(rules: Rules, a: seq<Token>, b: seq<Token>, inside: seq<Frame>)
    ensures Account(rules, a + b, inside) ==
            Account(rules, a, inside) + Account(rules, b, InsideAfter(rules, a, inside))
    ensures InsideAfter(rules, a + b, inside) == InsideAfter(rules, b, InsideAfter(rules, a, inside))
  {
    if a == [] {
      assert a + b == b;
    } else {
      assert (a + b)[0] == a[0] && (a + b)[1..] == a[1..] + b;
      match a[0]
      case Chars(text) => AccountConcat(rules, a[1..], b, inside);
      case Open(tag) => AccountConcat(rules, a[1..], b, if tag in rules.void then inside else [Tag(tag)] + inside);
      case Link(url) => AccountConcat(rules, a[1..], b, [To(url)] + inside);
      case Close(_) => AccountConcat(rules, a[1..], b, if inside == [] then [] else inside[1..]);
    }
  }

  /** Joining adjacent text changes nothing for the reader. */
  lemma {:induction false} AccountMerge(rules: Rules, ts: seq<Token>, inside: seq<Frame>)
    ensures Account(rules, rules.Merge(ts), inside) == Account(rules, ts, inside)
  {
    if ts != [] {
      var rest := rules.Merge(ts[1..]);
      match ts[0]
      case Chars(text) =>
        AccountMerge(rules, ts[1..], inside);
        AccountPrepend(rules, text, rest, inside);
      case Open(tag) =>
        AccountMerge(rules, ts[1..], if tag in rules.void then inside else [Tag(tag)] + inside);
        assert ([ts[0]] + rest)[1..] == rest;
      case Link(url) =>
        AccountMerge(rules, ts[1..], [To(url)] + inside);
        assert ([ts[0]] + rest)[1..] == rest;
      case Close(_) =>
        AccountMerge(rules, ts[1..], if inside == [] then [] else inside[1..]);
        assert ([ts[0]] + rest)[1..] == rest;
    }
  }

  lemma AccountPrepend(rules: Rules, text: string, ts: seq<Token>, inside: seq<Frame>)
    ensures Account(rules, rules.Prepend(text, ts), inside) == Letters(text, inside) + Account(rules, ts, inside)
  {
    if text == "" {
      assert Letters(text, inside) == [];
    } else if ts != [] && ts[0].Chars? {
      assert ([Chars(text + ts[0].text)] + ts[1..])[1..] == ts[1..];
      assert Letters(text + ts[0].text, inside) == Letters(text, inside) + Letters(ts[0].text, inside);
      Associate(Letters(text, inside), Letters(ts[0].text, inside), Account(rules, ts[1..], inside));
    } else {
      assert ([Chars(text)] + ts)[1..] == ts;
    }
  }

  // ---------------------------------------------------------------- both tell the same

  lemma {:induction false} ShownConcat(rules: Rules, a: seq<Place>, b: seq<Place>)
    ensures ShownAll(rules, a + b) == ShownAll(rules, a) + ShownAll(rules, b)
  {
    if a == [] {
      assert a + b == b;
    } else {
      assert (a + b)[0] == a[0] && (a + b)[1..] == a[1..] + b;
      ShownConcat(rules, a[1..], b);
      Associate(ShownAt(rules, a[0]), ShownAll(rules, a[1..]), ShownAll(rules, b));
    }
  }

  lemma {:induction false} NothingShown(rules: Rules, ps: seq<Place>)
    requires forall p :: p in ps ==> Hidden(rules, p)
    ensures ShownAll(rules, ps) == []
  {
    if ps != [] {
      assert ps[0] in ps;
      NothingShown(rules, ps[1..]);
    }
  }

  /** Nothing of a dropped subtree is shown. */
  lemma DroppedIsHidden(rules: Rules, n: Node, above: seq<Node>)
    requires Dropped(rules, n)
    ensures ShownAll(rules, Places(n, above)) == []
  {
    forall p | p in Places(n, above) ensures Hidden(rules, p) {
      if p != Place(n, above) {
        AboveStaysAll(n.children, above + [n], p);
        assert (above + [n])[|above|] == n && n in p.above;
      }
    }
    NothingShown(rules, Places(n, above));
  }

  /** The tokens of a piece of the filtered tree leave the reader where they found him. */
  lemma {:induction false} InsideItems(rules: Rules, items: seq<Item>, inside: seq<Frame>)
    requires rules.Sound(items)
    ensures InsideAfter(rules, rules.TokensAll(items), inside) == inside
    decreases items, 0
  {
    if items != [] {
      AccountConcat(rules, rules.Tokens(items[0]), rules.TokensAll(items[1..]), inside);
      InsideItems(rules, items[1..], inside);
      match items[0]
      case Words(_) =>
      case Leaf(_) =>
      case Group(tag, kids) => ElementAccount(rules, Open(tag), kids, inside);
      case Anchor(url, kids) => ElementAccount(rules, Link(url), kids, inside);
    }
  }

  function FrameIn(open: Token): Frame
    requires open.Open? || open.Link?
  {
    if open.Open? then Tag(open.tag) else To(open.url)
  }

  lemma {:induction false} ElementAccount(rules: Rules, open: Token, kids: seq<Item>, inside: seq<Frame>)
    requires rules.Sound(kids) && (open.Link? || (open.Open? && open.tag !in rules.void))
    ensures
      var ts := [open] + rules.TokensAll(kids) + [ClosingTag(open)];
      && InsideAfter(rules, ts, inside) == inside
      && Account(rules, ts, inside) ==
         [Shown(Start(FrameIn(open)), inside)] + Account(rules, rules.TokensAll(kids), [FrameIn(open)] + inside)
    decreases kids, 1
  {
    var middle, close := rules.TokensAll(kids), [ClosingTag(open)];
    var within := [FrameIn(open)] + inside;
    InsideItems(rules, kids, within);
    AccountConcat(rules, [open] + middle, close, inside);
    AccountConcat(rules, [open], middle, inside);
    assert [open][1..] == [] && close[1..] == [];
    assert within[1..] == inside;
    assert InsideAfter(rules, [open], inside) == within;
    assert Account(rules, [open], inside) == [Shown(Start(FrameIn(open)), inside)];
    assert Account(rules, close, within) == [];
  }

  predicate InView(rules: Rules, above: seq<Node>) {
    forall m :: m in above ==> !Dropped(rules, m)
  }

  lemma {:induction false} TreeAccount(rules: Rules, n: Node, above: seq<Node>)
    requires rules.Valid() && InView(rules, above)
    ensures Account(rules, rules.TokensAll(rules.Filter(n)), Context(rules, above)) ==
            ShownAll(rules, Places(n, above))
    decreases n, 0
  {
    var inside, here := Context(rules, above), Place(n, above);
    if n.TextNode? {
      assert Account(rules, [Chars(n.data)], inside) == Letters(n.data, inside) + [];
      assert rules.TokensAll([Words(n.data)]) == [Chars(n.data)] + [];
      assert ShownAll(rules, [here]) == ShownAt(rules, here) + [];
    } else if Dropped(rules, n) {
      DroppedIsHidden(rules, n, above);
    } else {
      var below := PlacesAll(n.children, above + [n]);
      assert InView(rules, above + [n]);
      ForestAccount(rules, n.children, above + [n]);
      assert ([here] + below)[1..] == below;
      assert (above + [n])[..|above|] == above;
      rules.FilterAllSound(n.children);
      NodeAccount(rules, n, above);
    }
  }

  lemma NodeAccount(rules: Rules, n: Node, above: seq<Node>)
    requires rules.Valid() && !n.TextNode? && !Dropped(rules, n) && rules.Sound(rules.FilterAll(n.children))
    ensures Account(rules, rules.TokensAll(rules.Filter(n)), Context(rules, above)) ==
            (match FrameOf(rules, n)
             case None => []
             case Some(f) => [Shown(Start(f), Context(rules, above))]) +
            Account(rules, rules.TokensAll(rules.FilterAll(n.children)), Context(rules, above + [n]))
  {
    var inside, kids := Context(rules, above), rules.FilterAll(n.children);
    assert (above + [n])[..|above|] == above && (above + [n])[|above|] == n;
    match FrameOf(rules, n)
    case None =>
    case Some(f) =>
      if n.name in rules.void {
        assert rules.Filter(n) == [Leaf(n.name)] + kids;
        rules.TokensConcat([Leaf(n.name)], kids);
        rules.SingleItem(Leaf(n.name));
        AccountConcat(rules, [Open(n.name)], rules.TokensAll(kids), inside);
        assert Account(rules, [Open(n.name)], inside) == [Shown(Start(f), inside)] by {
          assert [Open(n.name)][1..] == [];
        }
      } else if n.name in rules.kept {
        rules.SingleItem(Group(n.name, kids));
        ElementAccount(rules, Open(n.name), kids, inside);
      } else {
        rules.SingleItem(Anchor(f.url, kids));
        ElementAccount(rules, Link(f.url), kids, inside);
      }
  }

  lemma {:induction false} ForestAccount(rules: Rules, ns: seq<Node>, above: seq<Node>)
    requires rules.Valid() && InView(rules, above)
    ensures Account(rules, rules.TokensAll(rules.FilterAll(ns)), Context(rules, above)) ==
            ShownAll(rules, PlacesAll(ns, above))
    decreases ns, 0
  {
    if ns != [] {
      var inside, first, rest := Context(rules, above), rules.Filter(ns[0]), rules.FilterAll(ns[1..]);
      TreeAccount(rules, ns[0], above);
      ForestAccount(rules, ns[1..], above);
      rules.FilterSound(ns[0]);
      rules.TokensConcat(first, rest);
      InsideItems(rules, first, inside);
      AccountConcat(rules, rules.TokensAll(first), rules.TokensAll(rest), inside);
      ShownConcat(rules, Places(ns[0], above), PlacesAll(ns[1..], above));
    }
  }

  // ---------------------------------------------------------------- the page

  lemma {:induction false} ClosersShowNothing(rules: Rules, st: seq<string>, inside: seq<Frame>)
    ensures Account(rules, rules.Writer().Closers(st), inside) == []
  {
    if st != [] {
      assert rules.Writer().Closers(st)[1..] == rules.Writer().Closers(st[1..]);
      ClosersShowNothing(rules, st[1..], if inside == [] then [] else inside[1..]);
    }
  }

  lemma {:induction false} AccountOfPrefix(rules: Rules, ts: seq<Token>, k: nat, inside: seq<Frame>)
    requires k <= |ts|
    ensures Account(rules, ts[..k], inside) <= Account(rules, ts, inside)
  {
    AccountConcat(rules, ts[..k], ts[k..], inside);
    assert ts[..k] + ts[k..] == ts;
  }

  lemma CutShows(rules: Rules, ts: seq<Token>)
    ensures Account(rules, rules.Writer().Cut(0, ts), []) <= Account(rules, ts, [])
    ensures rules.Writer().Bytes(ts) <= LIMIT ==>
              Account(rules, rules.Writer().Cut(0, ts), []) == Account(rules, ts, [])
  {
    var k := rules.Writer().Written(0, ts);
    var open := rules.Writer().OpenAfter(ts[..k]);
    AccountConcat(rules, ts[..k], rules.Writer().Closers(open), []);
    ClosersShowNothing(rules, open, InsideAfter(rules, ts[..k], []));
    AccountOfPrefix(rules, ts, k, []);
    if rules.Writer().Bytes(ts) <= LIMIT {
      rules.Writer().WholeUnderLimit(ts);
      assert ts[..k] == ts;
    }
  }

  /** What a reader of the markup meets; None when it cannot be read. */
  function ReadBack(rules: Rules, page: string): Option<seq<Shown>> {
    match rules.Lex(page) case None => None case Some(ts) => Some(Account(rules, ts, []))
  }

  /** What the parsed tree has to show: told without filtering, printing or cutting anything. */
  function Content(rules: Rules, root: Node): seq<Shown> {
    ShownAll(rules, Places(root, []))
  }

  /** Read back, every page shows what stands in the tree outside the dropped subtrees, each thing inside the tags of
      its kept ancestors, from the start of the document on; and all of it when the output stays under the limit. */
  lemma PageShows(rules: Rules, root: Node)
    requires rules.Valid()
    ensures ReadBack(rules, rules.Page(root)).Some?
    ensures ReadBack(rules, rules.Page(root)).value <= Content(rules, root)
    ensures rules.Writer().Bytes(rules.Stream(root)) <= LIMIT ==>
              ReadBack(rules, rules.Page(root)).value == Content(rules, root)
  {
    rules.EveryPageParses(root);
    AccountMerge(rules, rules.Writer().Cut(0, rules.Stream(root)), []);
    CutShows(rules, rules.Stream(root));
    TreeAccount(rules, root, []);
  }

  function Character(shown: Shown): string {
    if shown.mark.Letter? then [shown.mark.c] else ""
  }

  /** The characters met, in order. */
  function Characters(shown: seq<Shown>): string {
    if shown == [] then "" else Character(shown[0]) + Characters(shown[1..])
  }

  /** The data of the text nodes outside dropped subtrees, in document order. */
  function KeptText(rules: Rules, n: Node): string
    decreases n, 0
  {
    match n
    case TextNode(data) => data
    case Other(children) => KeptTextAll(rules, children)
    case Element(name, _, children) => if name in rules.dropped then "" else KeptTextAll(rules, children)
  }

  function KeptTextAll(rules: Rules, ns: seq<Node>): string
    decreases ns, 0
  {
    if ns == [] then "" else KeptText(rules, ns[0]) + KeptTextAll(rules, ns[1..])
  }

  lemma CharactersFirst(first: Shown, rest: seq<Shown>)
    ensures Characters([first] + rest) == Character(first) + Characters(rest)
  {
    assert ([first] + rest)[1..] == rest;
  }

  lemma {:induction false} CharactersConcat(a: seq<Shown>, b: seq<Shown>)
    ensures Characters(a + b) == Characters(a) + Characters(b)
  {
    if a == [] {
      assert a + b == b;
    } else {
      assert a + b == [a[0]] + (a[1..] + b);
      CharactersFirst(a[0], a[1..] + b);
      CharactersConcat(a[1..], b);
      Associate(Character(a[0]), Characters(a[1..]), Characters(b));
    }
  }

  lemma {:induction false} CharactersOfLetters(data: string, inside: seq<Frame>)
    ensures Characters(Letters(data, inside)) == data
  {
    if data != "" {
      assert Letters(data, inside)[1..] == Letters(data[1..], inside);
      CharactersOfLetters(data[1..], inside);
      assert data == [data[0]] + data[1..];
    }
  }

  lemma {:induction false} TreeText(rules: Rules, n: Node, above: seq<Node>)
    requires InView(rules, above)
    ensures Characters(ShownAll(rules, Places(n, above))) == KeptText(rules, n)
    decreases n, 0
  {
    var here := Place(n, above);
    if Dropped(rules, n) {
      DroppedIsHidden(rules, n, above);
    } else if n.TextNode? {
      CharactersOfLetters(n.data, Context(rules, above));
      assert Places(n, above) == [here] && [here][1..] == [];
      assert ShownAll(rules, [here]) == ShownAt(rules, here) + [] == ShownAt(rules, here);
    } else {
      var below := PlacesAll(n.children, above + [n]);
      assert InView(rules, above + [n]);
      ForestText(rules, n.children, above + [n]);
      assert ([here] + below)[1..] == below;
      CharactersConcat(ShownAt(rules, here), ShownAll(rules, below));
      assert Characters(ShownAt(rules, here)) == "" by { CharactersOfLetters("", []); }
    }
  }

  lemma {:induction false} ForestText(rules: Rules, ns: seq<Node>, above: seq<Node>)
    requires InView(rules, above)
    ensures Characters(ShownAll(rules, PlacesAll(ns, above))) == KeptTextAll(rules, ns)
    decreases ns, 0
  {
    if ns != [] {
      TreeText(rules, ns[0], above);
      ForestText(rules, ns[1..], above);
      ShownConcat(rules, Places(ns[0], above), PlacesAll(ns[1..], above));
      CharactersConcat(ShownAll(rules, Places(ns[0], above)), ShownAll(rules, PlacesAll(ns[1..], above)));
    }
  }

  /** The text of an uncut page is the data of all text nodes outside dropped subtrees. */
  lemma PageText(rules: Rules, root: Node)
    requires rules.Valid() && rules.Writer().Bytes(rules.Stream(root)) <= LIMIT
    ensures ReadBack(rules, rules.Page(root)).Some?
    ensures Characters(ReadBack(rules, rules.Page(root)).value) == KeptText(rules, root)
  {
    PageShows(rules, root);
    TreeText(rules, root, []);
  }

  /** `mobileReader`: the page is the token stream of the filtered tree, cut at the limit, printed; read back it shows
      what the tree has to show. */
  method MobilePage(root: Node, resolve: string -> Option<string>) returns (page: string)
    ensures
      var rules := MobileRules(resolve);
      && page == rules.Page(root) && ReadBack(rules, page).Some? && ReadBack(rules, page).value <= Content(rules, root)
      && (rules.Writer().Bytes(rules.Stream(root)) <= LIMIT ==> ReadBack(rules, page).value == Content(rules, root))
  {
    var rules := MobileRules(resolve);
    MobileRulesAreValid(resolve);
    PageShows(rules, root);
    rules.AfterStart(root);
    var w := new PageWriter(rules);
    w.Walk(root);
    page := w.out;
  }
}
