/** The mobile page printer of browse.go (`mobileReader`): a tree walk that keeps a restricted markup
    language and stops starting nodes once its output has passed a size limit. The walk is proved to write a well
    nested prefix of the filtered page, and what it writes to read back as that page. */
module MobileReader {
  import opened Text
  import opened HtmlTree
  import opened Cutting

  /** A kept piece of the page. */
  datatype Item =
    | Words(text: string)
    | Leaf(tag: string)
    | Group(tag: string, kids: seq<Item>)
    | Anchor(url: string, kids: seq<Item>)

  datatype Parsed = Parsed(items: seq<Item>, rest: seq<Token>)

  /** The restricted markup language: the elements whose subtrees are dropped, the elements kept, those kept ones that
      have no closing tag, how the tag of an accepted anchor starts, and the rule that resolves a reference against
      the page and accepts it when it is public. */
  datatype Rules = Rules(
    dropped: set<string>,
    kept: set<string>,
    void: set<string>,
    anchor: string,
    resolve: string -> Option<string>)
  {

    /** A tag that can be told from a closing tag, from an anchor and from its own brackets. */
    predicate Plain(tag: string) {
      tag != "" && '>' !in tag && tag[0] != '/' && |tag| < |anchor|
    }

    predicate Valid() {
      && (forall tag :: tag in kept ==> Plain(tag))
      && Plain("a") && "a" !in kept && "a" !in dropped && void <= kept && kept !! dropped
      && anchor != "" && anchor[0] != '/' && '>' !in anchor
    }

    // ---------------------------------------------------------------- what the page means

    /** The value of the first `href` attribute. */
    function FirstHref(attrs: seq<Attr>): Option<string> {
      if attrs == [] then None
      else if attrs[0].key == "href" then Some(attrs[0].val)
      else FirstHref(attrs[1..])
    }

    /** The public address an anchor leads to, if any. `resolve` stands for parsing the reference, resolving it
        against the page and the public-address check. */
    function Target(attrs: seq<Attr>): Option<string> {
      match FirstHref(attrs)
      case None => None
      case Some(href) => resolve(href)
    }

    /** The filtered tree: some subtrees dropped, some elements kept, all others unwrapped. */
    function Filter(n: Node): seq<Item>
      decreases n, 0
    {
      match n
      case TextNode(data) => [Words(data)]
      case Other(children) => FilterAll(children)
      case Element(name, attrs, children) =>
        if name in dropped then []
        else
          var kids := FilterAll(children);
          if name in void then [Leaf(name)] + kids
          else if name in kept then [Group(name, kids)]
          else if name == "a" && Target(attrs).Some? then [Anchor(Target(attrs).value, kids)]
          else kids
    }

    function FilterAll(ns: seq<Node>): seq<Item>
      decreases ns, 0
    {
      if ns == [] then [] else Filter(ns[0]) + FilterAll(ns[1..])
    }

    // ---------------------------------------------------------------- the markup language

    function Tokens(item: Item): seq<Token>
      decreases item, 0
    {
      match item
      case Words(text) => [Chars(text)]
      case Leaf(tag) => [Open(tag)]
      case Group(tag, kids) => [Open(tag)] + TokensAll(kids) + [Close(tag)]
      case Anchor(url, kids) => [Link(url)] + TokensAll(kids) + [Close("a")]
    }

    function TokensAll(items: seq<Item>): seq<Token>
      decreases items, 0
    {
      if items == [] then [] else Tokens(items[0]) + TokensAll(items[1..])
    }

    function Print(t: Token): string {
      match t
      case Open(tag) => "<" + tag + ">"
      case Link(url) => "<" + anchor + Escape(url) + "\">"
      case Close(tag) => "</" + tag + ">"
      case Chars(text) => Escape(text)
    }

    /** How this language is written. */
    function Writer(): Printer {
      Printer((t: Token) => Print(t), void)
    }

    /** Adjacent text joined, empty text removed. */
    function Prepend(text: string, ts: seq<Token>): seq<Token> {
      if text == "" then ts
      else if ts != [] && ts[0].Chars? then [Chars(text + ts[0].text)] + ts[1..]
      else [Chars(text)] + ts
    }

    function Merge(ts: seq<Token>): seq<Token> {
      if ts == [] then []
      else if ts[0].Chars? then Prepend(ts[0].text, Merge(ts[1..]))
      else [ts[0]] + Merge(ts[1..])
    }

    // ---------------------------------------------------------------- an independent reader: lexer and parser

    function ReadTag(body: string): Token {
      if body != "" && body[0] == '/' then Close(body[1..])
      else if anchor <= body && |body| > |anchor| && body[|body| - 1] == '\"' then
        Link(Unescape(body[|anchor|..|body| - 1]))
      else Open(body)
    }

    /** Splits markup into tags and unescaped text; an unterminated tag is an error. */
    function Lex(s: string): Option<seq<Token>>
      decreases |s|
    {
      if s == "" then Some([])
      else if s[0] == '<' then
        var end := IndexOf(s, '>');
        if end == |s| then None
        else
          match Lex(s[end + 1..])
          case None => None
          case Some(rest) => Some([ReadTag(s[1..end])] + rest)
      else
        var end := IndexOf(s, '<');
        match Lex(s[end..])
        case None => None
        case Some(rest) => Some([Chars(Unescape(s[..end]))] + rest)
    }

    function Wrap(open: Token, kids: seq<Item>): Item
      requires open.Open? || open.Link?
    {
      if open.Open? then Group(open.tag, kids) else Anchor(open.url, kids)
    }

    function Before(item: Item, p: Option<Parsed>): Option<Parsed> {
      if p.None? then None else Some(Parsed([item] + p.value.items, p.value.rest))
    }

    /** Recursive descent over tokens: the items up to the first closing tag of an enclosing element. An element
        whose own closing tag is missing or different is an error. */
    function Parse(ts: seq<Token>): (p: Option<Parsed>)
      ensures p.Some? ==> |p.value.rest| <= |ts|
      decreases |ts|
    {
      if ts == [] || ts[0].Close? then Some(Parsed([], ts))
      else if ts[0].Chars? then Before(Words(ts[0].text), Parse(ts[1..]))
      else if ts[0].Open? && ts[0].tag in void then Before(Leaf(ts[0].tag), Parse(ts[1..]))
      else
        var inner := Parse(ts[1..]);
        if inner.None? || inner.value.rest == [] || inner.value.rest[0] != ClosingTag(ts[0]) then None
        else Before(Wrap(ts[0], inner.value.items), Parse(inner.value.rest[1..]))
    }

    /** The filtered tree with adjacent text joined and empty text removed, at every level. */
    function Normal(items: seq<Item>): seq<Item>
      decreases items
    {
      if items == [] then []
      else
        var rest := Normal(items[1..]);
        match items[0]
        case Words(text) =>
          if text == "" then rest
          else if rest != [] && rest[0].Words? then [Words(text + rest[0].text)] + rest[1..]
          else [Words(text)] + rest
        case Leaf(tag) => [Leaf(tag)] + rest
        case Group(tag, kids) => [Group(tag, Normal(kids))] + rest
        case Anchor(url, kids) => [Anchor(url, Normal(kids))] + rest
    }

    // ---------------------------------------------------------------- lexing inverts printing

    predicate Printable(t: Token) {
      match t
      case Open(tag) => tag in kept
      case Close(tag) => tag in kept || tag == "a"
      case Link(_) => true
      case Chars(_) => true
    }

    predicate AllPrintable(ts: seq<Token>) {
      forall t :: t in ts ==> Printable(t)
    }

    /** What stands between the angle brackets of a printed tag. */
    function TagBody(t: Token): string
      requires !t.Chars?
    {
      match t
      case Open(tag) => tag
      case Close(tag) => "/" + tag
      case Link(url) => anchor + Escape(url) + "\""
    }

    lemma PrintedTag(t: Token)
      requires !t.Chars?
      ensures Print(t) == "<" + TagBody(t) + ">"
    {
      match t
      case Open(_) =>
      case Close(tag) => assert "</" == "<" + "/"; Associate("<", "/", tag);
      case Link(url) =>
        Associate(anchor, Escape(url), "\"");
        Associate("<", anchor, Escape(url));
        assert "\">" == "\"" + ">";
    }

    lemma LinkBody(url: string)
      requires Valid()
      ensures ReadTag(TagBody(Link(url))) == Link(url)
    {
      var e := Escape(url);
      var body := anchor + e + "\"";
      assert body[|anchor|..|body| - 1] == e;
      assert body[0] == anchor[0];
      UnescapeEscape(url, "");
      assert e + "" == e && url + "" == url;
    }

    lemma ReadTagBody(t: Token)
      requires Valid() && Printable(t) && !t.Chars?
      ensures ReadTag(TagBody(t)) == t && '>' !in TagBody(t)
    {
      match t
      case Open(_) =>
      case Close(tag) => assert ("/" + tag)[1..] == tag;
      case Link(url) => LinkBody(url);
    }

    lemma LexTag(t: Token, rest: string)
      requires Valid() && Printable(t) && !t.Chars?
      ensures Lex(Print(t) + rest) == match Lex(rest) case None => None case Some(ts) => Some([t] + ts)
    {
      var body := TagBody(t);
      PrintedTag(t);
      ReadTagBody(t);
      var s := Print(t) + rest;
      assert s == ("<" + body) + (">" + rest);
      IndexOfAfter("<" + body, ">" + rest, '>');
      assert s[1..|body| + 1] == body;
      assert s[|body| + 2..] == rest;
    }

    lemma EscapeStarts(s: string)
      requires s != ""
      ensures Escape(s) != "" && Escape(s)[0] != '<'
    {
      assert Escape(s)[0] == EscapeChar(s[0])[0];
    }

    lemma LexRun(run: string, rest: string)
      requires run != "" && '<' !in run && (rest == "" || rest[0] == '<')
      ensures Lex(run + rest) ==
              match Lex(rest) case None => None case Some(ts) => Some([Chars(Unescape(run))] + ts)
    {
      IndexOfAfter(run, rest, '<');
      assert (run + rest)[..|run|] == run && (run + rest)[|run|..] == rest;
      assert run[0] != '<';
    }

    lemma LexTagFirst(rest: string, ts: seq<Token>)
      requires Lex(rest) == Some(ts) && (rest == "" || rest[0] == '<')
      ensures ts == [] || !ts[0].Chars?
    {
    }

    lemma LexTextBeforeTag(text: string, rest: string, ts: seq<Token>)
      requires text != "" && Lex(rest) == Some(ts) && (rest == "" || rest[0] == '<')
      ensures Lex(Escape(text) + rest) == Some(Prepend(text, ts))
    {
      EscapeStarts(text);
      LexRun(Escape(text), rest);
      UnescapeEscape(text, "");
      assert Escape(text) + "" == Escape(text) && text + "" == text;
      LexTagFirst(rest, ts);
    }

    lemma LexTextBeforeRun(text: string, run: string, tail: string, ts: seq<Token>)
      requires text != "" && run != "" && '<' !in run && (tail == "" || tail[0] == '<')
      requires Lex(run + tail) == Some(ts)
      ensures Lex(Escape(text) + (run + tail)) == Some(Prepend(text, ts))
    {
      EscapeStarts(text);
      LexRun(run, tail);
      LexRun(Escape(text) + run, tail);
      Associate(Escape(text), run, tail);
      UnescapeEscape(text, run);
      var after := Lex(tail).value;
      assert ts == [Chars(Unescape(run))] + after && ts[1..] == after;
    }

    /** Escaped text in front of markup is joined to any text the markup starts with. */
    lemma LexText(text: string, rest: string, ts: seq<Token>)
      requires Lex(rest) == Some(ts)
      ensures Lex(Escape(text) + rest) == Some(Prepend(text, ts))
    {
      if text == "" {
        assert Escape(text) + rest == rest;
      } else if rest == "" || rest[0] == '<' {
        LexTextBeforeTag(text, rest, ts);
      } else {
        var end := IndexOf(rest, '<');
        assert rest == rest[..end] + rest[end..];
        LexTextBeforeRun(text, rest[..end], rest[end..], ts);
      }
    }

    /** Lexing and unescaping printed tokens gives them back, adjacent text merged. */
    lemma {:induction false} LexPrint(ts: seq<Token>)
      requires Valid() && AllPrintable(ts)
      ensures Lex(Writer().PrintAll(ts)) == Some(Merge(ts))
    {
      if ts != [] {
        LexPrint(ts[1..]);
        if ts[0].Chars? {
          LexText(ts[0].text, Writer().PrintAll(ts[1..]), Merge(ts[1..]));
        } else {
          LexTag(ts[0], Writer().PrintAll(ts[1..]));
        }
      }
    }

    // ---------------------------------------------------------------- parsing inverts flattening

    lemma {:induction false} MergeTag(t: Token, ts: seq<Token>)
      requires !t.Chars?
      ensures Merge([t] + ts) == [t] + Merge(ts)
    {
      assert ([t] + ts)[1..] == ts;
    }

    /** Every item of a filtered tree carries a tag the printer knows. */
    predicate Sound(items: seq<Item>)
      decreases items
    {
      items == [] ||
      (Sound(items[1..]) &&
       match items[0]
       case Words(_) => true
       case Leaf(tag) => tag in void && tag in kept
       case Group(tag, kids) => tag in kept && tag !in void && Sound(kids)
       case Anchor(_, kids) => Sound(kids))
    }

    lemma ParseText(text: string, after: seq<Token>)
      ensures Parse(Merge([Chars(text)] + after)) ==
              if text == "" then Parse(Merge(after))
              else match Parse(Merge(after))
                case None => None
                case Some(p) =>
                  Some(Parsed(
                         if p.items != [] && p.items[0].Words? then [Words(text + p.items[0].text)] + p.items[1..]
                         else [Words(text)] + p.items, p.rest))
    {
      assert ([Chars(text)] + after)[1..] == after;
      var m := Merge(after);
      if m != [] && m[0].Chars? {
        assert ([Chars(text + m[0].text)] + m[1..])[1..] == m[1..];
      } else {
        assert ([Chars(text)] + m)[1..] == m;
      }
    }

    /** The tokens of a filtered tree, merged, parse to its normal form and leave what follows. */
    lemma {:induction false} ParseTokens(items: seq<Item>, rest: seq<Token>)
      requires Sound(items) && (rest == [] || rest[0].Close?)
      ensures Parse(Merge(TokensAll(items) + rest)) == Some(Parsed(Normal(items), Merge(rest)))
      decreases items, 0
    {
      if items == [] {
        assert TokensAll(items) + rest == rest;
      } else {
        var after := TokensAll(items[1..]) + rest;
        Associate(Tokens(items[0]), TokensAll(items[1..]), rest);
        ParseTokens(items[1..], rest);
        match items[0]
        case Words(text) => ParseText(text, after);
        case Leaf(tag) => MergeTag(Open(tag), after);
        case Group(tag, kids) => ParseElement(Open(tag), kids, after);
        case Anchor(url, kids) => ParseElement(Link(url), kids, after);
      }
    }

    lemma {:induction false} ParseElement(open: Token, kids: seq<Item>, after: seq<Token>)
      requires Sound(kids) && (open.Link? || (open.Open? && open.tag !in void))
      ensures
        Parse(Merge(([open] + TokensAll(kids) + [ClosingTag(open)]) + after))
        == Before(Wrap(open, Normal(kids)), Parse(Merge(after)))
      decreases kids, 1
    {
      var close := ClosingTag(open);
      var inside := TokensAll(kids) + ([close] + after);
      assert ([open] + TokensAll(kids) + [close]) + after == [open] + inside;
      MergeTag(open, inside);
      ParseTokens(kids, [close] + after);
      MergeTag(close, after);
      assert ([open] + Merge(inside))[1..] == Merge(inside);
      assert ([close] + Merge(after))[1..] == Merge(after);
    }

    /** The tokens of a filtered tree open and close their own tags only. */
    lemma {:induction false} ScanItems(items: seq<Item>, st: seq<string>)
      requires Sound(items)
      ensures Writer().Scan(TokensAll(items), st) == Some(st)
      decreases items, 0
    {
      if items != [] {
        Writer().ScanConcat(Tokens(items[0]), TokensAll(items[1..]), st);
        ScanItems(items[1..], st);
        match items[0]
        case Words(_) =>
        case Leaf(_) =>
        case Group(tag, kids) => ScanElement(Open(tag), kids, st);
        case Anchor(url, kids) => ScanElement(Link(url), kids, st);
      }
    }

    lemma {:induction false} ScanElement(open: Token, kids: seq<Item>, st: seq<string>)
      requires Sound(kids) && (open.Link? || (open.Open? && open.tag !in void))
      ensures Writer().Scan([open] + TokensAll(kids) + [ClosingTag(open)], st) == Some(st)
      decreases kids, 1
    {
      var close := ClosingTag(open);
      Writer().ScanConcat([open] + TokensAll(kids), [close], st);
      Writer().ScanConcat([open], TokensAll(kids), st);
      ScanItems(kids, [close.tag] + st);
      assert ([close.tag] + st)[1..] == st;
    }

    // ---------------------------------------------------------------- the filtered tree

    lemma {:induction false} SoundConcat(a: seq<Item>, b: seq<Item>)
      requires Sound(a) && Sound(b)
      ensures Sound(a + b)
    {
      if a == [] {
        assert a + b == b;
      } else {
        SoundConcat(a[1..], b);
        assert (a + b)[1..] == a[1..] + b;
      }
    }

    lemma {:induction false} FilterSound(n: Node)
      requires Valid()
      ensures Sound(Filter(n))
      decreases n, 0
    {
      match n
      case TextNode(_) =>
      case Other(children) => FilterAllSound(children);
      case Element(name, attrs, children) =>
        FilterAllSound(children);
        if name in void {
          SoundConcat([Leaf(name)], FilterAll(children));
        }
    }

    lemma {:induction false} FilterAllSound(ns: seq<Node>)
      requires Valid()
      ensures Sound(FilterAll(ns))
      decreases ns, 0
    {
      if ns != [] {
        FilterSound(ns[0]);
        FilterAllSound(ns[1..]);
        SoundConcat(Filter(ns[0]), FilterAll(ns[1..]));
      }
    }

    /** The token stream of the filtered tree. */
    function Stream(n: Node): seq<Token> {
      TokensAll(Filter(n))
    }

    function StreamAll(ns: seq<Node>): seq<Token> {
      TokensAll(FilterAll(ns))
    }

    lemma {:induction false} TokensConcat(a: seq<Item>, b: seq<Item>)
      ensures TokensAll(a + b) == TokensAll(a) + TokensAll(b)
    {
      if a == [] {
        assert a + b == b;
      } else {
        assert (a + b)[1..] == a[1..] + b;
        TokensConcat(a[1..], b);
        Associate(Tokens(a[0]), TokensAll(a[1..]), TokensAll(b));
      }
    }

    lemma {:induction false} StreamSnoc(ns: seq<Node>, n: Node)
      ensures StreamAll(ns + [n]) == StreamAll(ns) + Stream(n)
    {
      if ns == [] {
        assert ns + [n] == [n] && FilterAll([n]) == Filter(n) + [] == Filter(n);
      } else {
        assert (ns + [n])[1..] == ns[1..] + [n];
        StreamSnoc(ns[1..], n);
        TokensConcat(Filter(ns[0]), FilterAll(ns[1..] + [n]));
        TokensConcat(Filter(ns[0]), FilterAll(ns[1..]));
        Associate(Stream(ns[0]), StreamAll(ns[1..]), Stream(n));
      }
    }

    lemma StreamNested(n: Node)
      requires Valid()
      ensures Writer().WellNested(Stream(n))
    {
      FilterSound(n);
      ScanItems(Filter(n), []);
    }

    lemma StreamAllNested(ns: seq<Node>)
      requires Valid()
      ensures Writer().WellNested(StreamAll(ns))
    {
      FilterAllSound(ns);
      ScanItems(FilterAll(ns), []);
    }

    lemma AfterChild(base: string, ns: seq<Node>, i: nat)
      requires Valid()
      requires i < |ns|
      ensures Writer().After(Writer().After(base, StreamAll(ns[..i])), Stream(ns[i]))
              == Writer().After(base, StreamAll(ns[..i + 1]))
    {
      calc {
        Writer().After(Writer().After(base, StreamAll(ns[..i])), Stream(ns[i]));
        { StreamAllNested(ns[..i]); Writer().AfterConcat(base, StreamAll(ns[..i]), Stream(ns[i])); }
        Writer().After(base, StreamAll(ns[..i]) + Stream(ns[i]));
        { StreamSnoc(ns[..i], ns[i]); assert ns[..i] + [ns[i]] == ns[..i + 1]; }
        Writer().After(base, StreamAll(ns[..i + 1]));
      }
    }

    lemma AfterVoid(base: string, n: Node)
      requires Valid()
      requires Size(base) <= LIMIT && n.Element? && n.name !in dropped && n.name in void
      ensures Writer().After(base, Stream(n)) == Writer().After(base + Print(Open(n.name)), StreamAll(n.children))
    {
      var open, kids := Open(n.name), StreamAll(n.children);
      assert Stream(n) == [open] + kids by {
        TokensConcat([Leaf(n.name)], FilterAll(n.children));
        SingleItem(Leaf(n.name));
      }
      assert Writer().WellNested([open]) by { assert Writer().Scan([open][1..], []) == Some([]); }
      Writer().AfterConcat(base, [open], kids);
      Writer().AfterOne(base, open);
    }

    lemma AfterGroup(base: string, n: Node)
      requires Valid()
      requires Size(base) <= LIMIT && n.Element? && n.name !in dropped && n.name in kept && n.name !in void
      ensures Writer().After(base, Stream(n))
              == Writer().After(base + Print(Open(n.name)), StreamAll(n.children)) + Print(Close(n.name))
    {
      StreamAllNested(n.children);
      SingleItem(Group(n.name, FilterAll(n.children)));
      var _, _ := Writer().AfterElement(base, Open(n.name), StreamAll(n.children));
    }

    lemma AfterAnchor(base: string, n: Node)
      requires Valid()
      requires Size(base) <= LIMIT && n.Element? && n.name == "a" && Target(n.attrs).Some?
      ensures Writer().After(base, Stream(n))
              == Writer().After(base + Print(Link(Target(n.attrs).value)), StreamAll(n.children)) + Print(Close("a"))
    {
      StreamAllNested(n.children);
      SingleItem(Anchor(Target(n.attrs).value, FilterAll(n.children)));
      var _, _ := Writer().AfterElement(base, Link(Target(n.attrs).value), StreamAll(n.children));
    }

    lemma SingleItem(item: Item)
      ensures TokensAll([item]) == Tokens(item)
    {
      assert Tokens(item) + [] == Tokens(item);
    }

    // ---------------------------------------------------------------- what the page is worth to a reader

    lemma ScanMerge(ts: seq<Token>, st: seq<string>)
      ensures Writer().Scan(Merge(ts), st) == Writer().Scan(ts, st)
    {
      if ts != [] {
        var rest := Merge(ts[1..]);
        match ts[0]
        case Chars(text) =>
          ScanMerge(ts[1..], st);
          if rest != [] && rest[0].Chars? {
            assert ([Chars(text + rest[0].text)] + rest[1..])[1..] == rest[1..];
          }
          assert ([Chars(text)] + rest)[1..] == rest;
        case Open(tag) =>
          ScanMerge(ts[1..], if tag in void then st else [tag] + st);
          assert ([ts[0]] + rest)[1..] == rest;
        case Link(_) => ScanMerge(ts[1..], ["a"] + st); assert ([ts[0]] + rest)[1..] == rest;
        case Close(tag) =>
          assert ([ts[0]] + rest)[1..] == rest;
          if st != [] && st[0] == tag { ScanMerge(ts[1..], st[1..]); }
      }
    }

    /** Where every open tag gets its closing tag, the parser accepts and stops at the enclosing closing tag. */
    lemma {:induction false} ParseAccepts(ts: seq<Token>, st: seq<string>)
      requires Writer().Scan(ts, st) == Some([])
      ensures Parse(ts).Some?
      ensures
        var rest := Parse(ts).value.rest;
        if st == [] then rest == [] else rest != [] && rest[0] == Close(st[0]) && Writer().Scan(rest, st) == Some([])
      decreases |ts|
    {
      if ts != [] && !ts[0].Close? {
        if ts[0].Chars? || (ts[0].Open? && ts[0].tag in void) {
          ParseAccepts(ts[1..], st);
        } else {
          var tag := ClosingTag(ts[0]).tag;
          ParseAccepts(ts[1..], [tag] + st);
          var rest := Parse(ts[1..]).value.rest;
          assert ([tag] + st)[1..] == st;
          ParseAccepts(rest[1..], st);
        }
      }
    }

    lemma {:induction false} ItemsPrintable(items: seq<Item>)
      requires Sound(items)
      ensures AllPrintable(TokensAll(items))
      decreases items
    {
      if items != [] {
        ItemsPrintable(items[1..]);
        match items[0]
        case Words(_) =>
        case Leaf(_) =>
        case Group(_, kids) => ItemsPrintable(kids);
        case Anchor(_, kids) => ItemsPrintable(kids);
      }
    }

    /** The stack only ever holds tags the printer can close. */
    lemma {:induction false} OpenTagsPrintable(ts: seq<Token>, st: seq<string>)
      requires AllPrintable(ts) && Writer().Scan(ts, st).Some? && AllPrintable(Writer().Closers(st))
      ensures AllPrintable(Writer().Closers(Writer().Scan(ts, st).value))
    {
      if ts != [] {
        match ts[0]
        case Chars(_) => OpenTagsPrintable(ts[1..], st);
        case Open(tag) =>
          assert ts[0] in ts && Printable(Close(tag));
          assert ([tag] + st)[1..] == st;
          assert Writer().Closers([tag] + st) == [Close(tag)] + Writer().Closers(st);
          if tag in void { OpenTagsPrintable(ts[1..], st); } else { OpenTagsPrintable(ts[1..], [tag] + st); }
        case Link(_) =>
          assert (["a"] + st)[1..] == st;
          assert Writer().Closers(["a"] + st) == [Close("a")] + Writer().Closers(st);
          OpenTagsPrintable(ts[1..], ["a"] + st);
        case Close(_) =>
          assert Writer().Closers(st)[1..] == Writer().Closers(st[1..]);
          assert AllPrintable(Writer().Closers(st[1..])) by {
            forall t | t in Writer().Closers(st[1..]) ensures Printable(t) { assert t in Writer().Closers(st); }
          }
          OpenTagsPrintable(ts[1..], st[1..]);
      }
    }

    /** Every cut stream is printable and closes what it opens. */
    lemma CutIsSound(n: Node, len: nat)
      requires Valid()
      ensures AllPrintable(Writer().Cut(len, Stream(n))) && Writer().WellNested(Writer().Cut(len, Stream(n)))
    {
      var ts := Stream(n);
      FilterSound(n);
      ItemsPrintable(Filter(n));
      StreamNested(n);
      var prefix := ts[..Writer().Written(len, ts)];
      Writer().NestedPrefix(ts, Writer().Written(len, ts), []);
      OpenTagsPrintable(prefix, []);
      Writer().ScanConcat(prefix, Writer().Closers(Writer().OpenAfter(prefix)), []);
      Writer().ScanClosers(Writer().OpenAfter(prefix));
    }

    /** The page shown for `root`. */
    function Page(root: Node): string {
      Writer().PrintAll(Writer().Cut(0, Stream(root)))
    }

    lemma AfterStart(root: Node)
      ensures Writer().After("", Stream(root)) == Page(root)
    {
      assert "" + Page(root) == Page(root);
    }

    /** Every page, cut or not, lexes to the written tokens and parses as well nested markup with nothing left over. */
    lemma EveryPageParses(root: Node)
      requires Valid()
      ensures
        var cut := Writer().Cut(0, Stream(root));
        Lex(Page(root)) == Some(Merge(cut)) && Parse(Merge(cut)).Some? && Parse(Merge(cut)).value.rest == []
    {
      var cut := Writer().Cut(0, Stream(root));
      CutIsSound(root, 0);
      LexPrint(cut);
      ScanMerge(cut, []);
      ParseAccepts(Merge(cut), []);
    }

    /** `k` is the position just after the first token that takes the output past the limit, or the end. */
    ghost predicate FirstPast(ts: seq<Token>, k: nat)
      requires k <= |ts|
    {
      (forall j :: 0 <= j < k ==> Writer().Bytes(ts[..j]) <= LIMIT) && (k == |ts| || Writer().Bytes(ts[..k]) > LIMIT)
    }

    /** A page is the uncut page up to and including the first token that takes it past the limit, followed by the
        closing tags of the elements then open, innermost first. */
    lemma PageIsPrefixPlusClosers(root: Node) returns (k: nat)
      requires Valid()
      ensures
        var ts := Stream(root);
        k <= |ts| && FirstPast(ts, k) && Writer().Scan(ts[..k], []).Some?
        && Page(root) ==
           Writer().PrintAll(ts[..k]) + Writer().PrintAll(Writer().Closers(Writer().Scan(ts[..k], []).value))
        && Writer().PrintAll(ts) == Writer().PrintAll(ts[..k]) + Writer().PrintAll(ts[k..])
    {
      var ts := Stream(root);
      k := Writer().Written(0, ts);
      StreamNested(root);
      Writer().NestedPrefix(ts, k, []);
      Writer().WrittenIsFirstPast(0, ts);
      Writer().PrintConcat(ts[..k], Writer().Closers(Writer().OpenAfter(ts[..k])));
      Writer().PrintConcat(ts[..k], ts[k..]);
      assert ts[..k] + ts[k..] == ts;
    }

    /** Under the limit the page reads back as the filtered tree itself, adjacent text joined. */
    lemma PageRoundTrip(root: Node)
      requires Valid()
      requires Writer().Bytes(Stream(root)) <= LIMIT
      ensures
        Page(root) == Writer().PrintAll(Stream(root))
        && Lex(Page(root)) == Some(Merge(Stream(root)))
        && Parse(Merge(Stream(root))) == Some(Parsed(Normal(Filter(root)), []))
    {
      var ts := Stream(root);
      assert Writer().Cut(0, ts) == ts by {
        Writer().WholeUnderLimit(ts);
        StreamNested(root);
        Writer().CutWhole(0, ts);
      }
      EveryPageParses(root);
      assert Parse(Merge(ts + [])) == Some(Parsed(Normal(Filter(root)), Merge([]))) by {
        FilterSound(root);
        ParseTokens(Filter(root), []);
      }
      assert ts + [] == ts;
    }

  }

  /** The builder the walk appends to. */
  class PageWriter {
    var out: string
    const rules: Rules

    constructor (rules: Rules)
      ensures out == "" && this.rules == rules
    {
      out := "";
      this.rules := rules;
    }

    /** Stops at the first `href`, whether or not it is accepted. */
    method AnchorTarget(attrs: seq<Attr>) returns (target: Option<string>)
      ensures target == rules.Target(attrs)
    {
      target := None;
      var i := 0;
      while i < |attrs|
        invariant i <= |attrs| && target == None
        invariant rules.FirstHref(attrs) == rules.FirstHref(attrs[i..])
      {
        if attrs[i].key == "href" {
          target := rules.resolve(attrs[i].val);
          break;
        }
        i := i + 1;
      }
    }

    method Children(ns: seq<Node>)
      requires rules.Valid()
      modifies this
      ensures out == rules.Writer().After(old(out), rules.StreamAll(ns))
      decreases ns, 1
    {
      rules.Writer().AfterNothing(out, []);
      for i := 0 to |ns|
        invariant out == rules.Writer().After(old(out), rules.StreamAll(ns[..i]))
      {
        rules.AfterChild(old(out), ns, i);
        Walk(ns[i]);
      }
      assert ns[..|ns|] == ns;
    }

    method Walk(n: Node)
      requires rules.Valid()
      modifies this
      ensures out == rules.Writer().After(old(out), rules.Stream(n))
      decreases n, 0
    {
      if Size(out) > LIMIT {
        rules.Writer().AfterNothing(out, rules.Stream(n));
        return;
      }
      if n.TextNode? {
        rules.SingleItem(Words(n.data));
        rules.Writer().AfterOne(out, Chars(n.data));
        out := out + Escape(n.data);
        return;
      }
      var tag := "";
      if n.Element? {
        if n.name in rules.dropped {
          rules.Writer().AfterNothing(out, []);
          return;
        } else if n.name in rules.kept {
          if n.name in rules.void { rules.AfterVoid(out, n); } else { rules.AfterGroup(out, n); }
          tag := n.name;
          out := out + ("<" + tag + ">");
        } else if n.name == "a" {
          var target := AnchorTarget(n.attrs);
          if target.Some? {
            rules.AfterAnchor(out, n);
            tag := "a";
            out := out + ("<" + rules.anchor + Escape(target.value) + "\">");
          }
        }
      }
      Children(n.children);
      if tag != "" && tag !in rules.void {
        out := out + ("</" + tag + ">");
      }
    }
  }

  /** The markup language of the phone's page view. */
  function MobileRules(resolve: string -> Option<string>): Rules {
    Rules(DROPPED, SHORT + HEADINGS + TABLES + BLOCKS, {"br", "hr"}, "a href=\"#\" data-web-link=\"", resolve)
  }

  const DROPPED: set<string> :=
    {"head", "script", "style", "noscript", "svg", "iframe", "form", "nav", "footer", "template", "object", "embed"}
  const HEADINGS: set<string> := {"h1", "h2", "h3", "h4", "h5", "h6"}
  const SHORT: set<string> := {"p", "ul", "ol", "li", "em", "b", "i", "br", "hr"}
  const TABLES: set<string> := {"table", "thead", "tbody", "tr", "th", "td"}
  const BLOCKS: set<string> :=
    {"blockquote", "pre", "code", "strong", "article", "section", "div", "figure", "figcaption"}

  /** Length and first letters tell the kept tags from the dropped ones. */
  predicate KeptShape(tag: string) {
    match |tag|
    case 0 => false
    case 1 => tag[0] != 'a'
    case 2 => true
    case 3 => tag[0] == 'p' || tag[0] == 'd'
    case 4 => tag[0] == 'c'
    case 5 => tag[0] == 't'
    case 6 => tag[1] == 't' || tag[1] == 'i'
    case n => n == 7 || n == 10
  }

  predicate Ordinary(tag: string) {
    0 < |tag| <= 10 && '>' !in tag && tag[0] != '/' && KeptShape(tag)
  }

  lemma ShortTags(tag: string)
    requires tag in SHORT || tag in HEADINGS
    ensures Ordinary(tag)
  {
  }

  lemma TableTags(tag: string)
    requires tag in TABLES
    ensures Ordinary(tag)
  {
  }

  lemma BlockTags(tag: string)
    requires tag in BLOCKS
    ensures Ordinary(tag)
  {
  }

  lemma DroppedTags(tag: string)
    requires tag in DROPPED
    ensures !KeptShape(tag) && tag != "a"
  {
  }

  lemma MobileRulesAreValid(resolve: string -> Option<string>)
    ensures MobileRules(resolve).Valid()
  {
    var rules := MobileRules(resolve);
    forall tag | tag in rules.kept ensures Ordinary(tag) {
      if tag in TABLES { TableTags(tag); } else if tag in BLOCKS { BlockTags(tag); } else { ShortTags(tag); }
    }
    forall tag | tag in rules.dropped ensures !KeptShape(tag) && tag != "a" { DroppedTags(tag); }
    assert "br" in SHORT && "hr" in SHORT;
  }
}
