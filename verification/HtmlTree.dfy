/** The parsed HTML tree both readers walk, and character escaping. */
module HtmlTree {
  import opened Text

  datatype Attr = Attr(key: string, val: string)

  /** Document, comment and doctype nodes are all `Other`: neither reader looks at anything but their children. */
  datatype Node =
    | TextNode(data: string)
    | Element(name: string, attrs: seq<Attr>, children: seq<Node>)
    | Other(children: seq<Node>)

  /** A node of a tree with its ancestors, outermost first. */
  datatype Place = Place(node: Node, above: seq<Node>)

  /** Every node of a tree, in document order. */
  function Places(n: Node, above: seq<Node>): seq<Place>
    decreases n, 0
  {
    [Place(n, above)] + if n.TextNode? then [] else PlacesAll(n.children, above + [n])
  }

  function PlacesAll(ns: seq<Node>, above: seq<Node>): seq<Place>
    decreases ns, 0
  {
    if ns == [] then [] else Places(ns[0], above) + PlacesAll(ns[1..], above)
  }

  /** Whatever stands above a node stands above everything below it. */
  lemma {:induction false} AboveStays(n: Node, above: seq<Node>, p: Place)
    requires p in Places(n, above)
    ensures above <= p.above
    decreases n, 0
  {
    if p != Place(n, above) { AboveStaysAll(n.children, above + [n], p); }
  }

  lemma {:induction false} AboveStaysAll(ns: seq<Node>, above: seq<Node>, p: Place)
    requires p in PlacesAll(ns, above)
    ensures above <= p.above
    decreases ns, 0
  {
    if p in Places(ns[0], above) { AboveStays(ns[0], above, p); } else { AboveStaysAll(ns[1..], above, p); }
  }

  // ---------------------------------------------------------------- escaping

  function EscapeChar(c: char): string {
    if c == '&' then "&amp;"
    else if c == '\'' then "&#39;"
    else if c == '<' then "&lt;"
    else if c == '>' then "&gt;"
    else if c == '\"' then "&#34;"
    else if c == '\r' then "&#13;"
    else [c]
  }

  function Escape(s: string): (r: string)
    ensures '<' !in r && '>' !in r && '\"' !in r
  {
    if s == "" then "" else EscapeChar(s[0]) + Escape(s[1..])
  }

  /** The character `s` starts with and how many characters spell it: an entity, or the character itself. */
  function Head(s: string): (r: (char, nat))
    requires s != ""
    ensures 1 <= r.1 <= |s|
  {
    if "&amp;" <= s then ('&', 5)
    else if "&#39;" <= s then ('\'', 5)
    else if "&lt;" <= s then ('<', 4)
    else if "&gt;" <= s then ('>', 4)
    else if "&#34;" <= s then ('\"', 5)
    else if "&#13;" <= s then ('\r', 5)
    else (s[0], 1)
  }

  /** Reads back the six entities; any other character stands for itself. */
  function Unescape(s: string): string
    decreases |s|
  {
    if s == "" then "" else [Head(s).0] + Unescape(s[Head(s).1..])
  }

  lemma HeadOfEscaped(c: char, rest: string)
    ensures Head(EscapeChar(c) + rest) == (c, |EscapeChar(c)|)
  {
    var e := EscapeChar(c);
    if |e| == 1 {
      assert (e + rest)[0] == c != '&';
    } else {
      assert (e + rest)[..|e|] == e;
      assert (e + rest)[1] == e[1] && (e + rest)[2] == e[2] && (e + rest)[3] == e[3];
    }
  }

  lemma UnescapeChar(c: char, rest: string)
    ensures Unescape(EscapeChar(c) + rest) == [c] + Unescape(rest)
  {
    HeadOfEscaped(c, rest);
    assert (EscapeChar(c) + rest)[|EscapeChar(c)|..] == rest;
  }

  /** Unescaping inverts escaping, whatever follows. */
  lemma {:induction false} UnescapeEscape(s: string, rest: string)
    ensures Unescape(Escape(s) + rest) == s + Unescape(rest)
  {
    if s == "" {
      assert Escape(s) + rest == rest;
    } else {
      var e, tail := EscapeChar(s[0]), Escape(s[1..]);
      calc {
        Unescape(Escape(s) + rest);
        { Associate(e, tail, rest); }
        Unescape(e + (tail + rest));
        { UnescapeChar(s[0], tail + rest); }
        [s[0]] + Unescape(tail + rest);
        { UnescapeEscape(s[1..], rest); }
        [s[0]] + (s[1..] + Unescape(rest));
        { Associate([s[0]], s[1..], Unescape(rest)); assert [s[0]] + s[1..] == s; }
        s + Unescape(rest);
      }
    }
  }
}
