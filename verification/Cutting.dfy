/** Writing a token stream through a builder that starts nothing new once its text has passed a size limit: what is
    written is a prefix of the stream followed by the closing tags of the elements then open. This holds for any way
    of printing single tokens. */
module Cutting {
  import opened Text

  const LIMIT: nat := 128000

  datatype Token = Open(tag: string) | Link(url: string) | Close(tag: string) | Chars(text: string)

  function ClosingTag(open: Token): Token
    requires open.Open? || open.Link?
  {
    if open.Open? then Close(open.tag) else Close("a")
  }

  /** How tokens are printed, and which tags have no closing tag. */
  datatype Printer = Printer(show: Token -> string, void: set<string>) {

    function PrintAll(ts: seq<Token>): string {
      if ts == [] then "" else show(ts[0]) + PrintAll(ts[1..])
    }

    // ---------------------------------------------------------------- nesting

    /** Tags still open after `ts`, innermost first, starting from `st`; None when a closing tag does not match. */
    function Scan(ts: seq<Token>, st: seq<string>): Option<seq<string>> {
      if ts == [] then Some(st)
      else
        match ts[0]
        case Chars(_) => Scan(ts[1..], st)
        case Open(tag) => Scan(ts[1..], if tag in void then st else [tag] + st)
        case Link(_) => Scan(ts[1..], ["a"] + st)
        case Close(tag) => if st != [] && st[0] == tag then Scan(ts[1..], st[1..]) else None
    }

    function Closers(st: seq<string>): seq<Token> {
      if st == [] then [] else [Close(st[0])] + Closers(st[1..])
    }

    function OpenAfter(ts: seq<Token>): seq<string> {
      match Scan(ts, []) case None => [] case Some(st) => st
    }

    predicate WellNested(ts: seq<Token>) {
      Scan(ts, []) == Some([])
    }

    lemma {:induction false} ScanConcat(a: seq<Token>, b: seq<Token>, st: seq<string>)
      ensures Scan(a + b, st) == match Scan(a, st) case None => None case Some(u) => Scan(b, u)
    {
      if a == [] {
        assert a + b == b;
      } else {
        assert (a + b)[1..] == a[1..] + b;
        match a[0]
        case Chars(_) => ScanConcat(a[1..], b, st);
        case Open(tag) => ScanConcat(a[1..], b, if tag in void then st else [tag] + st);
        case Link(_) => ScanConcat(a[1..], b, ["a"] + st);
        case Close(tag) => if st != [] && st[0] == tag { ScanConcat(a[1..], b, st[1..]); }
      }
    }

    /** Tokens that never close more than they open do not see the tags below. */
    lemma {:induction false} ScanFrame(a: seq<Token>, st: seq<string>, base: seq<string>)
      requires Scan(a, st).Some?
      ensures Scan(a, st + base) == Some(Scan(a, st).value + base)
    {
      if a != [] {
        match a[0]
        case Chars(_) => ScanFrame(a[1..], st, base);
        case Open(tag) =>
          if tag in void {
            ScanFrame(a[1..], st, base);
          } else {
            Associate([tag], st, base);
            ScanFrame(a[1..], [tag] + st, base);
          }
        case Link(_) =>
          Associate(["a"], st, base);
          ScanFrame(a[1..], ["a"] + st, base);
        case Close(tag) =>
          assert (st + base)[1..] == st[1..] + base;
          ScanFrame(a[1..], st[1..], base);
      }
    }

    lemma {:induction false} ScanClosers(st: seq<string>)
      ensures Scan(Closers(st), st) == Some([])
    {
      if st != [] {
        ScanClosers(st[1..]);
        assert Closers(st)[1..] == Closers(st[1..]);
      }
    }

    lemma {:induction false} ClosersConcat(a: seq<string>, b: seq<string>)
      ensures Closers(a + b) == Closers(a) + Closers(b)
    {
      if a == [] {
        assert a + b == b;
      } else {
        assert (a + b)[1..] == a[1..] + b;
        ClosersConcat(a[1..], b);
      }
    }

    // ---------------------------------------------------------------- the cut

    /** Number of tokens written by a writer that has written `len` bytes and starts nothing once past the limit. */
    function Written(len: nat, ts: seq<Token>): (k: nat)
      ensures k <= |ts|
      decreases |ts|
    {
      if ts == [] || len > LIMIT then 0 else 1 + Written(len + Size(show(ts[0])), ts[1..])
    }

    /** The written prefix, followed by the closing tags of the elements then open, innermost first. */
    function Cut(len: nat, ts: seq<Token>): seq<Token> {
      var prefix := ts[..Written(len, ts)];
      prefix + Closers(OpenAfter(prefix))
    }

    lemma {:induction false} PrintConcat(a: seq<Token>, b: seq<Token>)
      ensures PrintAll(a + b) == PrintAll(a) + PrintAll(b)
    {
      if a == [] {
        assert a + b == b;
      } else {
        assert (a + b)[1..] == a[1..] + b;
        PrintConcat(a[1..], b);
      }
    }

    /** Bytes the printed tokens take. */
    function Bytes(ts: seq<Token>): nat {
      if ts == [] then 0 else Size(show(ts[0])) + Bytes(ts[1..])
    }

    lemma {:induction false} BytesArePrinted(ts: seq<Token>)
      ensures Bytes(ts) == Size(PrintAll(ts))
    {
      if ts != [] {
        BytesArePrinted(ts[1..]);
        SizeConcat(show(ts[0]), PrintAll(ts[1..]));
      }
    }

    lemma {:induction false} BytesConcat(a: seq<Token>, b: seq<Token>)
      ensures Bytes(a + b) == Bytes(a) + Bytes(b)
    {
      if a == [] {
        assert a + b == b;
      } else {
        assert (a + b)[0] == a[0] && (a + b)[1..] == a[1..] + b;
        BytesConcat(a[1..], b);
      }
    }

    /** The written prefix ends with the first token that passes the limit, or is everything. */
    lemma {:induction false} WrittenIsFirstPast(len: nat, ts: seq<Token>)
      ensures forall j :: 0 <= j < Written(len, ts) ==> len + Bytes(ts[..j]) <= LIMIT
      ensures Written(len, ts) < |ts| ==> len + Bytes(ts[..Written(len, ts)]) > LIMIT
      decreases |ts|
    {
      if ts != [] && len <= LIMIT {
        var len' := len + Size(show(ts[0]));
        WrittenIsFirstPast(len', ts[1..]);
        forall j | 0 < j <= |ts|
          ensures len + Bytes(ts[..j]) == len' + Bytes(ts[1..][..j - 1])
        {
          assert ts[..j][1..] == ts[1..][..j - 1];
        }
        forall j | 0 <= j < Written(len, ts)
          ensures len + Bytes(ts[..j]) <= LIMIT
        {
          if j == 0 {
            assert ts[..0] == [];
          } else {
            assert len' + Bytes(ts[1..][..j - 1]) <= LIMIT;
          }
        }
      } else {
        assert ts[..0] == [];
      }
    }

    lemma {:induction false} WrittenConcat(len: nat, a: seq<Token>, b: seq<Token>)
      ensures Written(len, a + b) ==
              if Written(len, a) < |a| then Written(len, a) else |a| + Written(len + Bytes(a), b)
      decreases |a|
    {
      if a == [] {
        assert a + b == b;
      } else if len <= LIMIT {
        var rest := a[1..] + b;
        assert (a + b)[1..] == rest && (a + b)[0] == a[0];
        WrittenConcat(len + Size(show(a[0])), a[1..], b);
        assert Written(len, a + b) == 1 + Written(len + Size(show(a[0])), rest);
      }
    }

    lemma NestedPrefix(a: seq<Token>, k: nat, st: seq<string>)
      requires k <= |a| && Scan(a, st).Some?
      ensures Scan(a[..k], st).Some?
    {
      ScanConcat(a[..k], a[k..], st);
      assert a[..k] + a[k..] == a;
    }

    lemma CutNothing(len: nat, ts: seq<Token>)
      requires len > LIMIT
      ensures Cut(len, ts) == []
    {
      assert ts[..0] == [];
    }

    lemma CutWhole(len: nat, a: seq<Token>)
      requires WellNested(a) && Written(len, a) == |a|
      ensures Cut(len, a) == a
    {
      assert a[..|a|] == a;
    }

    lemma CutConcatPast(len: nat, a: seq<Token>, b: seq<Token>)
      requires WellNested(a) && Written(len, a) < |a|
      ensures Cut(len, a + b) == Cut(len, a) && len + Bytes(Cut(len, a)) > LIMIT
    {
      WrittenConcat(len, a, b);
      var k := Written(len, a);
      assert (a + b)[..k] == a[..k];
      WrittenIsFirstPast(len, a);
      BytesConcat(a[..k], Closers(OpenAfter(a[..k])));
    }

    lemma TakeConcat(a: seq<Token>, b: seq<Token>, j: nat)
      requires j <= |b|
      ensures (a + b)[..|a| + j] == a + b[..j]
    {
    }

    lemma OpenAfterWhole(a: seq<Token>, b: seq<Token>)
      requires WellNested(a)
      ensures OpenAfter(a + b) == OpenAfter(b)
    {
      ScanConcat(a, b, []);
    }

    lemma CutConcatWhole(len: nat, a: seq<Token>, b: seq<Token>)
      requires WellNested(a) && Written(len, a) == |a|
      ensures Cut(len, a + b) == a + Cut(len + Bytes(a), b)
    {
      var j := Written(len + Bytes(a), b);
      WrittenConcat(len, a, b);
      TakeConcat(a, b, j);
      OpenAfterWhole(a, b[..j]);
      Associate(a, b[..j], Closers(OpenAfter(b[..j])));
    }

    /** Two well nested streams written one after the other are cut as one stream. */
    lemma CutConcat(len: nat, a: seq<Token>, b: seq<Token>)
      requires WellNested(a)
      ensures Cut(len, a + b) == Cut(len, a) + Cut(len + Bytes(Cut(len, a)), b)
    {
      if Written(len, a) < |a| {
        CutConcatPast(len, a, b);
        CutNothing(len + Bytes(Cut(len, a)), b);
        assert Cut(len, a) + [] == Cut(len, a);
      } else {
        CutConcatWhole(len, a, b);
        CutWhole(len, a);
      }
    }

    lemma OpenInside(open: Token, inner: seq<Token>)
      requires Scan(inner, []).Some? && (open.Link? || (open.Open? && open.tag !in void))
      ensures OpenAfter([open] + inner) == OpenAfter(inner) + [ClosingTag(open).tag]
      ensures Closers(OpenAfter([open] + inner)) == Closers(OpenAfter(inner)) + [ClosingTag(open)]
    {
      var tag := ClosingTag(open).tag;
      assert ([open] + inner)[1..] == inner;
      assert [tag] + [] == [tag] && [] + [tag] == [tag];
      ScanFrame(inner, [], [tag]);
      ClosersConcat(OpenAfter(inner), [tag]);
      assert Closers([tag]) == [Close(tag)];
    }

    /** The whole content was written, so only the closing tag is in question, and it is written either way. */
    lemma CutElementWhole(len: nat, open: Token, kids: seq<Token>)
      requires len <= LIMIT && WellNested(kids) && (open.Link? || (open.Open? && open.tag !in void))
      requires Written(len + Size(show(open)), kids) == |kids|
      ensures Cut(len, [open] + kids + [ClosingTag(open)]) == [open] + kids + [ClosingTag(open)]
    {
      var close := ClosingTag(open);
      var ts := [open] + kids + [close];
      var len' := len + Size(show(open));
      assert ts[1..] == kids + [close];
      WrittenConcat(len', kids, [close]);
      OpenInside(open, kids);
      ScanConcat([open] + kids, [close], []);
      var k := Written(len, ts);
      if k == |ts| {
        CutWhole(len, ts);
      } else {
        assert ts[..k] == [open] + kids;
      }
    }

    lemma CutElementInside(len: nat, open: Token, kids: seq<Token>)
      requires len <= LIMIT && WellNested(kids) && (open.Link? || (open.Open? && open.tag !in void))
      requires Written(len + Size(show(open)), kids) < |kids|
      ensures Cut(len, [open] + kids + [ClosingTag(open)])
              == [open] + Cut(len + Size(show(open)), kids) + [ClosingTag(open)]
    {
      var close := ClosingTag(open);
      var ts := [open] + kids + [close];
      var len' := len + Size(show(open));
      var k := Written(len', kids);
      var inner := Closers(OpenAfter(kids[..k]));
      assert Written(len, ts) == 1 + k by {
        assert ts[1..] == kids + [close];
        WrittenConcat(len', kids, [close]);
      }
      assert ts[..1 + k] == [open] + kids[..k];
      calc {
        Cut(len, ts);
        ([open] + kids[..k]) + Closers(OpenAfter([open] + kids[..k]));
        { NestedPrefix(kids, k, []); OpenInside(open, kids[..k]); }
        ([open] + kids[..k]) + (inner + [close]);
        { Regroup([open], kids[..k], inner, [close]); }
        [open] + (kids[..k] + inner) + [close];
      }
    }

    /** An element started below the limit always gets its closing tag, wherever its content is cut. */
    lemma CutElement(len: nat, open: Token, kids: seq<Token>)
      requires len <= LIMIT && WellNested(kids) && (open.Link? || (open.Open? && open.tag !in void))
      ensures Cut(len, [open] + kids + [ClosingTag(open)])
              == [open] + Cut(len + Size(show(open)), kids) + [ClosingTag(open)]
    {
      if Written(len + Size(show(open)), kids) < |kids| {
        CutElementInside(len, open, kids);
      } else {
        CutElementWhole(len, open, kids);
        CutWhole(len + Size(show(open)), kids);
      }
    }

    // ---------------------------------------------------------------- the walk

    /** What a writer holding `base` ends up with after the token stream `ts`. */
    ghost function After(base: string, ts: seq<Token>): string {
      base + PrintAll(Cut(Size(base), ts))
    }

    lemma PrintAppended(base: string, first: seq<Token>, second: seq<Token>, both: seq<Token>)
      requires both == first + second
      ensures Size(base + PrintAll(first)) == Size(base) + Bytes(first)
      ensures (base + PrintAll(first)) + PrintAll(second) == base + PrintAll(both)
    {
      SizeConcat(base, PrintAll(first));
      BytesArePrinted(first);
      PrintConcat(first, second);
      Associate(base, PrintAll(first), PrintAll(second));
    }

    /** Writing `a` and then `b` is writing both, whatever is cut. */
    lemma AfterConcat(base: string, a: seq<Token>, b: seq<Token>)
      requires WellNested(a)
      ensures After(After(base, a), b) == After(base, a + b)
    {
      var first := Cut(Size(base), a);
      CutConcat(Size(base), a, b);
      PrintAppended(base, first, Cut(Size(base) + Bytes(first), b), Cut(Size(base), a + b));
    }

    /** A single token is written when the writer is not past the limit; this holds for text and void tags. */
    lemma AfterOne(base: string, t: Token)
      requires Size(base) <= LIMIT && (t.Chars? || (t.Open? && t.tag in void))
      ensures After(base, [t]) == base + show(t)
    {
      assert Written(Size(base), [t]) == 1 && [t][..1] == [t];
      assert Scan([t][1..], []) == Some([]);
      CutWhole(Size(base), [t]);
      assert PrintAll([t]) == show(t) + "" == show(t);
    }

    lemma PrintElement(open: Token, inner: seq<Token>, close: Token)
      ensures PrintAll([open] + inner + [close]) == (show(open) + PrintAll(inner)) + show(close)
    {
      PrintConcat([open] + inner, [close]);
      assert ([open] + inner)[1..] == inner;
      assert PrintAll([close]) == show(close) + "" == show(close);
    }

    lemma AfterMore(base: string, more: string, ts: seq<Token>)
      ensures After(base + more, ts) == (base + more) + PrintAll(Cut(Size(base) + Size(more), ts))
    {
      SizeConcat(base, more);
    }

    lemma AfterWholeElement(base: string, open: Token, kids: seq<Token>)
      requires Size(base) <= LIMIT && WellNested(kids) && (open.Link? || (open.Open? && open.tag !in void))
      ensures After(base, [open] + kids + [ClosingTag(open)]) ==
              base + ((show(open) + PrintAll(Cut(Size(base) + Size(show(open)), kids))) + show(ClosingTag(open)))
    {
      CutElement(Size(base), open, kids);
      PrintElement(open, Cut(Size(base) + Size(show(open)), kids), ClosingTag(open));
    }

    lemma Glue(base: string, open: string, inner: string, close: string, before: string, whole: string)
      requires before == (base + open) + inner && whole == base + ((open + inner) + close)
      ensures before + close == whole
    {
      Nest(base, open, inner, close);
    }

    /** Writing an opening tag below the limit, then the content, then the closing tag is writing the element. */
    lemma AfterElement(base: string, open: Token, kids: seq<Token>) returns (before: string, whole: string)
      requires Size(base) <= LIMIT && WellNested(kids) && (open.Link? || (open.Open? && open.tag !in void))
      ensures before == After(base + show(open), kids)
      ensures whole == After(base, [open] + kids + [ClosingTag(open)])
      ensures before + show(ClosingTag(open)) == whole
    {
      var inner := PrintAll(Cut(Size(base) + Size(show(open)), kids));
      before, whole := After(base + show(open), kids), After(base, [open] + kids + [ClosingTag(open)]);
      AfterMore(base, show(open), kids);
      AfterWholeElement(base, open, kids);
      Glue(base, show(open), inner, show(ClosingTag(open)), before, whole);
    }

    lemma AfterNothing(base: string, ts: seq<Token>)
      requires Size(base) > LIMIT || ts == []
      ensures After(base, ts) == base
    {
      assert Cut(Size(base), ts) == [];
    }

    lemma {:induction false} BytesOfPrefix(ts: seq<Token>, k: nat)
      requires k <= |ts|
      ensures Bytes(ts[..k]) <= Bytes(ts)
    {
      if k == 0 {
        assert ts[..0] == [];
      } else {
        assert ts[..k][1..] == ts[1..][..k - 1];
        BytesOfPrefix(ts[1..], k - 1);
      }
    }

    lemma WholeUnderLimit(ts: seq<Token>)
      requires Bytes(ts) <= LIMIT
      ensures Written(0, ts) == |ts|
    {
      WrittenIsFirstPast(0, ts);
      BytesOfPrefix(ts, Written(0, ts));
    }
  }
}
