/** Strings as sequences of Unicode scalar values, their UTF-8 size, and white-space separated words. */
module Text {

  datatype Option<+T> = None | Some(value: T)

  lemma Associate<T>(a: seq<T>, b: seq<T>, c: seq<T>)
    ensures (a + b) + c == a + (b + c)
  {
  }

  lemma Regroup<T>(a: seq<T>, b: seq<T>, c: seq<T>, d: seq<T>)
    ensures (a + b) + (c + d) == a + (b + c) + d
  {
  }

  lemma Nest<T>(a: seq<T>, b: seq<T>, c: seq<T>, d: seq<T>)
    ensures ((a + b) + c) + d == a + ((b + c) + d)
  {
  }

  /** Bytes taken by one character in UTF-8, the unit of Go's `Builder.Len`. */
  function Width(c: char): (w: nat)
    ensures 1 <= w <= 4
  {
    if c as int < 0x80 then 1 else if c as int < 0x800 then 2 else if c as int < 0x10000 then 3 else 4
  }

  function Size(s: string): nat {
    if s == "" then 0 else Width(s[0]) + Size(s[1..])
  }

  lemma {:induction false} SizeConcat(a: string, b: string)
    ensures Size(a + b) == Size(a) + Size(b)
  {
    if a == "" {
      assert a + b == b;
    } else {
      assert (a + b)[1..] == a[1..] + b;
      SizeConcat(a[1..], b);
    }
  }

  /** Position of the first `c`, or the length when there is none. */
  function IndexOf(s: string, c: char): (i: nat)
    ensures i <= |s| && c !in s[..i] && (i < |s| ==> s[i] == c)
  {
    if s == "" || s[0] == c then 0
    else
      var i := 1 + IndexOf(s[1..], c);
      assert s[..i] == [s[0]] + s[1..][..i - 1];
      i
  }

  lemma {:induction false} IndexOfAfter(a: string, b: string, c: char)
    requires c !in a
    ensures IndexOf(a + b, c) == |a| + IndexOf(b, c)
  {
    if a == "" {
      assert a + b == b;
    } else {
      assert (a + b)[1..] == a[1..] + b;
      IndexOfAfter(a[1..], b, c);
    }
  }

  // ---------------------------------------------------------------- words

  /** The white space of Go's `strings.Fields` and `strings.TrimSpace`. */
  predicate IsSpace(c: char) {
    var v := c as int;
    (9 <= v <= 13) || v == 0x20 || v == 0x85 || v == 0xA0 || v == 0x1680 || (0x2000 <= v <= 0x200A)
    || v == 0x2028 || v == 0x2029 || v == 0x202F || v == 0x205F || v == 0x3000
  }

  predicate IsWord(w: string) {
    w != "" && forall c :: c in w ==> !IsSpace(c)
  }

  /** Length of the leading run of characters that are not white space. */
  function WordLength(s: string): (n: nat)
    ensures n <= |s| && (forall i :: 0 <= i < n ==> !IsSpace(s[i])) && (n < |s| ==> IsSpace(s[n]))
  {
    if s == "" || IsSpace(s[0]) then 0 else 1 + WordLength(s[1..])
  }

  /** `strings.Fields`: the maximal runs of characters that are not white space. */
  function Fields(s: string): (ws: seq<string>)
    ensures forall w :: w in ws ==> IsWord(w)
    decreases |s|
  {
    if s == "" then []
    else if IsSpace(s[0]) then Fields(s[1..])
    else
      var n := WordLength(s);
      [s[..n]] + Fields(s[n..])
  }

  predicate AllSpace(s: string) {
    forall c :: c in s ==> IsSpace(c)
  }

  lemma {:induction false} WordLengthBefore(a: string, gap: string, b: string)
    requires gap != "" && IsSpace(gap[0])
    ensures WordLength(a + gap + b) == WordLength(a)
  {
    if a == "" {
      assert (a + gap + b)[0] == gap[0];
    } else if !IsSpace(a[0]) {
      assert (a + gap + b)[1..] == a[1..] + gap + b;
      WordLengthBefore(a[1..], gap, b);
    }
  }

  lemma {:induction false} FieldsOfSpace(gap: string, b: string)
    requires AllSpace(gap)
    ensures Fields(gap + b) == Fields(b)
  {
    if gap == "" {
      assert gap + b == b;
    } else {
      assert (gap + b)[1..] == gap[1..] + b;
      FieldsOfSpace(gap[1..], b);
    }
  }

  /** White space separates: the words on its two sides do not interact. */
  lemma {:induction false} FieldsSplit(a: string, gap: string, b: string)
    requires gap != "" && AllSpace(gap)
    ensures Fields(a + gap + b) == Fields(a) + Fields(b)
    decreases |a|
  {
    if a == "" {
      assert a + gap + b == gap + b;
      FieldsOfSpace(gap, b);
    } else if IsSpace(a[0]) {
      assert (a + gap + b)[1..] == a[1..] + gap + b;
      FieldsSplit(a[1..], gap, b);
    } else {
      var n := WordLength(a);
      WordLengthBefore(a, gap, b);
      assert (a + gap + b)[..n] == a[..n];
      assert (a + gap + b)[n..] == a[n..] + gap + b;
      FieldsSplit(a[n..], gap, b);
      assert [a[..n]] + (Fields(a[n..]) + Fields(b)) == [a[..n]] + Fields(a[n..]) + Fields(b);
    }
  }

  lemma FieldsTrailing(a: string, gap: string)
    requires AllSpace(gap)
    ensures Fields(a + gap) == Fields(a)
  {
    if gap == "" {
      assert a + gap == a;
    } else {
      FieldsSplit(a, gap, "");
      assert a + gap + "" == a + gap;
    }
  }

  lemma FieldsOfWord(w: string)
    requires IsWord(w)
    ensures Fields(w) == [w]
  {
    assert WordLength(w) == |w|;
    assert w[..|w|] == w && w[|w|..] == "";
  }

  /** `strings.Join`. */
  function Join(parts: seq<string>, sep: string): string {
    if parts == [] then ""
    else if |parts| == 1 then parts[0]
    else parts[0] + sep + Join(parts[1..], sep)
  }

  function FieldsOfAll(parts: seq<string>): seq<string> {
    if parts == [] then [] else Fields(parts[0]) + FieldsOfAll(parts[1..])
  }

  lemma {:induction false} FieldsOfJoin(parts: seq<string>, sep: string)
    requires sep != "" && AllSpace(sep)
    ensures Fields(Join(parts, sep)) == FieldsOfAll(parts)
  {
    if |parts| == 1 {
      assert FieldsOfAll(parts[1..]) == [];
    } else if |parts| > 1 {
      FieldsOfJoin(parts[1..], sep);
      FieldsSplit(parts[0], sep, Join(parts[1..], sep));
    }
  }

  lemma {:induction false} FieldsOfWords(ws: seq<string>)
    requires forall w :: w in ws ==> IsWord(w)
    ensures FieldsOfAll(ws) == ws
  {
    if ws != [] {
      FieldsOfWord(ws[0]);
      FieldsOfWords(ws[1..]);
      assert ws == [ws[0]] + ws[1..];
    }
  }

  /** Collapsing white space with Fields and Join keeps the words. */
  lemma CollapseKeepsWords(s: string)
    ensures Fields(Join(Fields(s), " ")) == Fields(s)
  {
    FieldsOfJoin(Fields(s), " ");
    FieldsOfWords(Fields(s));
  }
}
