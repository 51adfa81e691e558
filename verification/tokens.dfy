/** The text side of `get_version` and `get_serial`: Python's argument-less
    `str.split()` and the lookup of the token that follows a label. */
module Tokens {
  import opened Common

  /** The characters Python's `str.split()` treats as whitespace. */
  predicate IsSpace(c: char) {
    var n := c as int;
    || 0x09 <= n <= 0x0D
    || 0x1C <= n <= 0x20
    || n == 0x85 || n == 0xA0 || n == 0x1680
    || 0x2000 <= n <= 0x200A
    || n == 0x2028 || n == 0x2029 || n == 0x202F || n == 0x205F || n == 0x3000
  }

  /** Below U+0100 the whitespace of `split()` is tab, line feed, vertical tab,
      form feed, carriage return, the four information separators, space,
      next line and no-break space. */
  lemma Latin1Spaces(c: char)
    requires c as int < 0x100
    ensures IsSpace(c) <==>
              c in "\t\n\U{000B}\U{000C}\r\U{001C}\U{001D}\U{001E}\U{001F} \U{0085}\U{00A0}"
  {
  }

  /** A token `split()` can produce: non-empty and free of whitespace. */
  predicate IsWord(w: string) {
    |w| > 0 && forall i :: 0 <= i < |w| ==> !IsSpace(w[i])
  }

  /** Length of the longest whitespace-free prefix of `s`. */
  function WordEnd(s: string): (n: nat)
    ensures n <= |s|
    ensures forall i :: 0 <= i < n ==> !IsSpace(s[i])
    ensures n < |s| ==> IsSpace(s[n])
  {
    if |s| == 0 || IsSpace(s[0]) then 0 else 1 + WordEnd(s[1..])
  }

  /** `s.split()`: the maximal whitespace-free runs of `s`, in order. */
  function Split(s: string): (ts: seq<string>)
    ensures forall i :: 0 <= i < |ts| ==> IsWord(ts[i])
    decreases |s|
  {
    if |s| == 0 then []
    else if IsSpace(s[0]) then Split(s[1..])
    else
      var n := WordEnd(s);
      [s[..n]] + Split(s[n..])
  }

  /** The characters of `s` that are not whitespace, in order. */
  function NonSpace(s: string): string {
    if |s| == 0 then ""
    else if IsSpace(s[0]) then NonSpace(s[1..])
    else [s[0]] + NonSpace(s[1..])
  }

  /** The tokens written one after another. */
  function Concat(ts: seq<string>): string {
    if |ts| == 0 then "" else ts[0] + Concat(ts[1..])
  }

  /** The tokens joined by single spaces, `' '.join(ts)`. */
  function Join(ts: seq<string>): string {
    if |ts| == 0 then ""
    else if |ts| == 1 then ts[0]
    else ts[0] + " " + Join(ts[1..])
  }

  /** `ts[ts.index(tag) + 1]`: the token right after the first occurrence of the
      label `tag`. ValueError when it is absent, IndexError when its first
      occurrence is the last token. */
  function TokenAfter(ts: seq<string>, tag: string): (r: Result<string>)
    ensures r == Err(LabelNotFound) <==> tag !in ts
    ensures r == Err(IndexOutOfRange) <==> tag in ts && tag !in ts[..|ts| - 1]
    ensures r.Ok? <==>
              exists i :: 0 <= i < |ts| - 1 && ts[i] == tag && tag !in ts[..i]
    ensures r.Ok? ==>
              exists i :: 0 <= i < |ts| - 1 && ts[i] == tag && tag !in ts[..i] && r.value == ts[i + 1]
  {
    match FirstIndex(ts, tag)
    case None => Err(LabelNotFound)
    case Some(i) =>
      if i + 1 < |ts| then
        assert ts[..|ts| - 1][..i] == ts[..i];
        Ok(ts[i + 1])
      else
        assert ts[..|ts| - 1] == ts[..i];
        Err(IndexOutOfRange)
  }

  /** `raw.split()` followed by the label lookup, as `get_version` and
      `get_serial` do it. */
  function LabelValue(raw: string, tag: string): (r: Result<string>)
    ensures r.Ok? ==> IsWord(r.value) && r.value in Split(raw)
    ensures r == Err(LabelNotFound) <==> tag !in Split(raw)
    ensures r.Err? ==> r.error == LabelNotFound || r.error == IndexOutOfRange
  {
    TokenAfter(Split(raw), tag)
  }

  /** A whitespace character ends the word that starts `a`, whatever follows it. */
  lemma {:induction false} WordEndStopsAtSpace(a: string, c: char, b: string)
    requires IsSpace(c)
    ensures WordEnd(a + [c] + b) == WordEnd(a)
    decreases |a|
  {
    if |a| == 0 {
      assert (a + [c] + b)[0] == c;
    } else if IsSpace(a[0]) {
      assert (a + [c] + b)[0] == a[0];
    } else {
      assert (a + [c] + b)[1..] == a[1..] + [c] + b;
      WordEndStopsAtSpace(a[1..], c, b);
    }
  }

  /** Splitting distributes over a whitespace character: the text on either
      side is tokenized on its own. */
  lemma {:induction false} SplitAtSpace(a: string, c: char, b: string)
    requires IsSpace(c)
    ensures Split(a + [c] + b) == Split(a) + Split(b)
    decreases |a|
  {
    var s := a + [c] + b;
    if |a| == 0 {
      assert s[0] == c && s[1..] == b;
    } else if IsSpace(a[0]) {
      assert s[0] == a[0] && s[1..] == a[1..] + [c] + b;
      SplitAtSpace(a[1..], c, b);
    } else {
      assert s[0] == a[0];
      WordEndStopsAtSpace(a, c, b);
      var n := WordEnd(a);
      assert s[..n] == a[..n];
      assert s[n..] == a[n..] + [c] + b;
      SplitAtSpace(a[n..], c, b);
    }
  }

  /** A single word splits into itself. */
  lemma SplitWord(w: string)
    requires IsWord(w)
    ensures Split(w) == [w]
  {
    assert WordEnd(w) == |w|;
    assert w[..|w|] == w && w[|w|..] == [];
  }

  /** Round trip: words joined by spaces split back into the same words. */
  lemma {:induction false} SplitJoin(ts: seq<string>)
    requires forall i :: 0 <= i < |ts| ==> IsWord(ts[i])
    ensures Split(Join(ts)) == ts
  {
    if |ts| == 1 {
      SplitWord(ts[0]);
    } else if |ts| > 1 {
      SplitAtSpace(ts[0], ' ', Join(ts[1..]));
      assert ts[0] + " " + Join(ts[1..]) == ts[0] + [' '] + Join(ts[1..]);
      SplitWord(ts[0]);
      SplitJoin(ts[1..]);
    }
  }

  /** Dropping the whitespace of a text whose first `n` characters are not
      whitespace keeps those characters in front. */
  lemma {:induction false} NonSpaceOfWordPrefix(s: string, n: nat)
    requires n <= |s|
    requires forall i :: 0 <= i < n ==> !IsSpace(s[i])
    ensures NonSpace(s) == s[..n] + NonSpace(s[n..])
  {
    if n > 0 {
      NonSpaceOfWordPrefix(s[1..], n - 1);
      assert s[..n] == [s[0]] + s[1..][..n - 1];
      assert s[1..][n - 1..] == s[n..];
    }
  }

  /** `split()` loses exactly the whitespace: the tokens written back to back
      are the text without its whitespace characters. */
  lemma {:induction false} SplitKeepsNonSpace(s: string)
    ensures Concat(Split(s)) == NonSpace(s)
    decreases |s|
  {
    if |s| > 0 {
      if IsSpace(s[0]) {
        SplitKeepsNonSpace(s[1..]);
      } else {
        var n := WordEnd(s);
        var rest := Split(s[n..]);
        assert Split(s) == [s[..n]] + rest;
        assert ([s[..n]] + rest)[1..] == rest;
        SplitKeepsNonSpace(s[n..]);
        NonSpaceOfWordPrefix(s, n);
      }
    }
  }

  /** The lookup returns the token right after the first occurrence of the label. */
  lemma TokenAfterFirstLabel(pre: seq<string>, tag: string, v: string, post: seq<string>)
    requires tag !in pre
    ensures TokenAfter(pre + [tag, v] + post, tag) == Ok(v)
  {
    var ts := pre + [tag, v] + post;
    assert ts[|pre|] == tag && ts[..|pre|] == pre;
    assert FirstIndex(ts, tag) == Some(|pre|);
  }

  /** Text that ends in whitespace (or is empty) tokenizes apart from what follows. */
  lemma SplitAfterSpace(a: string, x: string)
    requires |a| == 0 || IsSpace(a[|a| - 1])
    ensures Split(a + x) == Split(a) + Split(x)
  {
    if |a| > 0 {
      var a' := a[..|a| - 1];
      var c := a[|a| - 1];
      assert a == a' + [c] + [];
      SplitAtSpace(a', c, []);
      assert a + x == a' + [c] + x;
      SplitAtSpace(a', c, x);
    } else {
      assert a + x == x;
    }
  }

  /** Text that starts with whitespace (or is empty) tokenizes apart from what precedes it. */
  lemma SplitBeforeSpace(x: string, b: string)
    requires |b| == 0 || IsSpace(b[0])
    ensures Split(x + b) == Split(x) + Split(b)
  {
    if |b| > 0 {
      assert b == [] + [b[0]] + b[1..];
      SplitAtSpace([], b[0], b[1..]);
      assert x + b == x + [b[0]] + b[1..];
      SplitAtSpace(x, b[0], b[1..]);
    } else {
      assert x + b == x;
    }
  }

  /** A label standing as its own token in the text, followed by whitespace and
      a word, yields that word, provided no earlier token is the label. */
  lemma LabelValueInText(a: string, tag: string, c: char, v: string, b: string)
    requires IsWord(tag) && IsWord(v) && IsSpace(c)
    requires |a| == 0 || IsSpace(a[|a| - 1])
    requires |b| == 0 || IsSpace(b[0])
    requires tag !in Split(a)
    ensures LabelValue(a + tag + [c] + v + b, tag) == Ok(v)
  {
    var middle := tag + [c] + v;
    assert Split(middle) == [tag, v] by {
      SplitAtSpace(tag, c, v);
      SplitWord(tag);
      SplitWord(v);
    }
    var pre, post := Split(a), Split(b);
    var tail := middle + b;
    SplitBeforeSpace(middle, b);
    assert Split(tail) == [tag, v] + post;
    SplitAfterSpace(a, tail);
    Associative(pre, [tag, v], post);
    Regroup(a, tag, [c], v, b);
    TokenAfterFirstLabel(pre, tag, v, post);
  }

  /** A label that is the last token of the text has nothing after it:
      IndexError. */
  lemma LabelLastRaises(a: string, tag: string, b: string)
    requires IsWord(tag)
    requires |a| == 0 || IsSpace(a[|a| - 1])
    requires forall i :: 0 <= i < |b| ==> IsSpace(b[i])
    requires tag !in Split(a)
    ensures LabelValue(a + tag + b, tag) == Err(IndexOutOfRange)
  {
    var pre := Split(a);
    AllSpace(b);
    SplitWord(tag);
    SplitBeforeSpace(tag, b);
    assert Split(tag + b) == [tag];
    SplitAfterSpace(a, tag + b);
    Associative(a, tag, b);
    var ts := Split(a + tag + b);
    assert ts == pre + [tag];
    assert ts[..|ts| - 1] == pre;
  }

  /** Text made only of whitespace loses all of it. */
  lemma {:induction false} AllSpace(b: string)
    requires forall i :: 0 <= i < |b| ==> IsSpace(b[i])
    ensures NonSpace(b) == ""
    ensures Split(b) == []
  {
    if |b| > 0 {
      AllSpace(b[1..]);
    }
  }

  /** The example reply of a firmware query: the version follows its label. */
  lemma VersionExample()
    ensures LabelValue("Version: 4.2.1\n", "Version:") == Ok("4.2.1")
  {
    assert IsWord("Version:");
    assert IsWord("4.2.1");
    assert "Version: 4.2.1\n" == "" + "Version:" + [' '] + "4.2.1" + "\n";
    LabelValueInText("", "Version:", ' ', "4.2.1", "\n");
  }
}
