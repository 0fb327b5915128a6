/** String helpers with the semantics of the JavaScript built-ins the
    newsletter code relies on: `Array.prototype.join`, `String.prototype.split`
    with the one-character separator '\n', ASCII `toUpperCase`, and the
    accumulation of a document by repeated `+=`. */
module Text {

  const NL: char := '\n'

  /** Left-to-right concatenation of a sequence of strings. */
  function Concat(parts: seq<string>): string
  {
    if |parts| == 0 then "" else parts[0] + Concat(parts[1..])
  }

  lemma {:induction false} ConcatAppend(a: seq<string>, b: seq<string>)
    ensures Concat(a + b) == Concat(a) + Concat(b)
  {
    if |a| == 0 {
      assert a + b == b;
    } else {
      assert (a + b)[1..] == a[1..] + b;
      ConcatAppend(a[1..], b);
    }
  }

  /** `sub` appears in `doc` starting at index `at`. */
  predicate OccursAt(doc: string, sub: string, at: int)
  {
    0 <= at && at + |sub| <= |doc| && forall i :: 0 <= i < |sub| ==> doc[at + i] == sub[i]
  }

  /** An occurrence of `a + b` is an occurrence of `a`. */
  lemma OccursPrefix(doc: string, a: string, b: string, at: int)
    requires a <= b && OccursAt(doc, b, at)
    ensures OccursAt(doc, a, at)
  {
    assert doc[at..at + |a|] == doc[at..at + |b|][..|a|];
  }

  /** Two adjacent occurrences make one. */
  lemma OccursAtAppend(doc: string, a: string, b: string, at: int)
    requires OccursAt(doc, a, at) && OccursAt(doc, b, at + |a|)
    ensures OccursAt(doc, a + b, at)
  {
    assert doc[at..at + |a| + |b|] == doc[at..at + |a|] + doc[at + |a|..at + |a| + |b|];
  }

  /** Where part `k` starts once `parts` is concatenated. */
  function Offset(parts: seq<string>, k: nat): nat
    requires k <= |parts|
  {
    |Concat(parts[..k])|
  }

  /** The offset past the last part is the length of the whole. */
  lemma OffsetEnd(parts: seq<string>)
    ensures Offset(parts, |parts|) == |Concat(parts)|
  {
    assert parts[..|parts|] == parts;
  }

  /** One part sits at its offset, and the next offset follows it. */
  lemma PartAt(parts: seq<string>, k: nat)
    requires k < |parts|
    ensures OccursAt(Concat(parts), parts[k], Offset(parts, k))
    ensures Offset(parts, k + 1) == Offset(parts, k) + |parts[k]|
  {
    var before, rest := parts[..k], parts[k..];
    assert parts == before + rest;
    ConcatAppend(before, rest);
    ConcatCons(rest);
    assert rest[0] == parts[k];
    var doc, at := Concat(parts), |Concat(before)|;
    assert doc == Concat(before) + (parts[k] + Concat(rest[1..]));
    assert doc[at..at + |parts[k]|] == parts[k];
    assert parts[..k + 1] == before + [parts[k]];
    ConcatAppend(before, [parts[k]]);
    ConcatCons([parts[k]]);
  }

  /** The text is nonempty and ends in a line break. */
  predicate EndsLine(s: string)
  {
    |s| > 0 && s[|s| - 1] == NL
  }

  /** A part that follows a part ending in a line break starts a line. */
  lemma PartStartsLine(parts: seq<string>, k: nat)
    requires 0 < k < |parts|
    requires EndsLine(parts[k - 1])
    ensures 0 < Offset(parts, k) <= |Concat(parts)|
    ensures Concat(parts)[Offset(parts, k) - 1] == NL
  {
    var doc, p, o := Concat(parts), parts[k - 1], Offset(parts, k - 1);
    assert OccursAt(doc, p, o) && Offset(parts, k) == o + |p| by {
      PartAt(parts, k - 1);
    }
    assert doc[o + (|p| - 1)] == p[|p| - 1];
  }

  lemma EndsLineAppend(a: string, b: string)
    requires EndsLine(b)
    ensures EndsLine(a + b)
  {
    assert (a + b)[|a + b| - 1] == b[|b| - 1];
  }

  lemma PrefixAppend(a: string, b: string)
    ensures a <= a + b
  {
    assert (a + b)[..|a|] == a;
  }

  /** A prefix of a part that follows a part ending in a line break starts
      a line of the concatenation. */
  lemma PrefixStartsLine(parts: seq<string>, k: nat, h: string)
    requires 0 < k < |parts|
    requires EndsLine(parts[k - 1]) && h <= parts[k]
    ensures OccursAt(Concat(parts), h, Offset(parts, k))
    ensures 0 < Offset(parts, k) && Concat(parts)[Offset(parts, k) - 1] == NL
  {
    PartAt(parts, k);
    PartStartsLine(parts, k);
    OccursPrefix(Concat(parts), h, parts[k], Offset(parts, k));
  }

  /** Unfolding `Concat` over one part. */
  lemma ConcatCons(s: seq<string>)
    requires |s| > 0
    ensures Concat(s) == s[0] + Concat(s[1..])
  {
  }

  /** Two consecutive parts sit together at the offset of the first. */
  lemma Run2(parts: seq<string>, k: nat)
    requires k + 2 <= |parts|
    ensures OccursAt(Concat(parts), parts[k] + parts[k + 1], Offset(parts, k))
  {
    PartAt(parts, k);
    PartAt(parts, k + 1);
    OccursAtAppend(Concat(parts), parts[k], parts[k + 1], Offset(parts, k));
  }

  /** The last two parts sit together at the end of the concatenation. */
  lemma RunEnd(parts: seq<string>)
    requires |parts| >= 2
    ensures OccursAt(Concat(parts), parts[|parts| - 2] + parts[|parts| - 1], Offset(parts, |parts| - 2))
    ensures Offset(parts, |parts| - 2) + |parts[|parts| - 2] + parts[|parts| - 1]| == |Concat(parts)|
  {
    var k := |parts| - 2;
    Run2(parts, k);
    PartAt(parts, k);
    PartAt(parts, k + 1);
    OffsetEnd(parts);
  }

  /** Offsets grow by at least the length of every part skipped. */
  lemma {:induction false} OffsetGrows(parts: seq<string>, i: nat, j: nat)
    requires i < j <= |parts|
    ensures Offset(parts, i) + |parts[i]| <= Offset(parts, j)
    decreases j - i
  {
    PartAt(parts, i);
    if j > i + 1 {
      OffsetGrows(parts, i + 1, j);
    }
  }

  /** `xs.join(sep)`. */
  function Join(xs: seq<string>, sep: string): string
  {
    if |xs| == 0 then ""
    else if |xs| == 1 then xs[0]
    else xs[0] + sep + Join(xs[1..], sep)
  }

  /** Joining line break-free text with a line break-free separator gives
      line break-free text. */
  lemma {:induction false} JoinLineFree(xs: seq<string>, sep: string)
    requires NL !in sep
    requires forall i :: 0 <= i < |xs| ==> NL !in xs[i]
    ensures NL !in Join(xs, sep)
  {
    if |xs| > 1 {
      JoinLineFree(xs[1..], sep);
    }
  }

  /** Joining two line break-free texts gives one. */
  lemma LineFreeAppend(a: string, b: string)
    requires NL !in a && NL !in b
    ensures NL !in a + b
  {
  }

  /** `s.split('\n')`: the text between consecutive line breaks. There is
      always at least one piece, one more than there are line breaks, and
      no piece holds a line break. */
  function Split(s: string): (pieces: seq<string>)
    ensures |pieces| == multiset(s)[NL] + 1
    ensures forall i :: 0 <= i < |pieces| ==> NL !in pieces[i]
  {
    if |s| == 0 then [""]
    else
      assert s == [s[0]] + s[1..];
      if s[0] == NL then [""] + Split(s[1..])
      else
        var rest := Split(s[1..]);
        [[s[0]] + rest[0]] + rest[1..]
  }

  lemma {:induction false} JoinPrepend(c: char, xs: seq<string>)
    requires |xs| >= 1
    ensures Join([[c] + xs[0]] + xs[1..], "\n") == [c] + Join(xs, "\n")
  {
    var head := [c] + xs[0];
    var ys := [head] + xs[1..];
    assert ys[0] == head;
    if |xs| == 1 {
      assert ys == [head];
    } else {
      assert ys[1..] == xs[1..];
      var tail := Join(xs[1..], "\n");
      assert Join(ys, "\n") == head + "\n" + tail;
      assert Join(xs, "\n") == xs[0] + "\n" + tail;
    }
  }

  /** Joining what was split gives back the text unchanged. */
  lemma {:induction false} JoinSplit(s: string)
    ensures Join(Split(s), "\n") == s
  {
    if |s| == 0 {
    } else if s[0] == NL {
      var rest := Split(s[1..]);
      JoinSplit(s[1..]);
      assert Split(s) == [""] + rest;
      assert ([""] + rest)[1..] == rest;
      assert s == "\n" + s[1..];
    } else {
      var rest := Split(s[1..]);
      JoinSplit(s[1..]);
      JoinPrepend(s[0], rest);
      assert s == [s[0]] + s[1..];
    }
  }

  lemma {:induction false} SplitPlain(x: string)
    requires NL !in x
    ensures Split(x) == [x]
  {
    if |x| > 0 {
      assert NL !in x[1..] by {
        assert forall k :: 0 <= k < |x[1..]| ==> x[1..][k] == x[k + 1];
      }
      SplitPlain(x[1..]);
      assert [x[0]] + x[1..] == x;
    }
  }

  /** Splitting a line break-free `x` followed by a line break and `t`. */
  lemma {:induction false} SplitLine(x: string, t: string)
    requires NL !in x
    ensures Split(x + "\n" + t) == [x] + Split(t)
  {
    var s := x + "\n" + t;
    if |x| == 0 {
      assert s[1..] == t;
    } else {
      assert NL !in x[1..] by {
        assert forall k :: 0 <= k < |x[1..]| ==> x[1..][k] == x[k + 1];
      }
      assert s[0] == x[0] && s[0] != NL;
      assert s[1..] == x[1..] + "\n" + t;
      SplitLine(x[1..], t);
      var rest := Split(s[1..]);
      assert rest[0] == x[1..] && rest[1..] == Split(t);
      assert [x[0]] + x[1..] == x;
    }
  }

  lemma {:induction false} SplitJoinPlain(xs: seq<string>)
    requires |xs| > 0
    requires forall i :: 0 <= i < |xs| ==> NL !in xs[i]
    ensures Split(Join(xs, "\n")) == xs
  {
    if |xs| == 1 {
      SplitPlain(xs[0]);
    } else {
      SplitJoinPlain(xs[1..]);
      SplitLine(xs[0], Join(xs[1..], "\n"));
      assert [xs[0]] + xs[1..] == xs;
    }
  }

  /** Splitting what was joined gives back the list exactly when the list
      is nonempty and no element holds a line break. */
  lemma SplitJoin(xs: seq<string>)
    ensures Split(Join(xs, "\n")) == xs <==>
            (|xs| > 0 && forall i :: 0 <= i < |xs| ==> NL !in xs[i])
  {
    if |xs| > 0 && forall i :: 0 <= i < |xs| ==> NL !in xs[i] {
      SplitJoinPlain(xs);
    } else if |xs| == 0 {
      assert Split(Join(xs, "\n")) == [""];
    }
  }

  /** Each element followed by a line break: what `forEach(x => md += x + '\n')`
      accumulates. */
  function Lines(ls: seq<string>): string
  {
    if |ls| == 0 then "" else ls[0] + "\n" + Lines(ls[1..])
  }

  lemma HeadTail<T>(s: seq<T>)
    requires |s| > 0
    ensures [s[0]] + s[1..] == s
  {
  }

  lemma AppendAssoc<T>(a: seq<T>, b: seq<T>, c: seq<T>)
    ensures a + (b + c) == (a + b) + c
  {
  }

  /** Line-break-free lines come back one piece per line, plus the empty
      piece after the final line break. */
  lemma {:induction false} SplitLines(ls: seq<string>)
    requires forall i :: 0 <= i < |ls| ==> NL !in ls[i]
    ensures Split(Lines(ls)) == ls + [""]
  {
    if |ls| > 0 {
      var rest := Lines(ls[1..]);
      assert Lines(ls) == ls[0] + "\n" + rest;
      SplitLines(ls[1..]);
      SplitLine(ls[0], rest);
      HeadTail(ls);
      AppendAssoc([ls[0]], ls[1..], [""]);
    }
  }

  /** ASCII upper-casing of one character. */
  function UpperChar(c: char): char
  {
    if 'a' <= c <= 'z' then (c as int - 32) as char else c
  }

  /** `s.toUpperCase()` on ASCII text. */
  function Upper(s: string): (r: string)
    ensures |r| == |s|
    ensures forall i :: 0 <= i < |s| ==> r[i] == UpperChar(s[i])
  {
    seq(|s|, i requires 0 <= i < |s| => UpperChar(s[i]))
  }
}
