/** The string operations of Python that the renderers rely on: `sep.join(parts)`
    and `str.strip()`, plus `str.split` on one character, which the rest of the
    model uses to say what rendered text looks like line by line. */
module Text {

  /** `sep.join(parts)`, built from the right end the way a loop appends. */
  function Join(sep: string, parts: seq<string>): string
  {
    if |parts| == 0 then ""
    else if |parts| == 1 then parts[0]
    else Join(sep, parts[..|parts| - 1]) + sep + parts[|parts| - 1]
  }

  /** No part contains the character `c`. */
  predicate Free(parts: seq<string>, c: char)
  {
    forall k :: 0 <= k < |parts| ==> c !in parts[k]
  }

  lemma FreeAppend(a: seq<string>, b: seq<string>, c: char)
    requires Free(a, c) && Free(b, c)
    ensures Free(a + b, c)
  {
    forall k | 0 <= k < |a + b|
      ensures c !in (a + b)[k]
    {
      if k >= |a| {
        assert (a + b)[k] == b[k - |a|];
      }
    }
  }

  /** `s.split(c)` for a one-character separator: the pieces between separators,
      never none, none of them holding a separator. */
  function Split(s: string, c: char): (pieces: seq<string>)
    ensures |pieces| > 0
    ensures Free(pieces, c)
  {
    if |s| == 0 then [""]
    else
      var rest := Split(s[1..], c);
      if s[0] == c then [""] + rest
      else [[s[0]] + rest[0]] + rest[1..]
  }

  /** Python's `str.isspace` on one character. */
  predicate IsSpace(ch: char)
  {
    || ('\t' <= ch <= '\r')
    || ('\U{1C}' <= ch <= '\U{1F}')
    || ch == ' ' || ch == '\U{85}' || ch == '\U{A0}' || ch == '\U{1680}'
    || ('\U{2000}' <= ch <= '\U{200A}')
    || ch == '\U{2028}' || ch == '\U{2029}' || ch == '\U{202F}' || ch == '\U{205F}'
    || ch == '\U{3000}'
  }

  /** `s.lstrip()`: the longest suffix of `s` that does not start with whitespace;
      everything dropped is whitespace. */
  function StripStart(s: string): (r: string)
    ensures |r| <= |s| && r == s[|s| - |r|..]
    ensures forall k :: 0 <= k < |s| - |r| ==> IsSpace(s[k])
    ensures r == [] || !IsSpace(r[0])
  {
    if |s| > 0 && IsSpace(s[0]) then StripStart(s[1..]) else s
  }

  /** `s.rstrip()`: the longest prefix of `s` that does not end with whitespace;
      everything dropped is whitespace. */
  function StripEnd(s: string): (r: string)
    ensures |r| <= |s| && r == s[..|r|]
    ensures forall k :: |r| <= k < |s| ==> IsSpace(s[k])
    ensures r == [] || !IsSpace(r[|r| - 1])
  {
    if |s| > 0 && IsSpace(s[|s| - 1]) then StripEnd(s[..|s| - 1]) else s
  }

  /** `s.strip()`. */
  function Strip(s: string): string
  {
    StripEnd(StripStart(s))
  }

  lemma JoinSnoc(sep: string, parts: seq<string>, last: string)
    requires |parts| > 0
    ensures Join(sep, parts + [last]) == Join(sep, parts) + sep + last
  {
    assert (parts + [last])[..|parts|] == parts;
  }

  lemma {:induction false} JoinCons(sep: string, first: string, parts: seq<string>)
    requires |parts| > 0
    ensures Join(sep, [first] + parts) == first + sep + Join(sep, parts)
  {
    if |parts| == 1 {
      assert ([first] + parts)[..1] == [first];
    } else {
      var init, last := parts[..|parts| - 1], parts[|parts| - 1];
      assert parts == init + [last];
      assert [first] + parts == ([first] + init) + [last];
      JoinCons(sep, first, init);
      JoinSnoc(sep, [first] + init, last);
      JoinSnoc(sep, init, last);
    }
  }

  /** Prepending text to a join is the same as prepending it to the first part. */
  lemma {:induction false} JoinPrefix(prefix: string, sep: string, parts: seq<string>)
    requires |parts| > 0
    ensures prefix + Join(sep, parts) == Join(sep, [prefix + parts[0]] + parts[1..])
  {
    if |parts| > 1 {
      var init, last := parts[..|parts| - 1], parts[|parts| - 1];
      assert parts == init + [last];
      JoinPrefix(prefix, sep, init);
      assert [prefix + parts[0]] + parts[1..] == ([prefix + init[0]] + init[1..]) + [last];
      JoinSnoc(sep, [prefix + init[0]] + init[1..], last);
      JoinSnoc(sep, init, last);
    }
  }

  /** Appending text to a join is the same as appending it to the last part. */
  lemma JoinSuffix(sep: string, parts: seq<string>, suffix: string)
    requires |parts| > 0
    ensures Join(sep, parts) + suffix
         == Join(sep, parts[..|parts| - 1] + [parts[|parts| - 1] + suffix])
  {
    var init, last := parts[..|parts| - 1], parts[|parts| - 1];
    if |parts| > 1 {
      assert parts == init + [last];
      JoinSnoc(sep, init, last);
      JoinSnoc(sep, init, last + suffix);
    }
  }

  /** Joining two non-empty runs is joining each and separating the results. */
  lemma {:induction false} JoinAppend(sep: string, a: seq<string>, b: seq<string>)
    requires |a| > 0 && |b| > 0
    ensures Join(sep, a + b) == Join(sep, a) + sep + Join(sep, b)
  {
    if |b| == 1 {
      JoinSnoc(sep, a, b[0]);
    } else {
      var init, last := b[..|b| - 1], b[|b| - 1];
      assert b == init + [last];
      assert a + b == (a + init) + [last];
      JoinAppend(sep, a, init);
      JoinSnoc(sep, a + init, last);
      JoinSnoc(sep, init, last);
    }
  }

  /** A text without the separator is a single piece. */
  lemma {:induction false} SplitFree(s: string, c: char)
    requires c !in s
    ensures Split(s, c) == [s]
  {
    if |s| > 0 {
      assert c !in s[1..];
      SplitFree(s[1..], c);
      assert s == [s[0]] + s[1..];
    }
  }

  /** Splitting a text that starts with `ch`. */
  lemma SplitCons(ch: char, s: string, c: char)
    ensures Split([ch] + s, c)
         == if ch == c then [""] + Split(s, c) else [[ch] + Split(s, c)[0]] + Split(s, c)[1..]
  {
    assert ([ch] + s)[0] == ch && ([ch] + s)[1..] == s;
  }

  /** Extending the first piece of a run commutes with appending more pieces. */
  lemma ExtendFirst(h: string, x: seq<string>, y: seq<string>)
    requires |x| > 0
    ensures [h + (x + y)[0]] + (x + y)[1..] == [h + x[0]] + x[1..] + y
  {
    assert (x + y)[1..] == x[1..] + y;
  }

  /** A separator splits the text into the pieces of either side. */
  lemma {:induction false} SplitAround(a: string, c: char, b: string)
    ensures Split(a + [c] + b, c) == Split(a, c) + Split(b, c)
  {
    if |a| == 0 {
      assert a + [c] + b == [c] + b;
      SplitCons(c, b, c);
    } else {
      var ch, tail := a[0], a[1..];
      assert a == [ch] + tail;
      assert a + [c] + b == [ch] + (tail + [c] + b);
      SplitAround(tail, c, b);
      SplitCons(ch, tail + [c] + b, c);
      SplitCons(ch, tail, c);
      var front, back := Split(tail, c), Split(b, c);
      if ch == c {
        assert [""] + (front + back) == [""] + front + back;
      } else {
        ExtendFirst([ch], front, back);
      }
    }
  }

  /** Splitting undoes joining, when no part holds the separator. */
  lemma {:induction false} SplitJoin(parts: seq<string>, c: char)
    requires |parts| > 0 && Free(parts, c)
    ensures Split(Join([c], parts), c) == parts
  {
    if |parts| == 1 {
      SplitFree(parts[0], c);
    } else {
      var init, last := parts[..|parts| - 1], parts[|parts| - 1];
      assert Free(init, c);
      SplitJoin(init, c);
      SplitAround(Join([c], init), c, last);
      SplitFree(last, c);
      assert parts == init + [last];
    }
  }

  lemma {:induction false} StripStartLead(lead: string, rest: string)
    requires forall k :: 0 <= k < |lead| ==> IsSpace(lead[k])
    requires |rest| > 0 && !IsSpace(rest[0])
    ensures StripStart(lead + rest) == rest
  {
    if |lead| > 0 {
      assert (lead + rest)[1..] == lead[1..] + rest;
      StripStartLead(lead[1..], rest);
    }
  }

  lemma {:induction false} StripEndTrail(rest: string, trail: string)
    requires forall k :: 0 <= k < |trail| ==> IsSpace(trail[k])
    requires |rest| > 0 && !IsSpace(rest[|rest| - 1])
    ensures StripEnd(rest + trail) == rest
  {
    if |trail| > 0 {
      assert (rest + trail)[..|rest + trail| - 1] == rest + trail[..|trail| - 1];
      StripEndTrail(rest, trail[..|trail| - 1]);
    } else {
      assert rest + trail == rest;
    }
  }

  /** Stripping removes exactly the whitespace padding around a text that starts
      and ends with something else. */
  lemma StripPadded(lead: string, s: string, trail: string)
    requires forall k :: 0 <= k < |lead| ==> IsSpace(lead[k])
    requires forall k :: 0 <= k < |trail| ==> IsSpace(trail[k])
    requires |s| > 0 && !IsSpace(s[0]) && !IsSpace(s[|s| - 1])
    ensures Strip(lead + s + trail) == s
  {
    assert lead + s + trail == lead + (s + trail);
    StripStartLead(lead, s + trail);
    StripEndTrail(s, trail);
  }
}
