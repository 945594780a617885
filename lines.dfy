/** The string operations the bot applies to message text: splitting on
    line breaks and joining with them (Python's `str.split("\n")` and
    `"\n".join(...)`), deleting line breaks, the substring test for a code
    fence, and taking a piece out from between a known prefix and suffix. */
module Lines {

  import opened Wrappers

  /** `s.split("\n")`: the pieces between line breaks; never empty, and the
      empty string splits into one empty piece. */
  function Split(s: string): (r: seq<string>)
    ensures |r| >= 1
    decreases |s|
  {
    if s == [] then [[]]
    else
      var rest := Split(s[1..]);
      if s[0] == '\n' then [[]] + rest
      else [[s[0]] + rest[0]] + rest[1..]
  }

  /** `"\n".join(ls)` */
  function Join(ls: seq<string>): string
    decreases |ls|
  {
    if ls == [] then []
    else if |ls| == 1 then ls[0]
    else ls[0] + "\n" + Join(ls[1..])
  }

  /** The concatenation of the pieces, with nothing in between. */
  function Flatten(ls: seq<string>): string
    decreases |ls|
  {
    if ls == [] then [] else Flatten(ls[..|ls| - 1]) + ls[|ls| - 1]
  }

  /** `s.replace("\n", "")` */
  function StripNewlines(s: string): (r: string)
    ensures '\n' !in r
    decreases |s|
  {
    if s == [] then []
    else (if s[0] == '\n' then [] else [s[0]]) + StripNewlines(s[1..])
  }

  /** `"```" in s` */
  function HasFence(s: string): bool
    decreases |s|
  {
    |s| >= 3 && (s[..3] == "```" || HasFence(s[1..]))
  }

  /** The part of `s` strictly between `pre` and `post`, if `s` starts with
      `pre` and ends with `post` without the two overlapping. */
  function Between(s: string, pre: string, post: string): (r: Option<string>)
    ensures r.Some? ==> s == pre + r.value + post
  {
    if |s| >= |pre| + |post| && s[..|pre|] == pre && s[|s| - |post|..] == post
    then
      var inner := s[|pre|..|s| - |post|];
      assert s == s[..|pre|] + inner + s[|s| - |post|..];
      Some(inner)
    else None
  }

  // ---------------------------------------------------------------------
  // Split and Join undo each other.

  lemma {:induction false} SplitHasNoNewlines(s: string)
    ensures forall l :: l in Split(s) ==> '\n' !in l
    decreases |s|
  {
    if s != [] {
      SplitHasNoNewlines(s[1..]);
    }
  }

  lemma {:induction false} JoinSplit(s: string)
    ensures Join(Split(s)) == s
    decreases |s|
  {
    if s != [] {
      var rest := Split(s[1..]);
      JoinSplit(s[1..]);
      if s[0] == '\n' {
        assert ([[]] + rest)[1..] == rest;
      } else {
        var head := [s[0]] + rest[0];
        if |rest| == 1 {
          assert Join(rest) == rest[0];
        } else {
          JoinCons(head, rest[1..]);
          assert Join(rest) == rest[0] + "\n" + Join(rest[1..]);
        }
      }
    }
  }

  lemma JoinCons(head: string, tail: seq<string>)
    requires tail != []
    ensures Join([head] + tail) == head + "\n" + Join(tail)
  {
    assert ([head] + tail)[1..] == tail;
  }

  /** A line without breaks splits into itself. */
  lemma {:induction false} SplitLine(a: string)
    requires '\n' !in a
    ensures Split(a) == [a]
    decreases |a|
  {
    if a != [] {
      assert a[0] != '\n' && '\n' !in a[1..];
      SplitLine(a[1..]);
      assert [a[0]] + a[1..] == a;
    }
  }

  /** Splitting a line, a break and a rest gives the line followed by the
      pieces of the rest. */
  lemma {:induction false} SplitCons(a: string, b: string)
    requires '\n' !in a
    ensures Split(a + "\n" + b) == [a] + Split(b)
    decreases |a|
  {
    var s := a + "\n" + b;
    if a == [] {
      assert s[0] == '\n' && s[1..] == b;
    } else {
      assert s[0] == a[0] && s[1..] == a[1..] + "\n" + b;
      SplitCons(a[1..], b);
      assert [a[0]] + a[1..] == a;
    }
  }

  lemma {:induction false} SplitJoin(ls: seq<string>)
    requires ls != []
    requires forall l :: l in ls ==> '\n' !in l
    ensures Split(Join(ls)) == ls
    decreases |ls|
  {
    if |ls| == 1 {
      SplitLine(ls[0]);
    } else {
      SplitJoin(ls[1..]);
      SplitCons(ls[0], Join(ls[1..]));
      assert [ls[0]] + ls[1..] == ls;
    }
  }

  /** Joining one more piece on the end. */
  lemma {:induction false} JoinSnoc(ls: seq<string>, x: string)
    ensures Join(ls + [x]) == if ls == [] then x else Join(ls) + "\n" + x
    decreases |ls|
  {
    if |ls| == 1 {
      assert (ls + [x])[1..] == [x];
    } else if |ls| > 1 {
      assert (ls + [x])[1..] == ls[1..] + [x];
      JoinSnoc(ls[1..], x);
    }
  }

  /** Extending the last piece by a break and a line. */
  lemma {:induction false} JoinExtendLast(ls: seq<string>, x: string, y: string)
    ensures Join(ls + [x + "\n" + y]) == Join(ls + [x]) + "\n" + y
  {
    JoinSnoc(ls, x + "\n" + y);
    JoinSnoc(ls, x);
  }

  // ---------------------------------------------------------------------
  // Deleting line breaks.

  lemma {:induction false} StripAppend(a: string, b: string)
    ensures StripNewlines(a + b) == StripNewlines(a) + StripNewlines(b)
    decreases |a|
  {
    if a != [] {
      assert (a + b)[0] == a[0] && (a + b)[1..] == a[1..] + b;
      StripAppend(a[1..], b);
      var h := if a[0] == '\n' then [] else [a[0]];
      calc {
        StripNewlines(a + b);
        h + StripNewlines(a[1..] + b);
        h + (StripNewlines(a[1..]) + StripNewlines(b));
        (h + StripNewlines(a[1..])) + StripNewlines(b);
        StripNewlines(a) + StripNewlines(b);
      }
    } else {
      assert a + b == b;
    }
  }

  lemma {:induction false} StripLine(a: string)
    requires '\n' !in a
    ensures StripNewlines(a) == a
    decreases |a|
  {
    if a != [] {
      StripLine(a[1..]);
    }
  }

  /** Deleting the breaks from joined lines leaves the lines run together. */
  lemma {:induction false} StripJoin(ls: seq<string>)
    requires forall l :: l in ls ==> '\n' !in l
    ensures StripNewlines(Join(ls)) == Flatten(ls)
    decreases |ls|
  {
    if ls != [] {
      var init := ls[..|ls| - 1];
      var last := ls[|ls| - 1];
      assert ls == init + [last];
      assert last in ls;
      StripLine(last);
      JoinSnoc(init, last);
      if init == [] {
        assert Join(ls) == last;
      } else {
        StripJoin(init);
        StripBreakThen(Join(init), last);
      }
    }
  }

  lemma {:induction false} StripBreakThen(a: string, last: string)
    ensures StripNewlines(a + "\n" + last) == StripNewlines(a) + StripNewlines(last)
  {
    var t := "\n" + last;
    assert a + "\n" + last == a + t;
    StripAppend(a, t);
    StripBreak(last);
  }

  lemma {:induction false} StripBreak(last: string)
    ensures StripNewlines("\n" + last) == StripNewlines(last)
  {
    var t := "\n" + last;
    assert t[0] == '\n' && t[1..] == last;
  }

  // ---------------------------------------------------------------------
  // The fence test against its reference reading.

  /** A code fence starts at position `i` of `s`. */
  ghost predicate FenceAt(s: string, i: int) {
    0 <= i && i + 3 <= |s| && s[i..i + 3] == "```"
  }

  /** `HasFence` is the substring test it stands for. */
  lemma {:induction false} HasFenceIff(s: string)
    ensures HasFence(s) <==> exists i :: FenceAt(s, i)
    decreases |s|
  {
    if |s| >= 3 {
      HasFenceIff(s[1..]);
      if HasFence(s) {
        if s[..3] == "```" {
          assert FenceAt(s, 0);
        } else {
          var i :| FenceAt(s[1..], i);
          assert s[i + 1..i + 1 + 3] == s[1..][i..i + 3];
          assert FenceAt(s, i + 1);
        }
      }
      if exists i :: FenceAt(s, i) {
        var i :| FenceAt(s, i);
        if i > 0 {
          assert s[i..i + 3] == s[1..][i - 1..i - 1 + 3];
          assert FenceAt(s[1..], i - 1);
        }
      }
    }
  }

  /** Reading back what was put between a prefix and a suffix. */
  lemma {:induction false} BetweenRoundTrip(pre: string, x: string, post: string)
    ensures Between(pre + x + post, pre, post) == Some(x)
  {
    var s := pre + x + post;
    assert s[..|pre|] == pre;
    assert s[|s| - |post|..] == post;
    assert s[|pre|..|s| - |post|] == x;
  }
}
