/** The trimming of the chat history before each chat-completion call
    (`prune_messages`): walk the history from the newest entry to the
    oldest, keep entries while a character budget lasts, cut the content of
    the one entry that straddles the remaining budget, and return what was
    kept in chronological order. */
module History {

  import opened UserData

  /** The characters of content in `ms`. */
  function TotalLength(ms: seq<Message>): nat
    decreases |ms|
  {
    if ms == [] then 0 else TotalLength(ms[..|ms| - 1]) + |ms[|ms| - 1].content|
  }

  /** `list(reversed(s))` */
  function Reverse<T>(s: seq<T>): (r: seq<T>)
    ensures |r| == |s|
    decreases |s|
  {
    if s == [] then [] else [s[|s| - 1]] + Reverse(s[..|s| - 1])
  }

  /** What the trimming keeps of `ms` under a budget of `budget` characters,
      stated from the newest entry backwards. */
  function Pruned(ms: seq<Message>, budget: int): seq<Message>
    decreases |ms|
  {
    if ms == [] || budget <= 0 then []
    else
      var last := ms[|ms| - 1];
      if |last.content| > budget then [Message(last.role, last.content[..budget])]
      else Pruned(ms[..|ms| - 1], budget - |last.content|) + [last]
  }

  /** `r` is `ms` from index `k` on, except that the content of its first
      (oldest) entry may be only a prefix of the original's. */
  ghost predicate SuffixFrom(r: seq<Message>, ms: seq<Message>, k: int) {
    && 0 <= k <= |ms|
    && |r| == |ms| - k
    && (forall j :: 0 < j < |r| ==> r[j] == ms[k + j])
    && (|r| > 0 ==> r[0].role == ms[k].role && r[0].content <= ms[k].content)
  }

  /** `prune_messages(messages, max_chars)`: the loop over the reversed
      history, collecting newest-first and reversing at the end. */
  method PruneMessages(messages: seq<Message>, maxChars: int) returns (pruned: seq<Message>)
    ensures pruned == Pruned(messages, maxChars)
    ensures TotalLength(pruned) <= maxChars || pruned == []
    ensures exists k :: SuffixFrom(pruned, messages, k)
  {
    var kept: seq<Message> := [];
    var totalChars := 0;
    var i := |messages|;
    assert messages[..i] == messages;
    while i > 0
      invariant 0 <= i <= |messages|
      invariant Pruned(messages, maxChars) == Pruned(messages[..i], maxChars - totalChars) + Reverse(kept)
    {
      var message := messages[i - 1];
      var contentLength := |message.content|;
      var remainingChars := maxChars - totalChars;
      if remainingChars <= 0 {
        PruneStopStep(messages, i, remainingChars, kept);
        break;
      }
      if contentLength > remainingChars {
        PruneCutStep(messages, i, remainingChars, kept);
        var cut := Message(message.role, message.content[..remainingChars]);
        kept := kept + [cut];
        break;
      }
      PruneKeepStep(messages, i, remainingChars, kept);
      kept := kept + [message];
      totalChars := totalChars + contentLength;
      i := i - 1;
      assert maxChars - totalChars == remainingChars - contentLength;
    }
    pruned := Reverse(kept);
    assert pruned == Pruned(messages, maxChars) by {
      if i == 0 {
        assert messages[..i] == [];
      }
    }
    PrunedWithinBudget(messages, maxChars);
    PrunedIsTrimmedSuffix(messages, maxChars);
    ghost var k :| SuffixFrom(Pruned(messages, maxChars), messages, k);
    assert SuffixFrom(pruned, messages, k);
  }

  /** The walk stops once the budget is used up. */
  lemma PruneStopStep(ms: seq<Message>, i: nat, remaining: int, kept: seq<Message>)
    requires i <= |ms| && remaining <= 0
    ensures Pruned(ms[..i], remaining) + Reverse(kept) == Reverse(kept)
  {
    assert Pruned(ms[..i], remaining) == [];
  }

  /** The entry that straddles the remaining budget is cut, and the walk
      stops with it. */
  lemma PruneCutStep(ms: seq<Message>, i: nat, remaining: int, kept: seq<Message>)
    requires 0 < i <= |ms| && 0 < remaining < |ms[i - 1].content|
    ensures Pruned(ms[..i], remaining) + Reverse(kept) ==
      Reverse(kept + [Message(ms[i - 1].role, ms[i - 1].content[..remaining])])
  {
    var cut := Message(ms[i - 1].role, ms[i - 1].content[..remaining]);
    PrunedStep(ms, i, remaining);
    ReverseSnoc(kept, cut);
  }

  /** An entry that fits is kept whole and the walk goes on to the older ones. */
  lemma PruneKeepStep(ms: seq<Message>, i: nat, remaining: int, kept: seq<Message>)
    requires 0 < i <= |ms| && 0 < remaining && |ms[i - 1].content| <= remaining
    ensures Pruned(ms[..i], remaining) + Reverse(kept) ==
      Pruned(ms[..i - 1], remaining - |ms[i - 1].content|) + Reverse(kept + [ms[i - 1]])
  {
    PrunedStep(ms, i, remaining);
    ReverseSnoc(kept, ms[i - 1]);
    AppendAssoc(Pruned(ms[..i - 1], remaining - |ms[i - 1].content|), [ms[i - 1]], Reverse(kept));
  }

  lemma AppendAssoc<T>(a: seq<T>, b: seq<T>, c: seq<T>)
    ensures (a + b) + c == a + (b + c)
  {
  }

  lemma ReverseSnoc<T>(s: seq<T>, x: T)
    ensures Reverse(s + [x]) == [x] + Reverse(s)
  {
    assert (s + [x])[..|s|] == s;
  }

  /** One step of the walk: the entry at `i - 1` is cut or kept whole. */
  lemma PrunedStep(ms: seq<Message>, i: nat, budget: int)
    requires 0 < i <= |ms| && budget > 0
    ensures Pruned(ms[..i], budget) ==
      if |ms[i - 1].content| > budget then [Message(ms[i - 1].role, ms[i - 1].content[..budget])]
      else Pruned(ms[..i - 1], budget - |ms[i - 1].content|) + [ms[i - 1]]
  {
    assert ms[..i][..i - 1] == ms[..i - 1];
  }

  lemma TotalLengthSnoc(ms: seq<Message>, m: Message)
    ensures TotalLength(ms + [m]) == TotalLength(ms) + |m.content|
  {
    assert (ms + [m])[..|ms|] == ms;
  }

  /** The kept content never exceeds the budget, and a budget of zero or
      less keeps nothing. */
  lemma {:induction false} PrunedWithinBudget(ms: seq<Message>, budget: int)
    ensures budget <= 0 ==> Pruned(ms, budget) == []
    ensures TotalLength(Pruned(ms, budget)) <= if budget <= 0 then 0 else budget
    decreases |ms|
  {
    if ms != [] && budget > 0 {
      var last := ms[|ms| - 1];
      if |last.content| <= budget {
        var init := ms[..|ms| - 1];
        PrunedWithinBudget(init, budget - |last.content|);
        TotalLengthSnoc(Pruned(init, budget - |last.content|), last);
      } else {
        TotalLengthSingle(Message(last.role, last.content[..budget]));
      }
    }
  }

  /** What is kept is a suffix of the history in its original order; only
      its oldest entry may be cut, and then only to a prefix of its content
      with its role unchanged. Every entry newer than that one is kept whole. */
  lemma {:induction false} PrunedIsTrimmedSuffix(ms: seq<Message>, budget: int)
    ensures exists k :: SuffixFrom(Pruned(ms, budget), ms, k)
    decreases |ms|
  {
    var r := Pruned(ms, budget);
    if ms == [] || budget <= 0 {
      assert SuffixFrom(r, ms, |ms|);
    } else {
      var n := |ms|;
      var last := ms[n - 1];
      if |last.content| > budget {
        assert SuffixFrom(r, ms, n - 1);
      } else {
        var init := ms[..n - 1];
        var r' := Pruned(init, budget - |last.content|);
        PrunedIsTrimmedSuffix(init, budget - |last.content|);
        var k :| SuffixFrom(r', init, k);
        assert r == r' + [last];
        forall j | 0 < j < |r|
          ensures r[j] == ms[k + j]
        {
          if j < |r'| {
            assert r[j] == r'[j] == init[k + j];
          }
        }
        assert SuffixFrom(r, ms, k);
      }
    }
  }

  /** Trimming stops only when the budget is used up: either everything was
      kept, or the kept content is exactly the budget. */
  lemma {:induction false} PrunedFillsBudget(ms: seq<Message>, budget: int)
    ensures Pruned(ms, budget) == ms || TotalLength(Pruned(ms, budget)) == if budget <= 0 then 0 else budget
    decreases |ms|
  {
    if ms != [] && budget > 0 {
      var n := |ms|;
      var last := ms[n - 1];
      var init := ms[..n - 1];
      if |last.content| <= budget {
        var rest := budget - |last.content|;
        var p := Pruned(init, rest);
        assert Pruned(ms, budget) == p + [last];
        PrunedFillsBudget(init, rest);
        if p == init {
          assert p + [last] == ms;
        } else {
          TotalLengthSnoc(p, last);
        }
      } else {
        var cut := Message(last.role, last.content[..budget]);
        assert Pruned(ms, budget) == [cut];
        TotalLengthSingle(cut);
      }
    }
  }

  lemma TotalLengthSingle(m: Message)
    ensures TotalLength([m]) == |m.content|
  {
    assert [m][..0] == [];
  }

  /** The whole history is kept exactly when its content fits the budget and,
      if it fills the budget exactly, its oldest entry is not empty (an empty
      oldest entry is dropped once nothing of the budget remains). */
  lemma {:induction false} PrunedKeepsAll(ms: seq<Message>, budget: int)
    requires ms != []
    ensures Pruned(ms, budget) == ms <==> KeepsAll(ms, budget)
    decreases |ms|
  {
    var n := |ms|;
    var last := ms[n - 1];
    var init := ms[..n - 1];
    if budget <= 0 {
      KeepsAllNoBudget(ms, budget);
    } else if |last.content| > budget {
      KeepsAllCut(ms, budget);
    } else if init == [] {
      KeepsAllSingle(ms, budget);
    } else {
      PrunedKeepsAll(init, budget - |last.content|);
      KeepsAllStep(ms, budget);
    }
  }

  /** The condition under which the whole history is kept. */
  predicate KeepsAll(ms: seq<Message>, budget: int)
    requires ms != []
  {
    TotalLength(ms) <= budget && (TotalLength(ms) < budget || |ms[0].content| > 0)
  }

  lemma KeepsAllNoBudget(ms: seq<Message>, budget: int)
    requires ms != [] && budget <= 0
    ensures Pruned(ms, budget) != ms && !KeepsAll(ms, budget)
  {
    if TotalLength(ms) <= budget {
      TotalLengthZero(ms);
    }
  }

  lemma KeepsAllCut(ms: seq<Message>, budget: int)
    requires ms != [] && 0 < budget < |ms[|ms| - 1].content|
    ensures Pruned(ms, budget) != ms && !KeepsAll(ms, budget)
  {
    var last := ms[|ms| - 1];
    TotalLengthSnoc(ms[..|ms| - 1], last);
    assert ms[..|ms| - 1] + [last] == ms;
    var r := Pruned(ms, budget);
    assert |r| == 1 && |r[0].content| == budget;
    if |ms| == 1 {
      assert r[0] != ms[0];
    }
  }

  lemma KeepsAllSingle(ms: seq<Message>, budget: int)
    requires |ms| == 1 && 0 < budget && |ms[0].content| <= budget
    ensures Pruned(ms, budget) == ms && KeepsAll(ms, budget)
  {
    assert ms[..0] == [];
    assert TotalLength(ms) == |ms[0].content|;
  }

  /** The newest entry fits, so the whole history is kept exactly when the
      older ones are kept whole under what is left of the budget. */
  lemma KeepsAllStep(ms: seq<Message>, budget: int)
    requires |ms| > 1 && 0 < budget && |ms[|ms| - 1].content| <= budget
    requires var init := ms[..|ms| - 1];
      Pruned(init, budget - |ms[|ms| - 1].content|) == init <==> KeepsAll(init, budget - |ms[|ms| - 1].content|)
    ensures Pruned(ms, budget) == ms <==> KeepsAll(ms, budget)
  {
    var n := |ms|;
    var last := ms[n - 1];
    var init := ms[..n - 1];
    var rest := Pruned(init, budget - |last.content|);
    assert init + [last] == ms;
    TotalLengthSnoc(init, last);
    assert init[0] == ms[0];
    assert Pruned(ms, budget) == rest + [last];
    if Pruned(ms, budget) == ms {
      assert rest == init by {
        assert (rest + [last])[..n - 1] == rest;
      }
    }
  }

  /** Content totalling nothing means every entry is empty. */
  lemma {:induction false} TotalLengthZero(ms: seq<Message>)
    requires ms != [] && TotalLength(ms) == 0
    ensures |ms[0].content| == 0
    decreases |ms|
  {
    if |ms| > 1 {
      TotalLengthZero(ms[..|ms| - 1]);
    }
  }

  /** A history whose content fits strictly within the budget is kept whole. */
  lemma PrunedKeepsAllUnderBudget(ms: seq<Message>, budget: int)
    requires TotalLength(ms) < budget
    ensures Pruned(ms, budget) == ms
  {
    if ms != [] {
      PrunedKeepsAll(ms, budget);
    }
  }

  /** Fitting the budget with equality is not enough: an empty oldest entry
      is dropped when the newer ones use the whole budget. */
  lemma EmptyOldestDroppedAtFullBudget()
    ensures var ms := [Message(User, ""), Message(Assistant, "x")];
      TotalLength(ms) == 1 && Pruned(ms, 1) == [Message(Assistant, "x")]
  {
    var ms := [Message(User, ""), Message(Assistant, "x")];
    assert ms[..1] == [Message(User, "")];
    assert ms[..1][..0] == [];
  }

  /** The newest entry always goes with a positive budget: whole if it
      fits, otherwise cut to the budget. */
  lemma PrunedKeepsNewest(ms: seq<Message>, budget: int)
    requires ms != [] && budget > 0
    ensures var r := Pruned(ms, budget);
      var last := ms[|ms| - 1];
      && r != []
      && r[|r| - 1].role == last.role
      && r[|r| - 1].content == if |last.content| <= budget then last.content else last.content[..budget]
  {
  }

  /** Trimming keeps only roles the history had. */
  lemma PrunedRoles(ms: seq<Message>, budget: int, role: Role)
    requires forall i :: 0 <= i < |ms| ==> ms[i].role != role
    ensures var r := Pruned(ms, budget);
      forall i :: 0 <= i < |r| ==> r[i].role != role
  {
    PrunedIsTrimmedSuffix(ms, budget);
    var r := Pruned(ms, budget);
    var k :| SuffixFrom(r, ms, k);
    forall i | 0 <= i < |r|
      ensures r[i].role != role
    {
      if i > 0 {
        assert r[i] == ms[k + i];
      }
    }
  }
}
