/**
 * The order in which the interview widget lists messages. The legacy list
 * sorts a copy of the messages by `sequence` with the engine's stable sort
 * (comparator `a.sequence - b.sequence`); the redesigned list shows them in
 * the order given, then the optimistic message, then the typing indicator.
 */
module MessageOrder {
  import opened JsCore
  import opened ApiTypes

  predicate SortedBySequence(s: seq<Message>) {
    forall i, j :: 0 <= i < j < |s| ==> s[i].sequence <= s[j].sequence
  }

  /** The messages of `s` whose sequence number is `k`, in their order in `s`. */
  function WithSequence(s: seq<Message>, k: int): seq<Message> {
    if |s| == 0 then []
    else (if s[0].sequence == k then [s[0]] else []) + WithSequence(s[1..], k)
  }

  /** Places `m` after every message whose sequence is not greater than its own. */
  function Insert(s: seq<Message>, m: Message): (r: seq<Message>)
    ensures |r| == |s| + 1
  {
    if |s| == 0 then [m]
    else if m.sequence < s[0].sequence then [m] + s
    else [s[0]] + Insert(s[1..], m)
  }

  lemma {:induction false} InsertSorted(s: seq<Message>, m: Message)
    requires SortedBySequence(s)
    ensures SortedBySequence(Insert(s, m))
    ensures Insert(s, m)[0] == m || (|s| > 0 && Insert(s, m)[0] == s[0])
  {
    if |s| > 0 && m.sequence >= s[0].sequence {
      InsertSorted(s[1..], m);
      var rest := Insert(s[1..], m);
      assert rest[0].sequence >= s[0].sequence;
    }
  }

  lemma {:induction false} InsertMultiset(s: seq<Message>, m: Message)
    ensures multiset(Insert(s, m)) == multiset(s) + multiset{m}
  {
    if |s| > 0 {
      assert s == [s[0]] + s[1..];
      if m.sequence >= s[0].sequence {
        InsertMultiset(s[1..], m);
      }
    }
  }

  /** `[...messages].sort((a, b) => a.sequence - b.sequence)`: a stable sort of a copy
      (the input sequence is a value and is left as it was). */
  function SortBySequence(s: seq<Message>): (r: seq<Message>)
    ensures |r| == |s|
  {
    if |s| == 0 then [] else Insert(SortBySequence(s[..|s| - 1]), s[|s| - 1])
  }

  /** The output is in ascending sequence order. */
  lemma {:induction false} SortSorts(s: seq<Message>)
    ensures SortedBySequence(SortBySequence(s))
  {
    if |s| > 0 {
      var init, last := s[..|s| - 1], s[|s| - 1];
      var si := SortBySequence(init);
      assert SortBySequence(s) == Insert(si, last);
      SortSorts(init);
      InsertSorted(si, last);
    }
  }

  /** The output is a permutation of the input. */
  lemma {:induction false} SortPermutes(s: seq<Message>)
    ensures multiset(SortBySequence(s)) == multiset(s)
  {
    if |s| > 0 {
      var init, last := s[..|s| - 1], s[|s| - 1];
      assert s == init + [last];
      var si := SortBySequence(init);
      calc {
        multiset(SortBySequence(s));
        multiset(Insert(si, last));
        { InsertMultiset(si, last); }
        multiset(si) + multiset{last};
        { SortPermutes(init); }
        multiset(init) + multiset{last};
        multiset(init + [last]);
      }
    }
  }

  // ---------------------------------------------------------------------
  // Stability: messages with equal sequence numbers keep their relative order
  // ---------------------------------------------------------------------

  lemma {:induction false} WithSequenceAppend(a: seq<Message>, b: seq<Message>, k: int)
    ensures WithSequence(a + b, k) == WithSequence(a, k) + WithSequence(b, k)
  {
    if |a| > 0 {
      assert (a + b)[1..] == a[1..] + b;
      WithSequenceAppend(a[1..], b, k);
    } else {
      assert a + b == b;
    }
  }

  lemma {:induction false} WithSequenceAbove(s: seq<Message>, k: int)
    requires forall i :: 0 <= i < |s| ==> s[i].sequence > k
    ensures WithSequence(s, k) == []
  {
    if |s| > 0 {
      WithSequenceAbove(s[1..], k);
    }
  }

  lemma WithSequenceSingle(m: Message, k: int)
    ensures WithSequence([m], k) == if m.sequence == k then [m] else []
  {
    assert [m][1..] == [];
  }

  lemma InsertBeforeHead(s: seq<Message>, m: Message, k: int)
    requires SortedBySequence(s)
    requires |s| > 0 && m.sequence < s[0].sequence
    ensures WithSequence([m] + s, k) == WithSequence(s, k) + (if m.sequence == k then [m] else [])
  {
    WithSequenceAppend([m], s, k);
    WithSequenceSingle(m, k);
    if m.sequence == k {
      WithSequenceAbove(s, k);
    }
  }

  lemma {:induction false} InsertKeepsGroups(s: seq<Message>, m: Message, k: int)
    requires SortedBySequence(s)
    ensures WithSequence(Insert(s, m), k) == WithSequence(s, k) + (if m.sequence == k then [m] else [])
  {
    if |s| == 0 {
      WithSequenceSingle(m, k);
    } else if m.sequence < s[0].sequence {
      InsertBeforeHead(s, m, k);
    } else {
      InsertKeepsGroups(s[1..], m, k);
      var rest := Insert(s[1..], m);
      assert Insert(s, m) == [s[0]] + rest;
      WithSequenceAppend([s[0]], rest, k);
      WithSequenceAppend([s[0]], s[1..], k);
      assert s == [s[0]] + s[1..];
    }
  }

  /** The sort is stable: for every sequence number, the messages carrying it appear
      in the output in the same relative order as in the input. */
  lemma {:induction false} SortIsStable(s: seq<Message>, k: int)
    ensures WithSequence(SortBySequence(s), k) == WithSequence(s, k)
  {
    if |s| > 0 {
      var init, last := s[..|s| - 1], s[|s| - 1];
      var si := SortBySequence(init);
      assert SortBySequence(s) == Insert(si, last);
      SortIsStable(init, k);
      SortSorts(init);
      InsertKeepsGroups(si, last, k);
      WithSequenceAppend(init, [last], k);
      WithSequenceSingle(last, k);
      calc {
        WithSequence(SortBySequence(s), k);
        WithSequence(si, k) + (if last.sequence == k then [last] else []);
        WithSequence(init, k) + WithSequence([last], k);
        WithSequence(init + [last], k);
        { assert s == init + [last]; }
        WithSequence(s, k);
      }
    }
  }

  /** In a sorted list the first message opens the group of the smallest sequence
      number, and no smaller number has a group. */
  lemma HeadGroup(s: seq<Message>)
    requires SortedBySequence(s) && |s| > 0
    ensures WithSequence(s, s[0].sequence) == [s[0]] + WithSequence(s[1..], s[0].sequence)
    ensures forall k :: k < s[0].sequence ==> WithSequence(s, k) == []
  {
    forall k | k < s[0].sequence
      ensures WithSequence(s, k) == []
    {
      WithSequenceAbove(s, k);
    }
  }

  /** A list sorted by sequence is determined by its groups of equal sequence number. */
  lemma {:induction false} SortedDeterminedByGroups(a: seq<Message>, b: seq<Message>)
    requires SortedBySequence(a) && SortedBySequence(b)
    requires forall k :: WithSequence(a, k) == WithSequence(b, k)
    ensures a == b
    decreases |a| + |b|
  {
    if |a| > 0 {
      HeadGroup(a);
    }
    if |b| > 0 {
      HeadGroup(b);
    }
    if |a| == 0 && |b| == 0 {
    } else if |a| == 0 || |b| == 0 {
      assert false;
    } else if a[0].sequence != b[0].sequence {
      assert false;
    } else {
      var k0 := a[0].sequence;
      assert a[0] == WithSequence(a, k0)[0] == WithSequence(b, k0)[0] == b[0];
      forall k
        ensures WithSequence(a[1..], k) == WithSequence(b[1..], k)
      {
        if k == k0 {
          assert WithSequence(a, k)[1..] == WithSequence(a[1..], k);
          assert WithSequence(b, k)[1..] == WithSequence(b[1..], k);
        } else {
          assert WithSequence(a, k) == WithSequence(a[1..], k);
          assert WithSequence(b, k) == WithSequence(b[1..], k);
        }
      }
      SortedDeterminedByGroups(a[1..], b[1..]);
      assert a == [a[0]] + a[1..];
      assert b == [b[0]] + b[1..];
    }
  }

  /** Arrival order matters only within a group of equal sequence numbers: two inputs
      sort to the same list exactly when, for every sequence number, they carry the
      same messages with it in the same order. */
  lemma SortDependsOnlyOnGroups(a: seq<Message>, b: seq<Message>)
    ensures SortBySequence(a) == SortBySequence(b) ==> forall k :: WithSequence(a, k) == WithSequence(b, k)
    ensures (forall k :: WithSequence(a, k) == WithSequence(b, k)) ==> SortBySequence(a) == SortBySequence(b)
  {
    if SortBySequence(a) == SortBySequence(b) {
      SameSortSameGroups(a, b);
    }
    if forall k :: WithSequence(a, k) == WithSequence(b, k) {
      SameGroupsSameSort(a, b);
    }
  }

  lemma SameSortSameGroups(a: seq<Message>, b: seq<Message>)
    requires SortBySequence(a) == SortBySequence(b)
    ensures forall k :: WithSequence(a, k) == WithSequence(b, k)
  {
    forall k
      ensures WithSequence(a, k) == WithSequence(b, k)
    {
      SortIsStable(a, k);
      SortIsStable(b, k);
    }
  }

  lemma SameGroupsSameSort(a: seq<Message>, b: seq<Message>)
    requires forall k :: WithSequence(a, k) == WithSequence(b, k)
    ensures SortBySequence(a) == SortBySequence(b)
  {
    var sa, sb := SortBySequence(a), SortBySequence(b);
    forall k
      ensures WithSequence(sa, k) == WithSequence(sb, k)
    {
      SortIsStable(a, k);
      SortIsStable(b, k);
    }
    SortSorts(a);
    SortSorts(b);
    SortedDeterminedByGroups(sa, sb);
  }

  // ---------------------------------------------------------------------
  // Distinct sequence numbers: the output does not depend on arrival order
  // ---------------------------------------------------------------------

  predicate DistinctSequences(s: seq<Message>) {
    forall i, j :: 0 <= i < j < |s| ==> s[i].sequence != s[j].sequence
  }

  lemma {:induction false} WithSequenceMultiset(s: seq<Message>, k: int, x: Message)
    ensures multiset(WithSequence(s, k))[x] == if x.sequence == k then multiset(s)[x] else 0
  {
    if |s| > 0 {
      WithSequenceMultiset(s[1..], k, x);
      assert s == [s[0]] + s[1..];
    }
  }

  lemma {:induction false} WithSequenceAbsent(s: seq<Message>, k: int)
    requires forall i :: 0 <= i < |s| ==> s[i].sequence != k
    ensures WithSequence(s, k) == []
  {
    if |s| > 0 {
      WithSequenceAbsent(s[1..], k);
    }
  }

  lemma {:induction false} DistinctGroupsAreSmall(s: seq<Message>, k: int)
    requires DistinctSequences(s)
    ensures |WithSequence(s, k)| <= 1
  {
    if |s| > 0 {
      if s[0].sequence == k {
        WithSequenceAbsent(s[1..], k);
      } else {
        DistinctGroupsAreSmall(s[1..], k);
      }
    }
  }

  /** With distinct sequence numbers the sorted list is the same whatever order the
      messages arrived in. */
  lemma SortIgnoresArrivalOrder(a: seq<Message>, b: seq<Message>)
    requires multiset(a) == multiset(b)
    requires DistinctSequences(a)
    ensures SortBySequence(a) == SortBySequence(b)
  {
    forall k
      ensures WithSequence(a, k) == WithSequence(b, k)
    {
      SameGroupWhenDistinct(a, b, k);
    }
    SortDependsOnlyOnGroups(a, b);
  }

  lemma SameGroupWhenDistinct(a: seq<Message>, b: seq<Message>, k: int)
    requires multiset(a) == multiset(b)
    requires DistinctSequences(a)
    ensures WithSequence(a, k) == WithSequence(b, k)
  {
    var ga, gb := WithSequence(a, k), WithSequence(b, k);
    forall x
      ensures multiset(ga)[x] == multiset(gb)[x]
    {
      WithSequenceMultiset(a, k, x);
      WithSequenceMultiset(b, k, x);
    }
    assert multiset(ga) == multiset(gb);
    DistinctGroupsAreSmall(a, k);
    SmallSeqsEqualByMultiset(ga, gb);
  }

  /** Two sequences of length at most one with the same elements are equal. */
  lemma SmallSeqsEqualByMultiset(x: seq<Message>, y: seq<Message>)
    requires |x| <= 1 && multiset(x) == multiset(y)
    ensures x == y
  {
    assert |y| == |multiset(y)|;
    if |x| == 1 {
      assert y[0] in multiset(x);
    }
  }

  // ---------------------------------------------------------------------
  // What the two lists render
  // ---------------------------------------------------------------------

  /** One rendered row: a message bubble or the typing indicator. */
  datatype Item = Bubble(message: Message) | Typing

  function Bubbles(s: seq<Message>): (r: seq<Item>)
    ensures |r| == |s|
    ensures forall i :: 0 <= i < |s| ==> r[i] == Bubble(s[i])
  {
    seq(|s|, i requires 0 <= i < |s| => Bubble(s[i]))
  }

  /** The legacy container: the sorted list, then the typing indicator while a send
      is pending. */
  function RenderLegacy(messages: seq<Message>, isPending: bool): (r: seq<Item>)
    ensures |r| == |messages| + (if isPending then 1 else 0)
    ensures forall i :: 0 <= i < |messages| ==> r[i].Bubble?
    ensures SortedBySequence(seq(|messages|, i requires 0 <= i < |messages| => r[i].message))
    ensures multiset(seq(|messages|, i requires 0 <= i < |messages| => r[i].message)) == multiset(messages)
    ensures isPending <==> |r| > 0 && r[|r| - 1] == Typing
  {
    var sorted := SortBySequence(messages);
    SortSorts(messages);
    SortPermutes(messages);
    var r := Bubbles(sorted) + (if isPending then [Typing] else []);
    assert seq(|messages|, i requires 0 <= i < |messages| => r[i].message) == sorted;
    r
  }

  /** The redesigned list: the messages in the given order (no sorting), then the
      optimistic message if any, then the typing indicator if a reply is awaited. */
  function RenderRedesign(messages: seq<Message>, optimistic: Option<Message>, isTyping: bool): (r: seq<Item>)
    ensures |r| == |messages| + (if optimistic.Some? then 1 else 0) + (if isTyping then 1 else 0)
    ensures forall i :: 0 <= i < |messages| ==> r[i] == Bubble(messages[i])
    ensures optimistic.Some? ==> r[|messages|] == Bubble(optimistic.value)
    ensures isTyping <==> |r| > 0 && r[|r| - 1] == Typing
    ensures forall i :: 0 <= i < |r| - 1 ==> r[i].Bubble?
  {
    Bubbles(messages)
      + (if optimistic.Some? then [Bubble(optimistic.value)] else [])
      + (if isTyping then [Typing] else [])
  }

  /** The number of message bubbles the redesigned list shows. */
  function BubbleCount(r: seq<Item>): nat {
    if |r| == 0 then 0 else BubbleCount(r[..|r| - 1]) + (if r[|r| - 1].Bubble? then 1 else 0)
  }

  lemma {:induction false} BubbleCountOfBubbles(s: seq<Message>)
    ensures BubbleCount(Bubbles(s)) == |s|
  {
    if |s| > 0 {
      BubbleCountOfBubbles(s[..|s| - 1]);
      assert Bubbles(s)[..|s| - 1] == Bubbles(s[..|s| - 1]);
    }
  }

  /** The redesigned list shows n messages plus one for a pending optimistic message. */
  lemma RedesignBubbleCount(messages: seq<Message>, optimistic: Option<Message>, isTyping: bool)
    ensures BubbleCount(RenderRedesign(messages, optimistic, isTyping))
         == |messages| + (if optimistic.Some? then 1 else 0)
  {
    var b := Bubbles(messages);
    var withOpt := b + (if optimistic.Some? then [Bubble(optimistic.value)] else []);
    var r := RenderRedesign(messages, optimistic, isTyping);
    BubbleCountOfBubbles(messages);
    if optimistic.Some? {
      assert withOpt[..|withOpt| - 1] == b;
      assert BubbleCount(withOpt) == |messages| + 1;
    } else {
      assert withOpt == b;
    }
    if isTyping {
      assert r[..|r| - 1] == withOpt;
    } else {
      assert r == withOpt;
    }
  }
}
