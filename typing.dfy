/**
 * The typed-text headline: an endless, cancellable loop that types a phrase one
 * character at a time, deletes it again, and moves on to the next phrase.
 *
 * The host owns the displayed text, the phrase index and the running flag; the
 * cycle reaches them only through calls. The model records those calls, in order,
 * as a trace. Delays (`tick` and the timeouts) are steps that change nothing and are
 * left out. The running flag is external: it reads true for the first `budget`
 * reads and false from then on, which is how a cancellation looks from inside the loop.
 */
module TypingCycle {

  /** A UTF-16 code unit: the unit JavaScript's `length` and `slice` count. */
  newtype CodeUnit = u: int | 0 <= u < 0x1_0000

  /** A phrase or a displayed text, as the page's strings hold it. */
  type Text = seq<CodeUnit>

  /** One call the cycle makes on its host. */
  datatype Call =
    | Check(running: bool)    // a read of the running flag, with the answer it got
    | Display(text: Text)   // the displayed text is set
    | SetIndex(index: nat)    // the phrase index is set

  /** Where the cycle stands: each phase is the point just before a read of the running flag. */
  datatype Phase =
    | Head               // the test of the outer loop
    | Typing(i: nat)     // the guard of the typing loop, about to show the first i characters
    | Typed              // the test after typing
    | Deleting(j: int)   // the guard of the deleting loop, about to show the first j characters
    | Deleted            // the test after deleting

  predicate PhaseFits(text: Text, p: Phase) {
    match p
    case Typing(i) => i <= |text| + 1
    case Deleting(j) => -1 <= j <= |text|
    case _ => true
  }

  function Rank(p: Phase): nat {
    match p
    case Head => 0
    case Typing(_) => 4
    case Typed => 3
    case Deleting(_) => 2
    case Deleted => 1
  }

  /**
   * The calls the cycle makes from phase `p` on phrase `index` when the running flag
   * will read true `budget` more times. Loop guards test the counter before the flag,
   * so a guard whose counter is out of range reads nothing.
   */
  function Run(texts: seq<Text>, index: nat, p: Phase, budget: nat): seq<Call>
    requires index < |texts| && PhaseFits(texts[index], p)
    decreases budget, Rank(p)
  {
    var text := texts[index];
    match p
    case Head =>
      if budget == 0 then [Check(false)]
      else [Check(true)] + Run(texts, index, Typing(0), budget - 1)
    case Typing(i) =>
      if i > |text| then Run(texts, index, Typed, budget)
      else if budget == 0 then [Check(false)] + Run(texts, index, Typed, 0)
      else [Check(true), Display(text[..i])] + Run(texts, index, Typing(i + 1), budget - 1)
    case Typed =>
      if budget == 0 then [Check(false)]
      else [Check(true)] + Run(texts, index, Deleting(|text|), budget - 1)
    case Deleting(j) =>
      if j < 0 then Run(texts, index, Deleted, budget)
      else if budget == 0 then [Check(false)] + Run(texts, index, Deleted, 0)
      else [Check(true), Display(text[..j])] + Run(texts, index, Deleting(j - 1), budget - 1)
    case Deleted =>
      if budget == 0 then [Check(false)]
      else
        var next := (index + 1) % |texts|;
        [Check(true), SetIndex(next)] + Run(texts, next, Head, budget - 1)
  }

  /** The phrase index after the calls `calls`, starting from `start`: the last index set, if any. */
  function IndexAfter(start: nat, calls: seq<Call>): nat
    decreases calls
  {
    if calls == [] then start
    else IndexAfter(if calls[0].SetIndex? then calls[0].index else start, calls[1..])
  }

  lemma {:induction false} IndexAfterConcat(start: nat, a: seq<Call>, b: seq<Call>)
    ensures IndexAfter(start, a + b) == IndexAfter(IndexAfter(start, a), b)
    decreases a
  {
    if a != [] {
      var next := if a[0].SetIndex? then a[0].index else start;
      assert (a + b)[0] == a[0];
      assert (a + b)[1..] == a[1..] + b;
      assert IndexAfter(start, a + b) == IndexAfter(next, a[1..] + b);
      IndexAfterConcat(next, a[1..], b);
    } else {
      assert a + b == b;
    }
  }

  /** Calls that set no index leave the index where it was. */
  lemma {:induction false} IndexAfterNoSet(start: nat, step: seq<Call>)
    requires forall k :: 0 <= k < |step| ==> !step[k].SetIndex?
    ensures IndexAfter(start, step) == start
    decreases step
  {
    if step != [] {
      IndexAfterNoSet(start, step[1..]);
    }
  }

  /** Appending `step`, which sets no index, to the recorded calls; `rest` is what still follows. */
  lemma Record(start: nat, calls: seq<Call>, step: seq<Call>, rest: seq<Call>)
    requires forall k :: 0 <= k < |step| ==> !step[k].SetIndex?
    ensures calls + (step + rest) == calls + step + rest
    ensures IndexAfter(start, calls + step) == IndexAfter(start, calls)
  {
    IndexAfterConcat(start, calls, step);
    IndexAfterNoSet(IndexAfter(start, calls), step);
  }

  /** Appending a true read and the setting of phrase index `next`. */
  lemma RecordAdvance(start: nat, calls: seq<Call>, next: nat, rest: seq<Call>)
    ensures calls + ([Check(true), SetIndex(next)] + rest) == calls + [Check(true), SetIndex(next)] + rest
    ensures IndexAfter(start, calls + [Check(true), SetIndex(next)]) == next
  {
    var step := [Check(true), SetIndex(next)];
    IndexAfterConcat(start, calls, step);
    assert step[1..] == [SetIndex(next)] && step[1..][1..] == [];
    assert IndexAfter(IndexAfter(start, calls), step) == IndexAfter(IndexAfter(start, calls), [SetIndex(next)]);
    assert IndexAfter(IndexAfter(start, calls), [SetIndex(next)]) == IndexAfter(next, []);
  }

  /**
   * The typing loop of one phrase: for i = 0 up to |text|, while the flag reads true,
   * show the first i characters. The guard `i <= text.length && isTypingRef()` reads the
   * flag only while the counter is in range; the flag reads true exactly while reads are
   * left, and each read is recorded where it happens: at the head of the body when it
   * came back true, after the loop when it came back false.
   */
  method TypeLoop(texts: seq<Text>, index: nat, calls0: seq<Call>, left0: nat, ghost start: nat)
    returns (calls: seq<Call>, left: nat)
    requires index < |texts| && index == IndexAfter(start, calls0)
    ensures calls + Run(texts, index, Typed, left) == calls0 + Run(texts, index, Typing(0), left0)
    ensures left <= left0 && index == IndexAfter(start, calls)
  {
    var text := texts[index];
    ghost var spec := calls0 + Run(texts, index, Typing(0), left0);
    calls, left := calls0, left0;
    var i: nat := 0;
    while i <= |text| && left > 0
      invariant i <= |text| + 1 && left <= left0
      invariant calls + Run(texts, index, Typing(i), left) == spec
      invariant index == IndexAfter(start, calls)
      decreases |text| + 1 - i
    {
      Record(start, calls, [Check(true), Display(text[..i])], Run(texts, index, Typing(i + 1), left - 1));
      calls, left := calls + [Check(true), Display(text[..i])], left - 1;
      i := i + 1;
    }
    if i <= |text| {
      Record(start, calls, [Check(false)], Run(texts, index, Typed, 0));
      calls := calls + [Check(false)];
    }
  }

  /**
   * The deleting loop of one phrase: for j = |text| down to 0, while the flag reads true,
   * show the first j characters. Its guard reads the flag as the typing loop's does.
   */
  method DeleteLoop(texts: seq<Text>, index: nat, calls0: seq<Call>, left0: nat, ghost start: nat)
    returns (calls: seq<Call>, left: nat)
    requires index < |texts| && index == IndexAfter(start, calls0)
    ensures calls + Run(texts, index, Deleted, left) == calls0 + Run(texts, index, Deleting(|texts[index]|), left0)
    ensures left <= left0 && index == IndexAfter(start, calls)
  {
    var text := texts[index];
    ghost var spec := calls0 + Run(texts, index, Deleting(|text|), left0);
    calls, left := calls0, left0;
    var j: int := |text|;
    while j >= 0 && left > 0
      invariant -1 <= j <= |text| && left <= left0
      invariant calls + Run(texts, index, Deleting(j), left) == spec
      invariant index == IndexAfter(start, calls)
      decreases j + 1
    {
      Record(start, calls, [Check(true), Display(text[..j])], Run(texts, index, Deleting(j - 1), left - 1));
      calls, left := calls + [Check(true), Display(text[..j])], left - 1;
      j := j - 1;
    }
    if j >= 0 {
      Record(start, calls, [Check(false)], Run(texts, index, Deleted, 0));
      calls := calls + [Check(false)];
    }
  }

  /**
   * One round of the outer loop up to the deletion: the loop's test came back true, the
   * phrase is typed, and the `break` test after typing is made. `stopped` says that test
   * came back false, which ends the cycle with every call of `spec` made.
   */
  method TypeHalf(texts: seq<Text>, index: nat, calls0: seq<Call>, left0: nat, ghost start: nat, ghost spec: seq<Call>)
    returns (calls: seq<Call>, left: nat, stopped: bool)
    requires index < |texts| && index == IndexAfter(start, calls0)
    requires left0 > 0 && calls0 + Run(texts, index, Head, left0) == spec
    ensures index == IndexAfter(start, calls) && left < left0
    ensures stopped ==> calls == spec
    ensures !stopped ==> calls + Run(texts, index, Deleting(|texts[index]|), left) == spec
  {
    Record(start, calls0, [Check(true)], Run(texts, index, Typing(0), left0 - 1));
    calls, left := calls0 + [Check(true)], left0 - 1;
    calls, left := TypeLoop(texts, index, calls, left, start);
    stopped := left == 0;
    if stopped {
      Record(start, calls, [Check(false)], []);
      calls := calls + [Check(false)];
    } else {
      Record(start, calls, [Check(true)], Run(texts, index, Deleting(|texts[index]|), left - 1));
      calls, left := calls + [Check(true)], left - 1;
    }
  }

  /**
   * The rest of the round: the phrase is deleted, the `break` test after deleting is
   * made, and the index moves on to the next phrase.
   */
  method DeleteHalf(texts: seq<Text>, index0: nat, calls0: seq<Call>, left0: nat, ghost start: nat, ghost spec: seq<Call>)
    returns (calls: seq<Call>, left: nat, index: nat, stopped: bool)
    requires index0 < |texts| && index0 == IndexAfter(start, calls0)
    requires calls0 + Run(texts, index0, Deleting(|texts[index0]|), left0) == spec
    ensures index < |texts| && index == IndexAfter(start, calls) && left <= left0
    ensures stopped ==> calls == spec
    ensures !stopped ==> calls + Run(texts, index, Head, left) == spec && index == (index0 + 1) % |texts|
  {
    index := index0;
    calls, left := DeleteLoop(texts, index, calls0, left0, start);
    stopped := left == 0;
    if stopped {
      Record(start, calls, [Check(false)], []);
      calls := calls + [Check(false)];
    } else {
      var next := (index + 1) % |texts|;
      RecordAdvance(start, calls, next, Run(texts, next, Head, left - 1));
      calls, left := calls + [Check(true), SetIndex(next)], left - 1;
      index := next;
    }
  }

  /**
   * The cycle itself, started on phrase `start`. It returns every call it made on its
   * host and the phrase index it leaves behind. Each test of the flag that comes back
   * false ends the cycle: the loop's own test, or one of the two `break` tests.
   */
  method StartTypingCycle(texts: seq<Text>, start: nat, budget: nat) returns (calls: seq<Call>, index: nat)
    requires start < |texts|
    ensures calls == Run(texts, start, Head, budget)
    ensures index < |texts| && index == IndexAfter(start, calls)
  {
    ghost var spec := Run(texts, start, Head, budget);
    calls, index := [], start;
    var left := budget;
    assert [] + spec == spec;
    while left > 0
      invariant index < |texts| && index == IndexAfter(start, calls)
      invariant calls + Run(texts, index, Head, left) == spec
      decreases left
    {
      var stopped;
      calls, left, stopped := TypeHalf(texts, index, calls, left, start, spec);
      if stopped {
        return;
      }
      calls, left, index, stopped := DeleteHalf(texts, index, calls, left, start, spec);
      if stopped {
        return;
      }
    }
    Record(start, calls, [Check(false)], []);
    calls := calls + [Check(false)];
  }

  // ---------------------------------------------------------------------------
  // Cancellation: once the flag reads false, nothing but false reads follow.

  /** `calls` ends with a false read, and after the first false read only false reads follow. */
  predicate StopsOnCancel(calls: seq<Call>) {
    && |calls| > 0
    && calls[|calls| - 1] == Check(false)
    && forall k, m :: 0 <= k < m < |calls| && calls[k] == Check(false) ==> calls[m] == Check(false)
  }

  lemma {:induction false} StopsOnCancelAfterLive(h: seq<Call>, r: seq<Call>)
    requires forall k :: 0 <= k < |h| ==> h[k] != Check(false)
    requires StopsOnCancel(r)
    ensures StopsOnCancel(h + r)
  {
    var c := h + r;
    forall k, m | 0 <= k < m < |c| && c[k] == Check(false)
      ensures c[m] == Check(false)
    {
      assert k >= |h| && c[k] == r[k - |h|] && c[m] == r[m - |h|];
    }
  }

  lemma {:induction false} RunStopsOnCancel(texts: seq<Text>, index: nat, p: Phase, budget: nat)
    requires index < |texts| && PhaseFits(texts[index], p)
    ensures StopsOnCancel(Run(texts, index, p, budget))
    decreases budget, Rank(p)
  {
    var text := texts[index];
    match p
    case Head =>
      if budget > 0 {
        RunStopsOnCancel(texts, index, Typing(0), budget - 1);
        StopsOnCancelAfterLive([Check(true)], Run(texts, index, Typing(0), budget - 1));
      }
    case Typing(i) =>
      if i > |text| {
        RunStopsOnCancel(texts, index, Typed, budget);
      } else if budget > 0 {
        RunStopsOnCancel(texts, index, Typing(i + 1), budget - 1);
        StopsOnCancelAfterLive([Check(true), Display(text[..i])], Run(texts, index, Typing(i + 1), budget - 1));
      }
    case Typed =>
      if budget > 0 {
        RunStopsOnCancel(texts, index, Deleting(|text|), budget - 1);
        StopsOnCancelAfterLive([Check(true)], Run(texts, index, Deleting(|text|), budget - 1));
      }
    case Deleting(j) =>
      if j < 0 {
        RunStopsOnCancel(texts, index, Deleted, budget);
      } else if budget > 0 {
        RunStopsOnCancel(texts, index, Deleting(j - 1), budget - 1);
        StopsOnCancelAfterLive([Check(true), Display(text[..j])], Run(texts, index, Deleting(j - 1), budget - 1));
      }
    case Deleted =>
      if budget > 0 {
        var next := (index + 1) % |texts|;
        RunStopsOnCancel(texts, next, Head, budget - 1);
        StopsOnCancelAfterLive([Check(true), SetIndex(next)], Run(texts, next, Head, budget - 1));
      }
  }

  // ---------------------------------------------------------------------------
  // What is shown is a prefix of the current phrase; the index moves one step round the list.

  /** Call `c`, made while the phrase index is `current`, fits the phrase list. */
  predicate CallFits(texts: seq<Text>, current: nat, c: Call) {
    && current < |texts|
    && match c
       case Display(s) => s <= texts[current]
       case SetIndex(v) => v == (current + 1) % |texts|
       case Check(_) => true
  }

  /** Every call of `calls`, made from phrase `start` on, fits the phrase list. */
  predicate Faithful(texts: seq<Text>, start: nat, calls: seq<Call>) {
    forall k :: 0 <= k < |calls| ==> CallFits(texts, IndexAfter(start, calls[..k]), calls[k])
  }

  lemma {:induction false} FaithfulConcat(texts: seq<Text>, start: nat, h: seq<Call>, r: seq<Call>)
    requires Faithful(texts, start, h)
    requires Faithful(texts, IndexAfter(start, h), r)
    ensures Faithful(texts, start, h + r)
  {
    var c := h + r;
    forall k | 0 <= k < |c|
      ensures CallFits(texts, IndexAfter(start, c[..k]), c[k])
    {
      if k < |h| {
        assert c[..k] == h[..k] && c[k] == h[k];
      } else {
        assert c[..k] == h + r[..k - |h|] && c[k] == r[k - |h|];
        IndexAfterConcat(start, h, r[..k - |h|]);
      }
    }
  }

  lemma {:induction false} RunFaithful(texts: seq<Text>, index: nat, p: Phase, budget: nat)
    requires index < |texts| && PhaseFits(texts[index], p)
    ensures Faithful(texts, index, Run(texts, index, p, budget))
    decreases budget, Rank(p)
  {
    var text := texts[index];
    if budget == 0 {
      RunZeroFaithful(texts, index, p);
      return;
    }
    var h: seq<Call>, q: Phase, next: nat := [], p, index;
    match p {
    case Head =>
      h, q := [Check(true)], Typing(0);
      ShortFaithful(texts, index, Check(true), Check(true));
    case Typing(i) =>
      if i > |text| {
        RunFaithful(texts, index, Typed, budget);
        return;
      }
      h, q := [Check(true), Display(text[..i])], Typing(i + 1);
      ShortFaithful(texts, index, Check(true), Display(text[..i]));
    case Typed =>
      h, q := [Check(true)], Deleting(|text|);
      ShortFaithful(texts, index, Check(true), Check(true));
    case Deleting(j) =>
      if j < 0 {
        RunFaithful(texts, index, Deleted, budget);
        return;
      }
      h, q := [Check(true), Display(text[..j])], Deleting(j - 1);
      ShortFaithful(texts, index, Check(true), Display(text[..j]));
    case Deleted =>
      next := (index + 1) % |texts|;
      h, q := [Check(true), SetIndex(next)], Head;
      ShortFaithful(texts, index, Check(true), SetIndex(next));
    }
    RunFaithful(texts, next, q, budget - 1);
    FaithfulConcat(texts, index, h, Run(texts, next, q, budget - 1));
  }

  /** With the flag already false, the one or two false reads fit the phrase list. */
  lemma {:induction false} RunZeroFaithful(texts: seq<Text>, index: nat, p: Phase)
    requires index < |texts| && PhaseFits(texts[index], p)
    ensures Faithful(texts, index, Run(texts, index, p, 0))
    decreases Rank(p)
  {
    ShortFaithful(texts, index, Check(false), Check(false));
    match p
    case Typing(i) =>
      if i > |texts[index]| {
        RunZeroFaithful(texts, index, Typed);
      } else {
        assert Run(texts, index, p, 0) == [Check(false), Check(false)];
      }
    case Deleting(j) =>
      if j < 0 {
        RunZeroFaithful(texts, index, Deleted);
      } else {
        assert Run(texts, index, p, 0) == [Check(false), Check(false)];
      }
    case _ =>
  }

  /** A read followed by one fitting call, and a single read, fit the phrase list. */
  lemma ShortFaithful(texts: seq<Text>, index: nat, a: Call, b: Call)
    requires a.Check? && CallFits(texts, index, b)
    ensures Faithful(texts, index, [a]) && Faithful(texts, index, [a, b])
    ensures IndexAfter(index, [a]) == index
    ensures IndexAfter(index, [a, b]) == if b.SetIndex? then b.index else index
  {
    assert [a, b][..1] == [a] && [a][..0] == [] && [a, b][..0] == [];
    assert [a][1..] == [] && [a, b][1..] == [b] && [b][1..] == [];
    assert IndexAfter(index, [a, b]) == IndexAfter(index, [b]);
    assert IndexAfter(index, [b]) == IndexAfter(if b.SetIndex? then b.index else index, []);
  }

  // ---------------------------------------------------------------------------
  // One uninterrupted pass: every prefix up, every prefix down, then the next phrase.

  /** The texts shown while `text` is typed: its prefixes of length 0, 1, ..., |text|. */
  function Growing(text: Text): (r: seq<Text>)
    ensures |r| == |text| + 1
    ensures forall k :: 0 <= k < |r| ==> |r[k]| == k && r[k] <= text
  {
    seq(|text| + 1, k requires 0 <= k <= |text| => text[..k])
  }

  /** The texts shown while `text` is deleted: its prefixes of length |text|, ..., 1, 0. */
  function Shrinking(text: Text): (r: seq<Text>)
    ensures |r| == |text| + 1
    ensures forall k :: 0 <= k < |r| ==> |r[k]| == |text| - k && r[k] <= text
  {
    seq(|text| + 1, k requires 0 <= k <= |text| => text[..|text| - k])
  }

  /** Each of `shown` in turn, each one after a flag read that came back true. */
  function Shows(shown: seq<Text>): seq<Call>
  {
    if shown == [] then [] else [Check(true), Display(shown[0])] + Shows(shown[1..])
  }

  /** The calls of one pass over `text` that no cancellation interrupts, ending with phrase `next`. */
  function Pass(text: Text, next: nat): seq<Call>
  {
    [Check(true)] + Shows(Growing(text)) + [Check(true)] + Shows(Shrinking(text)) + [Check(true), SetIndex(next)]
  }

  lemma {:induction false} TypingUninterrupted(texts: seq<Text>, index: nat, i: nat, budget: nat)
    requires index < |texts| && i <= |texts[index]| + 1
    requires budget >= |texts[index]| + 1 - i
    ensures Run(texts, index, Typing(i), budget)
         == Shows(Growing(texts[index])[i..]) + Run(texts, index, Typed, budget - (|texts[index]| + 1 - i))
    decreases |texts[index]| + 1 - i
  {
    var text := texts[index];
    var g := Growing(text);
    if i > |text| {
      assert g[i..] == [];
    } else {
      LoopStep(texts, index, Typing(i), budget);
      TypingUninterrupted(texts, index, i + 1, budget - 1);
      ShowsFirst(g[i..]);
      assert g[i..][0] == text[..i] && g[i..][1..] == g[i + 1..];
      Regroup3([Check(true), Display(text[..i])], Shows(g[i + 1..]), Run(texts, index, Typed, budget - (|text| + 1 - i)));
    }
  }

  lemma {:induction false} DeletingUninterrupted(texts: seq<Text>, index: nat, j: int, budget: nat)
    requires index < |texts| && -1 <= j <= |texts[index]|
    requires budget >= j + 1
    ensures Run(texts, index, Deleting(j), budget)
         == Shows(Shrinking(texts[index])[|texts[index]| - j..]) + Run(texts, index, Deleted, budget - (j + 1))
    decreases j + 1
  {
    var text := texts[index];
    var d := Shrinking(text);
    if j < 0 {
      assert d[|text| - j..] == [];
    } else {
      var k := |text| - j;
      LoopStep(texts, index, Deleting(j), budget);
      DeletingUninterrupted(texts, index, j - 1, budget - 1);
      ShowsFirst(d[k..]);
      assert d[k..][0] == text[..j] && d[k..][1..] == d[k + 1..];
      Regroup3([Check(true), Display(text[..j])], Shows(d[k + 1..]), Run(texts, index, Deleted, budget - (j + 1)));
    }
  }

  /**
   * With enough reads left for a whole pass (2 * |text| + 5 of them), the cycle types
   * every prefix of the phrase, deletes back through every prefix, and only then moves
   * to the next phrase round the list, where it starts over.
   */
  lemma FullPass(texts: seq<Text>, index: nat, budget: nat)
    requires index < |texts| && budget >= 2 * |texts[index]| + 5
    ensures var next := (index + 1) % |texts|;
            Run(texts, index, Head, budget)
            == Pass(texts[index], next) + Run(texts, next, Head, budget - (2 * |texts[index]| + 5))
  {
    var text := texts[index];
    var n := |text|;
    var next := (index + 1) % |texts|;
    var rest := Run(texts, next, Head, budget - (2 * n + 5));
    var b1 := budget - 1;
    var b2 := b1 - (n + 1);
    var b3 := b2 - 1;
    var b4 := b3 - (n + 1);
    var up := Shows(Growing(text));
    var down := Shows(Shrinking(text));
    TestPasses(texts, index, Head, budget);
    TypingUninterrupted(texts, index, 0, b1);
    assert Growing(text)[0..] == Growing(text);
    TestPasses(texts, index, Typed, b2);
    DeletingUninterrupted(texts, index, n, b3);
    assert Shrinking(text)[n - n..] == Shrinking(text);
    TestPasses(texts, index, Deleted, b4);
    Regroup([Check(true)], up, [Check(true)], down, [Check(true), SetIndex(next)], rest);
  }

  /** A test of the flag between the loops that comes back true, and what follows it. */
  lemma TestPasses(texts: seq<Text>, index: nat, p: Phase, budget: nat)
    requires index < |texts| && budget > 0 && (p.Head? || p.Typed? || p.Deleted?)
    ensures p.Head? ==> Run(texts, index, p, budget) == [Check(true)] + Run(texts, index, Typing(0), budget - 1)
    ensures p.Typed? ==>
      Run(texts, index, p, budget) == [Check(true)] + Run(texts, index, Deleting(|texts[index]|), budget - 1)
    ensures p.Deleted? ==>
      var next := (index + 1) % |texts|;
      Run(texts, index, p, budget) == [Check(true), SetIndex(next)] + Run(texts, next, Head, budget - 1)
  {
  }

  /** A guard of a loop whose counter is in range and whose flag read comes back true. */
  lemma LoopStep(texts: seq<Text>, index: nat, p: Phase, budget: nat)
    requires index < |texts| && budget > 0
    requires p.Typing? ==> p.i <= |texts[index]|
    requires p.Deleting? ==> 0 <= p.j <= |texts[index]|
    requires p.Typing? || p.Deleting?
    ensures p.Typing? ==>
      Run(texts, index, p, budget) == [Check(true), Display(texts[index][..p.i])] + Run(texts, index, Typing(p.i + 1), budget - 1)
    ensures p.Deleting? ==>
      Run(texts, index, p, budget) == [Check(true), Display(texts[index][..p.j])] + Run(texts, index, Deleting(p.j - 1), budget - 1)
  {
  }

  lemma ShowsFirst(shown: seq<Text>)
    requires shown != []
    ensures Shows(shown) == [Check(true), Display(shown[0])] + Shows(shown[1..])
  {
  }

  lemma Regroup3(a: seq<Call>, b: seq<Call>, c: seq<Call>)
    ensures a + (b + c) == a + b + c
  {
  }

  lemma Regroup(a: seq<Call>, up: seq<Call>, b: seq<Call>, down: seq<Call>, c: seq<Call>, rest: seq<Call>)
    ensures a + (up + (b + (down + (c + rest)))) == a + up + b + down + c + rest
  {
  }

  /** "Hi" and "Bye" as code units. */
  const Hi: Text := [0x48, 0x69]
  const Bye: Text := [0x42, 0x79, 0x65]

  /**
   * Phrases "Hi" then "Bye": every prefix of "Hi" is shown from "" up to "Hi" and back
   * to "" before the cycle turns to "Bye".
   */
  lemma HiByeScenario(budget: nat)
    requires budget >= 9
    ensures Run([Hi, Bye], 0, Head, budget)
         == [Check(true),
             Check(true), Display([]), Check(true), Display([0x48]), Check(true), Display(Hi),
             Check(true),
             Check(true), Display(Hi), Check(true), Display([0x48]), Check(true), Display([]),
             Check(true), SetIndex(1)]
            + Run([Hi, Bye], 1, Head, budget - 9)
  {
    FullPass([Hi, Bye], 0, budget);
    PassOverHi();
  }

  lemma PassOverHi()
    ensures Pass(Hi, 1)
         == [Check(true),
             Check(true), Display([]), Check(true), Display([0x48]), Check(true), Display(Hi),
             Check(true),
             Check(true), Display(Hi), Check(true), Display([0x48]), Check(true), Display([]),
             Check(true), SetIndex(1)]
  {
    assert Hi[..0] == [] && Hi[..1] == [0x48] && Hi[..2] == Hi;
    assert Growing(Hi) == [[], [0x48], Hi];
    assert Shrinking(Hi) == [Hi, [0x48], []];
    ShowsThree([], [0x48], Hi);
    ShowsThree(Hi, [0x48], []);
  }

  /** U+1F5FC, a character outside the Basic Multilingual Plane: a surrogate pair. */
  const Tower: Text := [0xD83D, 0xDDFC]

  /**
   * A character outside the Basic Multilingual Plane takes two typing steps, and the
   * step between them shows its high surrogate alone.
   */
  lemma SurrogateHalfShown()
    ensures Growing(Tower) == [[], [0xD83D], Tower]
    ensures Shrinking(Tower) == [Tower, [0xD83D], []]
  {
    assert Tower[..0] == [] && Tower[..1] == [0xD83D] && Tower[..2] == Tower;
  }

  lemma ShowsThree(a: Text, b: Text, c: Text)
    ensures Shows([a, b, c]) == [Check(true), Display(a), Check(true), Display(b), Check(true), Display(c)]
  {
    assert [a, b, c][1..] == [b, c] && [b, c][1..] == [c] && [c][1..] == [];
    assert Shows([c]) == [Check(true), Display(c)];
    assert Shows([b, c]) == [Check(true), Display(b)] + [Check(true), Display(c)];
  }

  // ---------------------------------------------------------------------------
  // Cancelling earlier only cuts the same sequence of calls shorter.

  /** The calls before the first false read. */
  function Live(calls: seq<Call>): seq<Call>
  {
    if calls == [] || calls[0] == Check(false) then [] else [calls[0]] + Live(calls[1..])
  }

  /** Live(calls) is the longest prefix of `calls` without a false read. */
  lemma {:induction false} LiveIsCut(calls: seq<Call>)
    ensures Live(calls) <= calls
    ensures forall k :: 0 <= k < |Live(calls)| ==> Live(calls)[k] != Check(false)
    ensures |Live(calls)| < |calls| ==> calls[|Live(calls)|] == Check(false)
  {
    if calls != [] && calls[0] != Check(false) {
      LiveIsCut(calls[1..]);
      assert calls == [calls[0]] + calls[1..];
    }
  }

  lemma LiveAfterLive(h: seq<Call>, r: seq<Call>)
    requires forall k :: 0 <= k < |h| ==> h[k] != Check(false)
    ensures Live(h + r) == h + Live(r)
  {
    if h != [] {
      assert (h + r)[0] == h[0] && (h + r)[1..] == h[1..] + r;
      LiveAfterLive(h[1..], r);
    } else {
      assert h + r == r;
    }
  }

  lemma StepTruncates(h: seq<Call>, r: seq<Call>, r': seq<Call>)
    requires forall k :: 0 <= k < |h| ==> h[k] != Check(false)
    requires Live(r) <= Live(r')
    ensures Live(h + r) <= Live(h + r')
  {
    LiveAfterLive(h, r);
    LiveAfterLive(h, r');
    var a, b := Live(r), Live(r');
    assert b[..|a|] == a;
    assert (h + b)[..|h + a|] == h + a;
  }

  /**
   * Whatever the cycle does before a cancellation is exactly what it would have done
   * had the cancellation come later: a smaller budget yields a prefix of the calls.
   */
  lemma {:induction false} CancelTruncates(texts: seq<Text>, index: nat, p: Phase, budget: nat, later: nat)
    requires index < |texts| && PhaseFits(texts[index], p)
    requires budget <= later
    ensures Live(Run(texts, index, p, budget)) <= Live(Run(texts, index, p, later))
    decreases budget, Rank(p)
  {
    var text := texts[index];
    if budget == 0 {
      RunZeroIsCancelled(texts, index, p);
      return;
    }
    var h: seq<Call>, q: Phase, next: nat := [], p, index;
    match p {
    case Head =>
      h, q := [Check(true)], Typing(0);
    case Typing(i) =>
      if i > |text| {
        CancelTruncates(texts, index, Typed, budget, later);
        return;
      }
      h, q := [Check(true), Display(text[..i])], Typing(i + 1);
    case Typed =>
      h, q := [Check(true)], Deleting(|text|);
    case Deleting(j) =>
      if j < 0 {
        CancelTruncates(texts, index, Deleted, budget, later);
        return;
      }
      h, q := [Check(true), Display(text[..j])], Deleting(j - 1);
    case Deleted =>
      next := (index + 1) % |texts|;
      h, q := [Check(true), SetIndex(next)], Head;
    }
    assert PhaseFits(texts[next], q);
    assert Run(texts, index, p, budget) == h + Run(texts, next, q, budget - 1);
    assert Run(texts, index, p, later) == h + Run(texts, next, q, later - 1);
    CancelTruncates(texts, next, q, budget - 1, later - 1);
    StepTruncates(h, Run(texts, next, q, budget - 1), Run(texts, next, q, later - 1));
  }

  /** With the flag already false, the cycle makes nothing but false reads. */
  lemma {:induction false} RunZeroIsCancelled(texts: seq<Text>, index: nat, p: Phase)
    requires index < |texts| && PhaseFits(texts[index], p)
    ensures Live(Run(texts, index, p, 0)) == []
    decreases Rank(p)
  {
    match p
    case Typing(i) =>
      if i > |texts[index]| { RunZeroIsCancelled(texts, index, Typed); }
    case Deleting(j) =>
      if j < 0 { RunZeroIsCancelled(texts, index, Deleted); }
    case _ =>
  }
}
