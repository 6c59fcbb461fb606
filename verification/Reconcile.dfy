/** Clearing the prompts a transcript has caught up on. Message identifiers sort
    by age and are numbers here; the text of a message is what is left of its
    parts, missing when it is not the user's. */
module Reconcile {
  import opened Wrappers

  datatype Prompt = Prompt(text: string, after: Option<int>)

  datatype Message = Message(id: int, text: Option<string>)

  datatype Candidate = Candidate(id: int, text: string)

  ghost predicate Sorted(available: seq<Candidate>) {
    forall i, j | 0 <= i < j < |available| :: available[i].id < available[j].id
  }

  predicate Fits(prompt: Prompt, candidate: Candidate) {
    candidate.text == prompt.text && (prompt.after.None? || candidate.id > prompt.after.value)
  }

  function Candidates(messages: seq<Message>): seq<Candidate> {
    if messages == [] then []
    else
      var n := |messages| - 1;
      Candidates(messages[..n])
      + (if messages[n].text.Some? then [Candidate(messages[n].id, messages[n].text.value)] else [])
  }

  /** The first candidate that fits, or the number of candidates. */
  function FirstFit(prompt: Prompt, available: seq<Candidate>): (k: nat)
    ensures k <= |available| && (forall i | 0 <= i < k :: !Fits(prompt, available[i]))
    ensures k < |available| ==> Fits(prompt, available[k])
  {
    if available == [] then 0 else if Fits(prompt, available[0]) then 0 else 1 + FirstFit(prompt, available[1..])
  }

  function Splice(available: seq<Candidate>, k: nat): seq<Candidate>
    requires k < |available|
  {
    available[..k] + available[k + 1..]
  }

  /** Each prompt in turn uses up the first message that fits it. */
  function Remaining(pending: seq<Prompt>, available: seq<Candidate>): seq<Prompt> {
    if pending == [] then []
    else
      var k := FirstFit(pending[0], available);
      if k == |available| then [pending[0]] + Remaining(pending[1..], available)
      else Remaining(pending[1..], Splice(available, k))
  }

  // --- assignments -----------------------------------------------------------------

  /** Any way to pair prompts with messages: one message a prompt, one prompt a
      message, equal text, newer than the watermark. */
  ghost predicate Pairs(pending: seq<Prompt>, available: seq<Candidate>, a: seq<Option<Candidate>>) {
    && |a| == |pending|
    && (forall i | 0 <= i < |a| && a[i].Some? :: a[i].value in available && Fits(pending[i], a[i].value))
    && (forall i, j | 0 <= i < j < |a| && a[i].Some? :: a[i] != a[j])
  }

  function Paired<T>(a: seq<Option<T>>): nat {
    if a == [] then 0 else (if a[0].Some? then 1 else 0) + Paired(a[1..])
  }

  /** The prompts a pairing leaves over, in their order. */
  function LeftOver<T>(pending: seq<Prompt>, a: seq<Option<T>>): seq<Prompt>
    requires |a| == |pending|
  {
    if a == [] then [] else (if a[0].Some? then [] else [pending[0]]) + LeftOver(pending[1..], a[1..])
  }

  lemma SplicedStaysSorted(available: seq<Candidate>, k: nat)
    requires Sorted(available) && k < |available|
    ensures Sorted(Splice(available, k)) && available[k] !in Splice(available, k)
    ensures forall c :: c in available <==> c == available[k] || c in Splice(available, k)
  {
    var rest := Splice(available, k);
    forall c ensures c in available <==> c == available[k] || c in rest {
      if c in available {
        var i :| 0 <= i < |available| && available[i] == c;
        assert i < k ==> rest[i] == c;
        assert i > k ==> rest[i - 1] == c;
      }
    }
  }

  lemma {:induction false} PairedUpdate(a: seq<Option<Candidate>>, q: nat, x: Option<Candidate>)
    requires q < |a|
    ensures Paired(a[q := x]) == Paired(a) - (if a[q].Some? then 1 else 0) + (if x.Some? then 1 else 0)
  {
    if q > 0 {
      PairedUpdate(a[1..], q - 1, x);
      assert a[q := x][1..] == a[1..][q - 1 := x];
    } else {
      assert a[q := x][1..] == a[1..];
    }
  }

  /** Giving the first prompt its first fit costs any pairing of the others at
      most one pair: whoever held that message can take the first prompt's. */
  lemma Exchange(pending: seq<Prompt>, available: seq<Candidate>, a: seq<Option<Candidate>>)
    returns (b: seq<Option<Candidate>>)
    requires pending != [] && Sorted(available) && Pairs(pending, available, a)
    requires FirstFit(pending[0], available) < |available|
    ensures Pairs(pending[1..], Splice(available, FirstFit(pending[0], available)), b)
    ensures Paired(a) <= Paired(b) + 1
  {
    var k := FirstFit(pending[0], available);
    var taken, rest := available[k], Splice(available, k);
    SplicedStaysSorted(available, k);
    b := a[1..];
    if q :| 0 <= q < |b| && b[q] == Some(taken) {
      PairedUpdate(b, q, a[0]);
      assert a[1 + q] == Some(taken) && Fits(pending[1..][q], taken);
      if a[0].Some? {
        var other := a[0].value;
        var o :| 0 <= o < |available| && available[o] == other;
        assert k <= o;
        assert Fits(pending[1..][q], other);
      }
      b := b[q := a[0]];
    }
  }

  /** No pairing clears more prompts than the greedy pass does. */
  lemma {:induction false} GreedyClearsTheMost(pending: seq<Prompt>, available: seq<Candidate>,
      a: seq<Option<Candidate>>)
    requires Sorted(available) && Pairs(pending, available, a)
    ensures Paired(a) <= |pending| - |Remaining(pending, available)|
    decreases |pending|
  {
    if pending != [] {
      var k := FirstFit(pending[0], available);
      if k == |available| {
        assert a[0].None?;
        GreedyClearsTheMost(pending[1..], available, a[1..]);
      } else {
        var b := Exchange(pending, available, a);
        SplicedStaysSorted(available, k);
        GreedyClearsTheMost(pending[1..], Splice(available, k), b);
      }
    }
  }

  /** What the greedy pass leaves is what a pairing leaves, in the same order. */
  lemma {:induction false} GreedyIsAPairing(pending: seq<Prompt>, available: seq<Candidate>)
    returns (a: seq<Option<Candidate>>)
    requires Sorted(available)
    ensures Pairs(pending, available, a)
    ensures LeftOver(pending, a) == Remaining(pending, available)
    ensures Paired(a) == |pending| - |Remaining(pending, available)|
    decreases |pending|
  {
    if pending == [] {
      a := [];
    } else {
      var k := FirstFit(pending[0], available);
      if k == |available| {
        var rest := GreedyIsAPairing(pending[1..], available);
        a := [None] + rest;
        assert a[1..] == rest;
      } else {
        SplicedStaysSorted(available, k);
        var rest := GreedyIsAPairing(pending[1..], Splice(available, k));
        a := [Some(available[k])] + rest;
        assert a[1..] == rest;
      }
    }
  }

  // --- in terms of the messages ---------------------------------------------------

  ghost predicate InOrder(messages: seq<Message>) {
    forall i, j | 0 <= i < j < |messages| :: messages[i].id < messages[j].id
  }

  /** Any way to pair prompts with the user's messages, told by their positions. */
  ghost predicate Clears(pending: seq<Prompt>, messages: seq<Message>, a: seq<Option<nat>>) {
    && |a| == |pending|
    && (forall i | 0 <= i < |a| && a[i].Some? ::
          && a[i].value < |messages|
          && messages[a[i].value].text == Some(pending[i].text)
          && (pending[i].after.Some? ==> messages[a[i].value].id > pending[i].after.value))
    && (forall i, j | 0 <= i < j < |a| && a[i].Some? :: a[i] != a[j])
  }

  /** The candidates are the user's messages, every one of them once, in order. */
  lemma {:induction false} CandidatesAreTheMessages(messages: seq<Message>)
    requires InOrder(messages)
    ensures Sorted(Candidates(messages))
    ensures forall c :: c in Candidates(messages) <==> Message(c.id, Some(c.text)) in messages
  {
    if messages != [] {
      var n := |messages| - 1;
      CandidatesAreTheMessages(messages[..n]);
      var earlier := Candidates(messages[..n]);
      assert messages == messages[..n] + [messages[n]];
      forall i | 0 <= i < |earlier| ensures earlier[i].id < messages[n].id {
        assert earlier[i] in earlier;
        var m :| 0 <= m < n && messages[..n][m] == Message(earlier[i].id, Some(earlier[i].text));
        assert messages[m].id < messages[n].id;
      }
    }
  }

  function CandidateAt(messages: seq<Message>, at: Option<nat>): Option<Candidate> {
    if at.None? || at.value >= |messages| || messages[at.value].text.None? then None
    else Some(Candidate(messages[at.value].id, messages[at.value].text.value))
  }

  function CandidatesAt(messages: seq<Message>, a: seq<Option<nat>>): seq<Option<Candidate>> {
    seq(|a|, i requires 0 <= i < |a| => CandidateAt(messages, a[i]))
  }

  lemma {:induction false} SamePairs<T, U>(a: seq<Option<T>>, b: seq<Option<U>>, pending: seq<Prompt>)
    requires |a| == |b| == |pending| && forall i | 0 <= i < |a| :: a[i].Some? == b[i].Some?
    ensures Paired(a) == Paired(b) && LeftOver(pending, a) == LeftOver(pending, b)
  {
    if a != [] {
      SamePairs(a[1..], b[1..], pending[1..]);
    }
  }

  /** A pairing with messages is one with candidates, of the same prompts. */
  lemma ClearingPairs(pending: seq<Prompt>, messages: seq<Message>, a: seq<Option<nat>>)
    requires InOrder(messages) && Clears(pending, messages, a)
    ensures Pairs(pending, Candidates(messages), CandidatesAt(messages, a))
    ensures Paired(CandidatesAt(messages, a)) == Paired(a)
  {
    CandidatesAreTheMessages(messages);
    var b := CandidatesAt(messages, a);
    forall i | 0 <= i < |b| && b[i].Some? ensures b[i].value in Candidates(messages) && Fits(pending[i], b[i].value) {
      assert messages[a[i].value] == Message(b[i].value.id, Some(b[i].value.text));
    }
    SamePairs(a, b, pending);
  }

  lemma {:induction false} PairsClear(pending: seq<Prompt>, messages: seq<Message>, b: seq<Option<Candidate>>)
    returns (a: seq<Option<nat>>)
    requires InOrder(messages) && Pairs(pending, Candidates(messages), b)
    ensures Clears(pending, messages, a) && LeftOver(pending, a) == LeftOver(pending, b)
  {
    CandidatesAreTheMessages(messages);
    forall i | 0 <= i < |b| && b[i].Some?
      ensures exists k: nat :: k < |messages| && messages[k] == Message(b[i].value.id, Some(b[i].value.text))
    {
      assert Message(b[i].value.id, Some(b[i].value.text)) in messages;
    }
    a := seq(|b|, i requires 0 <= i < |b| => PositionOf(messages, b[i]));
    SamePairs(a, b, pending);
  }

  ghost function PositionOf(messages: seq<Message>, c: Option<Candidate>): (at: Option<nat>)
    requires c.Some? ==> Message(c.value.id, Some(c.value.text)) in messages
    ensures at.Some? <==> c.Some?
    ensures at.Some? ==> at.value < |messages| && messages[at.value] == Message(c.value.id, Some(c.value.text))
  {
    if c.None? then None
    else var k: nat :| k < |messages| && messages[k] == Message(c.value.id, Some(c.value.text)); Some(k)
  }

  /** Between prompts and messages: what the greedy pass leaves is what a pairing
      leaves, in order, and no pairing clears more. */
  lemma GreedyIsTheBestPairing(pending: seq<Prompt>, messages: seq<Message>) returns (a: seq<Option<nat>>)
    requires InOrder(messages)
    ensures Clears(pending, messages, a) && LeftOver(pending, a) == Remaining(pending, Candidates(messages))
    ensures forall other | Clears(pending, messages, other) ::
              Paired(other) <= |pending| - |Remaining(pending, Candidates(messages))|
  {
    CandidatesAreTheMessages(messages);
    var b := GreedyIsAPairing(pending, Candidates(messages));
    a := PairsClear(pending, messages, b);
    forall other | Clears(pending, messages, other)
      ensures Paired(other) <= |pending| - |Remaining(pending, Candidates(messages))|
    {
      ClearingPairs(pending, messages, other);
      GreedyClearsTheMost(pending, Candidates(messages), CandidatesAt(messages, other));
    }
  }

  // --- the pass itself ------------------------------------------------------------

  /** With messages in order, the pass clears as many prompts as any pairing of
      prompts with messages could, and keeps the others in order. */
  method ReconcileOptimisticPrompts(pending: seq<Prompt>, messages: seq<Message>)
    returns (remaining: seq<Prompt>, ghost cleared: seq<Option<nat>>)
    ensures remaining == Remaining(pending, Candidates(messages))
    ensures InOrder(messages) ==> Clears(pending, messages, cleared) && remaining == LeftOver(pending, cleared)
    ensures InOrder(messages) ==> forall other | Clears(pending, messages, other) ::
              Paired(other) <= |pending| - |remaining|
  {
    cleared := [];
    if InOrder(messages) {
      cleared := GreedyIsTheBestPairing(pending, messages);
    }
    if |pending| == 0 {
      return pending, cleared;
    }
    var available: seq<Candidate> := [];
    for i := 0 to |messages|
      invariant available == Candidates(messages[..i])
    {
      assert messages[..i + 1][..i] == messages[..i];
      if messages[i].text.Some? {
        available := available + [Candidate(messages[i].id, messages[i].text.value)];
      }
    }
    assert messages[..|messages|] == messages;
    remaining := [];
    for i := 0 to |pending|
      invariant remaining + Remaining(pending[i..], available) == Remaining(pending, Candidates(messages))
    {
      ghost var rest := pending[i..];
      assert rest[0] == pending[i] && rest[1..] == pending[i + 1..];
      var index := FindIndex(pending[i], available);
      if index == |available| {
        ConcatAssociates(remaining, [pending[i]], Remaining(pending[i + 1..], available));
        remaining := remaining + [pending[i]];
      } else {
        available := available[..index] + available[index + 1..];
      }
    }
  }

  method FindIndex(prompt: Prompt, available: seq<Candidate>) returns (index: nat)
    ensures index == FirstFit(prompt, available)
  {
    index := 0;
    while index < |available| && !Fits(prompt, available[index])
      invariant index <= |available| && index + FirstFit(prompt, available[index..]) == FirstFit(prompt, available)
    {
      assert available[index..][1..] == available[index + 1..];
      index := index + 1;
    }
  }
}
