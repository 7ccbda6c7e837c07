/** The shape of a conversation: an optional summary, then whole turns, every call answered. */
module ContextShape {
  import opened Basics
  import opened Messages

  /** How far a message list has got; `Collecting` holds the call ids still unanswered. */
  datatype Shape = Bad | Empty | Closed | Replying | Collecting(left: multiset<bytes>)

  function CallIds(calls: seq<ToolCall>): (ids: multiset<bytes>) {
    if calls == [] then multiset{} else CallIds(calls[..|calls| - 1]) + multiset{calls[|calls| - 1].id}
  }

  function Next(s: Shape, m: Message): (shape: Shape) {
    match (s, m)
    case (Empty, User(_)) => Replying
    case (Empty, Assistant(_, calls)) => if calls == [] then Closed else Bad
    case (Closed, User(_)) => Replying
    case (Replying, Assistant(_, calls)) => if calls == [] then Closed else Collecting(CallIds(calls))
    case (Collecting(left), ToolResult(id, _)) =>
      if id !in left then Bad
      else if left - multiset{id} == multiset{} then Replying
      else Collecting(left - multiset{id})
    case _ => Bad
  }

  function Scan(s: Shape, ms: seq<Message>): (shape: Shape)
    decreases ms
  {
    if ms == [] then s else Scan(Next(s, ms[0]), ms[1..])
  }

  lemma {:induction false} ScanConcat(s: Shape, a: seq<Message>, b: seq<Message>)
    ensures Scan(s, a + b) == Scan(Scan(s, a), b)
    decreases a
  {
    if a == [] {
      assert a + b == b;
    } else {
      ScanConcat(Next(s, a[0]), a[1..], b);
      assert (a + b)[1..] == a[1..] + b;
    }
  }

  lemma ScanSnoc(s: Shape, ms: seq<Message>, m: Message)
    ensures Scan(s, ms + [m]) == Next(Scan(s, ms), m)
  {
    ScanConcat(s, ms, [m]);
    assert Scan(Next(Scan(s, ms), m), [m][1..]) == Next(Scan(s, ms), m);
  }

  lemma {:induction false} BadStays(ms: seq<Message>)
    ensures Scan(Bad, ms) == Bad
  {
    if ms != [] {
      BadStays(ms[1..]);
    }
  }

  lemma {:induction false} CallIdsCount(calls: seq<ToolCall>)
    ensures |CallIds(calls)| == |calls|
    ensures forall i :: 0 <= i < |calls| ==> calls[i].id in CallIds(calls)
  {
    if calls != [] {
      CallIdsCount(calls[..|calls| - 1]);
    }
  }

  predicate CutsAtTurn(ms: seq<Message>, p: nat) {
    p == |ms| || (p < |ms| && ms[p].User?)
  }

  /** Replacing a prefix that ends at a turn boundary by a summary keeps a closed list closed. */
  lemma SummaryKeepsClosed(ms: seq<Message>, p: nat, summary: bytes)
    requires Scan(Empty, ms) == Closed && 0 < p <= |ms| && CutsAtTurn(ms, p)
    ensures Scan(Empty, [Assistant(summary, [])] + ms[p..]) == Closed
  {
    var before := Scan(Empty, ms[..p]);
    assert ms == ms[..p] + ms[p..];
    ScanConcat(Empty, ms[..p], ms[p..]);
    NotEmptyAfter(ms[..p]);
    if p < |ms| && before != Closed {
      BadStays(ms[p..][1..]);
    }
    assert Scan(Empty, [Assistant(summary, [])]) == Closed by {
      ScanSnoc(Empty, [], Assistant(summary, []));
      assert [] + [Assistant(summary, [])] == [Assistant(summary, [])];
    }
    ScanConcat(Empty, [Assistant(summary, [])], ms[p..]);
  }

  lemma NotEmptyAfter(ms: seq<Message>)
    requires ms != []
    ensures Scan(Empty, ms) != Empty
  {
    var last := ms[|ms| - 1];
    ScanSnoc(Empty, ms[..|ms| - 1], last);
    assert ms == ms[..|ms| - 1] + [last];
  }

  function ResultIds(ms: seq<Message>): (ids: multiset<bytes>) {
    if ms == [] || !ms[0].ToolResult? then multiset{} else multiset{ms[0].toolCallId} + ResultIds(ms[1..])
  }

  lemma CollectsOneMore(left: multiset<bytes>, rest: seq<Message>)
    requires rest != [] && rest[0].ToolResult? && rest[0].toolCallId in left
    requires var fewer := left - multiset{rest[0].toolCallId};
      && |rest[1..]| > |fewer| && rest[1..][|fewer|].Assistant?
      && (forall i :: 0 <= i < |fewer| ==> rest[1..][i].ToolResult?)
      && ResultIds(rest[1..][..|fewer|]) == fewer
    ensures |rest| > |left| && rest[|left|].Assistant?
    ensures forall i :: 0 <= i < |left| ==> rest[i].ToolResult?
    ensures ResultIds(rest[..|left|]) == left
  {
    var fewer := left - multiset{rest[0].toolCallId};
    assert left == multiset{rest[0].toolCallId} + fewer;
    assert rest[..|left|][1..] == rest[1..][..|fewer|];
    assert forall i :: 1 <= i < |left| ==> rest[i] == rest[1..][i - 1];
  }

  lemma {:induction false} CollectsAll(left: multiset<bytes>, rest: seq<Message>)
    requires left != multiset{} && Scan(Collecting(left), rest) == Closed
    ensures |rest| > |left| && rest[|left|].Assistant?
    ensures forall i :: 0 <= i < |left| ==> rest[i].ToolResult?
    ensures ResultIds(rest[..|left|]) == left
    decreases rest
  {
    var m := rest[0];
    if !m.ToolResult? || m.toolCallId !in left {
      BadStays(rest[1..]);
    } else {
      var fewer := left - multiset{m.toolCallId};
      assert left == multiset{m.toolCallId} + fewer;
      if fewer == multiset{} {
        if rest[1..] != [] { BadStays(rest[1..][1..]); }
        assert rest[..1][1..] == [];
      } else {
        CollectsAll(fewer, rest[1..]);
        CollectsOneMore(left, rest);
      }
    }
  }

  /** The list just after an assistant message with calls is collecting exactly those calls. */
  lemma AfterCalls(ms: seq<Message>, i: nat)
    requires Scan(Empty, ms) == Closed && i < |ms| && ms[i].Assistant? && ms[i].calls != []
    ensures Scan(Collecting(CallIds(ms[i].calls)), ms[i + 1..]) == Closed
  {
    var before, rest := ms[..i], ms[i + 1..];
    assert ms == before + ([ms[i]] + rest);
    ScanConcat(Empty, before, [ms[i]] + rest);
    assert ([ms[i]] + rest)[1..] == rest;
    BadStays(rest);
  }

  /**
   * In a closed list, an assistant message with n calls is followed at once by exactly n tool results
   * whose ids are the call ids in some order, and then by the next assistant message.
   */
  lemma CallsAnswered(ms: seq<Message>, i: nat)
    requires Scan(Empty, ms) == Closed && i < |ms| && ms[i].Assistant? && ms[i].calls != []
    ensures
      var n, rest := |ms[i].calls|, ms[i + 1..];
      && n < |rest|
      && (forall j :: 0 <= j < n ==> rest[j].ToolResult?)
      && ResultIds(rest[..n]) == CallIds(ms[i].calls)
      && rest[n].Assistant?
  {
    AfterCalls(ms, i);
    CallIdsCount(ms[i].calls);
    CollectsAll(CallIds(ms[i].calls), ms[i + 1..]);
  }

  /** A user message, then replies and tool results, up to the first reply without calls. */
  predicate IsTurn(t: seq<Message>) {
    && t != []
    && t[0].User?
    && (forall i :: 1 <= i < |t| ==> !t[i].User?)
    && Scan(Replying, t[1..]) == Closed
  }

  function Flatten(turns: seq<seq<Message>>): (messages: seq<Message>) {
    if turns == [] then [] else turns[0] + Flatten(turns[1..])
  }

  /** A turn is under way. */
  predicate Under(s: Shape) {
    s.Replying? || (s.Collecting? && s.left != multiset{})
  }

  lemma NextUnder(s: Shape, m: Message)
    requires Under(s)
    ensures Next(s, m) == Bad || Next(s, m) == Closed || Under(Next(s, m))
    ensures m.User? ==> Next(s, m) == Bad
  {
    if s.Replying? && m.Assistant? { CallIdsCount(m.calls); }
  }

  /** Where the turn under way ends. */
  lemma ScanTake(s: Shape, ms: seq<Message>, k: nat)
    requires 0 < k <= |ms|
    ensures Scan(s, ms[..k]) == Scan(Next(s, ms[0]), ms[1..][..k - 1])
    ensures ms[k..] == ms[1..][k - 1..]
    ensures forall i :: 1 <= i < k ==> ms[i] == ms[1..][i - 1]
  {
    assert ms[..k][1..] == ms[1..][..k - 1];
  }

  lemma {:induction false} TurnEnd(s: Shape, ms: seq<Message>) returns (k: nat)
    requires Under(s) && Scan(s, ms) == Closed
    ensures 0 < k <= |ms| && Scan(s, ms[..k]) == Closed && Scan(Closed, ms[k..]) == Closed
    ensures forall i :: 0 <= i < k ==> !ms[i].User?
    decreases ms
  {
    var next := Next(s, ms[0]);
    NextUnder(s, ms[0]);
    BadStays(ms[1..]);
    assert Scan(next, ms[1..]) == Closed;
    if next == Closed {
      k := 1;
      assert Scan(next, ms[1..][..0]) == Closed;
      ScanTake(s, ms, 1);
    } else {
      hide Next, Scan;
      var rest := TurnEnd(next, ms[1..]);
      k := rest + 1;
      ScanTake(s, ms, k);
    }
  }

  lemma {:induction false} ClosedIsTurns(ms: seq<Message>) returns (turns: seq<seq<Message>>)
    requires Scan(Closed, ms) == Closed
    ensures ms == Flatten(turns) && forall i :: 0 <= i < |turns| ==> IsTurn(turns[i])
    decreases ms
  {
    if ms == [] {
      turns := [];
    } else {
      if !ms[0].User? { BadStays(ms[1..]); assert false; }
      var k := TurnEnd(Replying, ms[1..]);
      var turn, rest := ms[..k + 1], ms[k + 1..];
      assert turn[1..] == ms[1..][..k] && rest == ms[1..][k..];
      assert forall i :: 1 <= i < |turn| ==> turn[i] == ms[1..][i - 1];
      var more := ClosedIsTurns(rest);
      turns := [turn] + more;
      assert turns[1..] == more;
      assert ms == turn + rest;
    }
  }

  /** A closed list is at most one summary followed by whole turns. */
  lemma ClosedContext(ms: seq<Message>) returns (head: seq<Message>, turns: seq<seq<Message>>)
    requires Scan(Empty, ms) == Closed
    ensures ms == head + Flatten(turns) && forall i :: 0 <= i < |turns| ==> IsTurn(turns[i])
    ensures |head| <= 1 && (head != [] ==> head[0].Assistant? && head[0].calls == [])
  {
    if ms[0].User? {
      assert Scan(Closed, ms) == Closed;
      head := [];
      turns := ClosedIsTurns(ms);
    } else {
      if Next(Empty, ms[0]) == Bad { BadStays(ms[1..]); assert false; }
      head := [ms[0]];
      turns := ClosedIsTurns(ms[1..]);
      assert ms == head + ms[1..];
    }
  }
}
