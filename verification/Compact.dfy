/** Where /compact cuts: `oi_cli_compact_select_prefix` of src/cli_compact.c. */
module Compact {
  import opened Messages
  import opened ContextShape

  function Users(ms: seq<Message>): (n: nat) {
    if ms == [] then 0 else (if ms[0].User? then 1 else 0) + Users(ms[1..])
  }

  lemma {:induction false} UsersConcat(a: seq<Message>, b: seq<Message>)
    ensures Users(a + b) == Users(a) + Users(b)
  {
    if a == [] {
      assert a + b == b;
    } else {
      UsersConcat(a[1..], b);
      assert (a + b)[1..] == a[1..] + b;
    }
  }

  lemma UsersSplit(ms: seq<Message>, i: nat)
    requires i <= |ms|
    ensures Users(ms[..i]) + Users(ms[i..]) == Users(ms)
    ensures i < |ms| ==> Users(ms[i..]) == (if ms[i].User? then 1 else 0) + Users(ms[i + 1..])
  {
    UsersConcat(ms[..i], ms[i..]);
    assert ms[..i] + ms[i..] == ms;
    if i < |ms| { assert ms[i..][1..] == ms[i + 1..]; }
  }

  /** The cut keeps exactly the last `keepTurns` turns, or nothing is cut. */
  method SelectPrefix(messages: seq<Message>, keepTurns: nat) returns (prefix: nat, totalTurns: nat)
    ensures totalTurns == Users(messages)
    ensures prefix <= |messages|
    ensures totalTurns <= keepTurns ==> prefix == 0
    ensures totalTurns > keepTurns ==>
              0 < prefix && CutsAtTurn(messages, prefix) && Users(messages[prefix..]) == keepTurns
  {
    totalTurns := 0;
    var i := 0;
    while i < |messages|
      invariant i <= |messages|
      invariant totalTurns + Users(messages[i..]) == Users(messages)
    {
      UsersSplit(messages, i);
      if messages[i].User? { totalTurns := totalTurns + 1; }
      i := i + 1;
    }
    assert messages[i..] == [];
    if totalTurns <= keepTurns {
      return 0, totalTurns;
    }
    var compactTurns := totalTurns - keepTurns;
    if keepTurns == 0 {
      assert messages[|messages|..] == [];
      return |messages|, totalTurns;
    }
    var seen := 0;
    i, prefix := 0, |messages|;
    while i < |messages|
      invariant i <= |messages|
      invariant seen + Users(messages[i..]) == totalTurns && seen <= compactTurns
      invariant i == 0 ==> seen == 0
    {
      UsersSplit(messages, i);
      if messages[i].User? {
        if seen == compactTurns {
          return i, totalTurns;
        }
        seen := seen + 1;
      }
      i := i + 1;
    }
    assert false;  // compactTurns < totalTurns, so the loop has returned
  }
}
