/** The numbered lines of a call mission (call.ts). */
module PartyLines {
  import opened Twilio

  /** One of the mission's numbered lines: line n is lines[n - 1]. */
  datatype PartyLine = PartyLine(callId: CallId, state: CallState)

  /** The numbers of the lines still up, in order. */
  function Live(lines: seq<PartyLine>): (live: seq<nat>)
    ensures forall k :: k in live ==> 1 <= k <= |lines|
  {
    if lines == [] then []
    else
      var n := |lines|;
      Live(lines[..n - 1]) + if lines[n - 1].state == Ended then [] else [n]
  }

  /** No line but line n is up. */
  predicate OnlyOneUp(lines: seq<PartyLine>, n: nat) { forall i :: 0 <= i < |lines| && i + 1 != n ==> lines[i].state == Ended }

  lemma {:induction false} LiveIs(lines: seq<PartyLine>, n: nat)
    ensures n in Live(lines) <==> 1 <= n <= |lines| && lines[n - 1].state != Ended
  {
    if lines != [] { LiveIs(lines[..|lines| - 1], n); }
  }

  lemma {:induction false} LiveAscends(lines: seq<PartyLine>)
    ensures forall i, j :: 0 <= i < j < |Live(lines)| ==> Live(lines)[i] < Live(lines)[j]
  {
    if lines != [] {
      var before := Live(lines[..|lines| - 1]);
      LiveAscends(lines[..|lines| - 1]);
      forall i | 0 <= i < |before| ensures before[i] < |lines| { assert before[i] in before; }
    }
  }

  lemma {:induction false} LiveNext(lines: seq<PartyLine>, i: nat)
    requires i < |lines|
    ensures Live(lines[..i + 1]) == Live(lines[..i]) + if lines[i].state == Ended then [] else [i + 1]
  {
    assert lines[..i + 1][..i] == lines[..i];
  }
}
