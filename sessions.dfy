/** The shape both OKX connectors give their receive loop: a `while True`
    whose body handles one frame inside `try`, and whose `except Exception`
    logs and breaks. A turn records what handling one frame sent on (to the
    hub or the dispatcher), whether it raised, and whether it was a pong. */
module Sessions {
  import opened Types

  datatype Turn<M> = Turn(sent: seq<M>, outcome: Outcome, pong: bool)

  /** How the loop ends: how many frames were handled without raising, the
      exception that broke the loop (ConnectionClosed once the frames run
      out), whether one of the handled frames was a pong, and everything sent
      on, including what a failing frame sent before it raised. */
  datatype SessionEnd<M> = SessionEnd(handled: nat, exc: Exc, pong: bool, sent: seq<M>)

  function Session<M>(turns: seq<Turn<M>>): SessionEnd<M>
  {
    if |turns| == 0 then SessionEnd(0, ConnectionClosed, false, [])
    else if turns[0].outcome.Raised? then SessionEnd(0, turns[0].outcome.exc, false, turns[0].sent)
    else
      var rest := Session(turns[1..]);
      SessionEnd(rest.handled + 1, rest.exc, turns[0].pong || rest.pong, turns[0].sent + rest.sent)
  }

  /** Everything the given turns sent, in order. */
  function AllSent<M>(turns: seq<Turn<M>>): seq<M>
  {
    if |turns| == 0 then [] else turns[0].sent + AllSent(turns[1..])
  }

  /** The loop stops at the first turn that raises, with that exception, and
      only then; what it sent is what the handled turns and the failing one
      sent. */
  lemma {:induction false} SessionStopsAtFirstFailure<M>(turns: seq<Turn<M>>)
    ensures var r := Session(turns);
            && r.handled <= |turns|
            && (forall i :: 0 <= i < r.handled ==> turns[i].outcome == Completed)
            && (r.handled < |turns| ==> turns[r.handled].outcome == Raised(r.exc))
            && (r.handled == |turns| ==> r.exc == ConnectionClosed)
            && r.sent == AllSent(turns[..if r.handled < |turns| then r.handled + 1 else r.handled])
  {
    if |turns| == 0 {
    } else if turns[0].outcome.Raised? {
      assert turns[..1][1..] == [];
    } else {
      SessionStopsAtFirstFailure(turns[1..]);
      var rest := Session(turns[1..]);
      forall i | 0 < i <= rest.handled
        ensures turns[i] == turns[1..][i - 1]
      {
      }
      var n := if rest.handled < |turns| - 1 then rest.handled + 1 else rest.handled;
      assert turns[..n + 1][1..] == turns[1..][..n];
    }
  }

  /** The loop has seen a pong exactly when a handled turn was one. */
  lemma {:induction false} SessionPong<M>(turns: seq<Turn<M>>)
    ensures Session(turns).pong <==> exists i :: 0 <= i < |turns| && i < Session(turns).handled && turns[i].pong
  {
    if |turns| > 0 && turns[0].outcome.Completed? {
      SessionPong(turns[1..]);
      var rest := Session(turns[1..]);
      if rest.pong {
        var i :| 0 <= i < |turns[1..]| && i < rest.handled && turns[1..][i].pong;
        assert turns[i + 1].pong;
      }
      if exists i :: 0 <= i < |turns| && i < rest.handled + 1 && turns[i].pong {
        var i :| 0 <= i < |turns| && i < rest.handled + 1 && turns[i].pong;
        if i > 0 {
          assert turns[1..][i - 1].pong;
        }
      }
    }
  }

  /** The loop, having handled turns `..i` without a failure, having seen
      `pong` and sent `sent`, ends as `Session` says. */
  ghost predicate Resumes<M>(turns: seq<Turn<M>>, i: nat, pong: bool, sent: seq<M>)
    requires i <= |turns|
  {
    var rest := Session(turns[i..]);
    Session(turns) == SessionEnd(i + rest.handled, rest.exc, pong || rest.pong, sent + rest.sent)
  }

  lemma ResumesStart<M>(turns: seq<Turn<M>>)
    ensures Resumes(turns, 0, false, [])
  {
    assert turns[0..] == turns;
  }

  lemma ResumesStep<M>(turns: seq<Turn<M>>, i: nat, pong: bool, sent: seq<M>)
    requires i < |turns|
    requires Resumes(turns, i, pong, sent)
    ensures turns[i].outcome.Raised? ==>
              Session(turns) == SessionEnd(i, turns[i].outcome.exc, pong, sent + turns[i].sent)
    ensures turns[i].outcome.Completed? ==> Resumes(turns, i + 1, pong || turns[i].pong, sent + turns[i].sent)
  {
    var tail := turns[i..];
    SuffixStep(turns, i);
    var rest := Session(turns[i + 1..]);
    if turns[i].outcome.Completed? {
      var t := turns[i];
      assert Session(tail) == SessionEnd(rest.handled + 1, rest.exc, t.pong || rest.pong, t.sent + rest.sent);
      ConcatAssoc(sent, t.sent, rest.sent);
    } else {
      assert Session(tail) == SessionEnd(0, turns[i].outcome.exc, false, turns[i].sent);
    }
  }

  lemma ResumesEnd<M>(turns: seq<Turn<M>>, pong: bool, sent: seq<M>)
    requires Resumes(turns, |turns|, pong, sent)
    ensures Session(turns) == SessionEnd(|turns|, ConnectionClosed, pong, sent)
  {
    assert turns[|turns|..] == [];
    assert sent + [] == sent;
  }
}
