/** A playview: the link between a character and the sessions playing it,
    with the hooks `join_session` runs. */
module Playviews {

  /** The hooks a join runs, in the order they run. */
  datatype PlayHook =
    | InitPlayview(session: string)
    | StartPlayview(session: string)
    | RecordLogin
    | Unstow
    | AnnounceJoinGame

  /** `at_login`: record the login, bring the character back into the world,
      announce it. */
  const LoginHooks: seq<PlayHook> := [RecordLogin, Unstow, AnnounceJoinGame]

  /** The hooks `join_session(session)` runs when `before` are the sessions
      already attached. */
  function JoinHooks(before: set<string>, session: string): seq<PlayHook> {
    (if before == {} then [InitPlayview(session)] else [])
    + (if |before + {session}| == 1 then [StartPlayview(session)] + LoginHooks else [])
  }

  /** The first session runs the initialisation and then the start, whose login
      hooks come in their fixed order. */
  lemma FirstJoinRunsAll(session: string)
    ensures JoinHooks({}, session)
      == [InitPlayview(session), StartPlayview(session), RecordLogin, Unstow, AnnounceJoinGame]
  {
    assert |{} + {session}| == 1;
  }

  /** Initialisation runs iff no session was attached; the start runs iff the
      joining session is then the only one. */
  lemma JoinHooksChoice(before: set<string>, session: string)
    ensures InitPlayview(session) in JoinHooks(before, session) <==> before == {}
    ensures StartPlayview(session) in JoinHooks(before, session) <==> before <= {session}
  {
    var after := before + {session};
    if before <= {session} {
      assert after == {session};
    } else {
      var other :| other in before && other != session;
      assert {other, session} <= after;
      assert |{other, session}| == 2;
      SubsetSize({other, session}, after);
    }
  }

  lemma SubsetSize(a: set<string>, b: set<string>)
    requires a <= b
    ensures |a| <= |b|
  {
    assert b == a + (b - a);
  }

  /** A session that joins while another session is attached starts nothing:
      the character is already in play. */
  lemma SecondSessionRunsNothing(before: set<string>, session: string)
    requires exists other :: other in before && other != session
    ensures JoinHooks(before, session) == []
  {
    var other :| other in before && other != session;
    assert other !in {session};
    JoinHooksChoice(before, session);
  }

  /** The sole attached session joining again runs the start once more, but not
      the initialisation. */
  lemma RejoinRestarts(session: string)
    ensures JoinHooks({session}, session) == [StartPlayview(session)] + LoginHooks
  {
    assert {session} + {session} == {session};
  }

  class Playview {
    var sessions: set<string>
    var hooks: seq<PlayHook>

    constructor ()
      ensures sessions == {} && hooks == []
    {
      sessions := {};
      hooks := [];
    }

    /** `join_session(session)`. */
    method JoinSession(session: string)
      modifies this
      ensures sessions == old(sessions) + {session}
      ensures hooks == old(hooks) + JoinHooks(old(sessions), session)
    {
      if sessions == {} {
        hooks := hooks + [InitPlayview(session)];
      }
      sessions := sessions + {session};
      if |sessions| == 1 {
        AtStartPlayview(session);
      }
    }

    /** `at_start_playview(session)`: the login hooks. */
    method AtStartPlayview(session: string)
      modifies this
      ensures sessions == old(sessions)
      ensures hooks == old(hooks) + [StartPlayview(session)] + LoginHooks
    {
      hooks := hooks + [StartPlayview(session)];
      hooks := hooks + [RecordLogin];
      hooks := hooks + [Unstow];
      hooks := hooks + [AnnounceJoinGame];
    }
  }
}
