/** tabTurnAdmission: the token beginTabTurn returns. It owns the read side of
    runtimeAdmissionMu and the tab's gate; finish and the deferred abort may
    both be called, in any order and any number of times. */
module TurnToken {

  /** A call of finish with a controller (and whether it reports a running
      turn) or of abort, which is finish(nil). */
  datatype Call = Finish(running: bool) | Abort

  /** The token and what it has done to the locks and the sink so far. */
  datatype TokenState = TokenState(released: bool, gateUnlocks: nat, readUnlocks: nat, turnReserved: bool)

  const FRESH := TokenState(false, 0, 0, true)

  function Started(st: TokenState, c: Call): bool {
    !st.released && c.Finish? && c.running
  }

  function After(st: TokenState, c: Call): TokenState {
    if st.released then st
    else TokenState(true, st.gateUnlocks + 1, st.readUnlocks + 1, st.turnReserved && Started(st, c))
  }

  function AfterAll(st: TokenState, calls: seq<Call>): TokenState {
    if |calls| == 0 then st else After(AfterAll(st, calls[..|calls| - 1]), calls[|calls| - 1])
  }

  /** Whatever the calls and their order, both locks are released exactly once,
      and the reservation survives exactly when the first call was a finish
      that saw its turn running. */
  lemma {:induction false} ReleasedExactlyOnce(calls: seq<Call>)
    requires |calls| > 0
    ensures AfterAll(FRESH, calls) == TokenState(true, 1, 1, calls[0] == Finish(true))
  {
    var init := calls[..|calls| - 1];
    if |init| > 0 {
      ReleasedExactlyOnce(init);
      assert init[0] == calls[0];
    } else {
      assert AfterAll(FRESH, init) == FRESH;
    }
  }

  /** Only the first call can report that a turn started. */
  lemma OnlyFirstCallReportsStart(calls: seq<Call>, c: Call)
    ensures Started(AfterAll(FRESH, calls), c) <==> calls == [] && c == Finish(true)
  {
    if |calls| > 0 {
      ReleasedExactlyOnce(calls);
    }
  }

  class TabTurnAdmission {
    var released: bool
    var gateUnlocks: nat
    var readUnlocks: nat
    var turnReserved: bool

    function View(): TokenState
      reads this
    {
      TokenState(released, gateUnlocks, readUnlocks, turnReserved)
    }

    constructor ()
      ensures View() == FRESH
    {
      released, gateUnlocks, readUnlocks, turnReserved := false, 0, 0, true;
    }

    /** The deferred unlocks run gate first, then the read side, after the
        status read and the reservation's cancellation. */
    method FinishWith(c: Call) returns (started: bool)
      modifies this
      ensures started == old(Started(View(), c))
      ensures View() == old(After(View(), c))
    {
      if released {
        return false;
      }
      released := true;
      started := c.Finish? && c.running;
      if !started {
        turnReserved := false;
      }
      gateUnlocks := gateUnlocks + 1;
      readUnlocks := readUnlocks + 1;
    }

    method AbortTurn()
      modifies this
      ensures View() == old(After(View(), Abort))
    {
      var _ := FinishWith(Abort);
    }
  }
}
