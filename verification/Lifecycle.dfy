/** The frozen lifecycle of one attempt. */
module Lifecycle {

  datatype Stage = Detected | Snapshotted | Remediating | Verifying | Recovered | RollingBack | RolledBack | Logged

  function AllowedTransitions(from: Stage): set<Stage> {
    match from
    case Detected => {Snapshotted}
    case Snapshotted => {Remediating}
    case Remediating => {Verifying}
    case Verifying => {Recovered, RollingBack}
    case Recovered => {Logged}
    case RollingBack => {RolledBack}
    case RolledBack => {Logged}
    case Logged => {}
  }

  class StateMachine {
    var current: Stage

    constructor ()
      ensures current == Detected
    {
      current := Detected;
    }

    method Transition(next: Stage) returns (accepted: bool)
      modifies this
      ensures accepted <==> next in AllowedTransitions(old(current))
      ensures current == if accepted then next else old(current)
    {
      accepted := next in AllowedTransitions(current);
      if accepted {
        current := next;
      }
    }
  }

  const RECOVERY := [Detected, Snapshotted, Remediating, Verifying, Recovered, Logged]
  const ROLLBACK := [Detected, Snapshotted, Remediating, Verifying, RollingBack, RolledBack, Logged]

  /** What a machine can go through: it starts at DETECTED and every step is allowed. */
  predicate Walk(path: seq<Stage>) {
    path != [] && path[0] == Detected && forall k | 0 <= k < |path| - 1 :: path[k + 1] in AllowedTransitions(path[k])
  }

  lemma {:induction false} WalkPosition(path: seq<Stage>, k: nat)
    requires Walk(path) && k < |path|
    ensures k < |ROLLBACK| && (path[k] == ROLLBACK[k] || (k < |RECOVERY| && path[k] == RECOVERY[k]))
    ensures k == 4 || k == 5 ==>
        path[k] in {Recovered, Logged, RollingBack, RolledBack}
        && (path[k] in {Recovered, Logged} <==> path[4] == Recovered)
    ensures k == 6 ==> path[4] == RollingBack
  {
    if k > 0 {
      WalkPosition(path, k - 1);
      assert path[k - 1 + 1] in AllowedTransitions(path[k - 1]);
    }
  }

  /** The table allows exactly the beginnings of two lifecycles, one ending a recovery, one a rollback. */
  lemma WalksAreTwoLifecycles(path: seq<Stage>)
    ensures Walk(path) <==> path != [] && (path <= RECOVERY || path <= ROLLBACK)
  {
    if Walk(path) {
      forall k: nat | k < |path| ensures k < |ROLLBACK| && (path[k] == ROLLBACK[k]
          || (k < |RECOVERY| && path[k] == RECOVERY[k])) {
        WalkPosition(path, k);
      }
      if |path| > 4 {
        WalkPosition(path, |path| - 1);
        if |path| > 5 {
          WalkPosition(path, 5);
        }
        WalkPosition(path, 4);
      }
    } else if path != [] && (path <= RECOVERY || path <= ROLLBACK) {
      assert path[0] == Detected;
      forall k | 0 <= k < |path| - 1 ensures path[k + 1] in AllowedTransitions(path[k]) {
        assert path <= RECOVERY ==> path[k] == RECOVERY[k] && path[k + 1] == RECOVERY[k + 1];
        assert path <= ROLLBACK ==> path[k] == ROLLBACK[k] && path[k + 1] == ROLLBACK[k + 1];
      }
      assert false;
    }
  }
}
