// The phases of a driver's poll, as a path through the states of a node: antarc/src/server.rs and
// antarc/src/client.rs `poll`.
module Phases {

  // Between two phases: the node, and what the socket was given to send so far.
  datatype Stage<N, T> = Stage(node: N, sent: seq<T>)

  // What one phase may do to the node, by the phase's number.
  type PhaseRelation<!N> = (nat, N, N) -> bool

  // The first n phases, one after the other.
  ghost predicate InPhases<N>(phase: PhaseRelation<N>, path: seq<N>, n: nat) {
    && |path| == n + 1
    && forall i: nat :: i < n ==> PhaseAt(phase, path, i)
  }

  ghost predicate PhaseAt<N>(phase: PhaseRelation<N>, path: seq<N>, i: nat)
    requires i + 1 < |path|
  {
    phase(i, path[i], path[i + 1])
  }

  lemma OnePhaseMore<N>(phase: PhaseRelation<N>, path: seq<N>, n: nat, n': N)
    requires InPhases(phase, path, n) && phase(n, path[n], n')
    ensures InPhases(phase, path + [n'], n + 1)
  {
    var path' := path + [n'];
    forall i: nat | i < n + 1 ensures PhaseAt(phase, path', i) {
      if i < n { assert PhaseAt(phase, path, i); }
    }
  }
}
