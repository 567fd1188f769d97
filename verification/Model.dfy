/** Entities of the server's state that several parts work on. */
module Model {

  type Id = string

  datatype OnFailure = Block | Direct

  datatype Policy = Policy(source: Id, exits: seq<Id>, onFailure: OnFailure, active: Id)

  datatype Mapping = Mapping(
    id: Id, name: string, protocol: string, listen: int, device: Id, target: int,
    domain: string, enabled: bool, error: string)

  predicate HasPolicy(ps: seq<Policy>, source: Id) { exists i :: 0 <= i < |ps| && ps[i].source == source }

  function Replaced(ps: seq<Policy>, p: Policy): seq<Policy> {
    seq(|ps|, i requires 0 <= i < |ps| => if ps[i].source == p.source then p else ps[i])
  }

  /** Every policy of the same source is overwritten in place; a new source goes to the end. */
  function WithPolicy(ps: seq<Policy>, p: Policy): seq<Policy> {
    if HasPolicy(ps, p.source) then Replaced(ps, p) else ps + [p]
  }

  /** Every policy of p's source is p, and if there was none p is the last; the others stay. */
  ghost predicate PolicySet(was: seq<Policy>, now: seq<Policy>, p: Policy) {
    && p in now
    && (forall i :: 0 <= i < |was| ==> i < |now| && now[i] == if was[i].source == p.source then p else was[i])
    && (if exists i :: 0 <= i < |was| && was[i].source == p.source then |now| == |was| else now == was + [p])
  }

  lemma PolicyIsSet(ps: seq<Policy>, p: Policy)
    ensures PolicySet(ps, WithPolicy(ps, p), p)
  {
    if HasPolicy(ps, p.source) {
      var i :| 0 <= i < |ps| && ps[i].source == p.source;
      assert Replaced(ps, p)[i] == p;
    } else {
      assert (ps + [p])[|ps|] == p;
    }
  }
}
