/** The Python reference solver (value_iteration.py).

    A state is `[lid, mine, theirs, forced]`: the sticks in the lid, the sticks of the player
    to move and of the opponent, and whether the player must throw (1) or may choose to stop
    (0). The solver enumerates every state of a game with at most n sticks, then runs
    synchronous value iteration: a sweep reads the value vector `U_vec` and writes
    `U_vec_prime` and the policy `pi`, and the round loop copies the new vector back. Values
    are from the mover's point of view: 1 is a sure win, -1 a sure loss.
 */
module ValueIteration {
  import opened Dice

  datatype Option<T> = None | Some(value: T)

  /** `[i, j, k]` of `make_situations`: lid, player to move, opponent. */
  datatype Situation = Situation(lid: int, mine: int, theirs: int)

  /** A four-component state. Python stores the fourth component as 0/1 in the state list and
      as False/True in the successors; the two compare equal, so it is an `int` here. The same
      type holds the move vectors that `add_state` adds. */
  datatype State = State(lid: int, mine: int, theirs: int, forced: int)

  function Min(a: int, b: int): int {
    if a <= b then a else b
  }

  function Max(a: real, b: real): real {
    if a >= b then a else b
  }

  function Abs(x: real): real {
    if x >= 0.0 then x else -x
  }

  // ---------------------------------------------------------------- enumerating the states

  /** A situation of a game with n sticks left: the lid holds at most min(n, 5) of them and
      each player at least one. */
  predicate IsSituation(s: Situation, n: int) {
    s.lid + s.mine + s.theirs == n && 0 <= s.lid <= Min(n, PITS) && s.mine >= 1 && s.theirs >= 1
  }

  /** `a` comes before `b` in the list of `make_situations`: more sticks in the lid, or as many
      and more for the player to move. */
  predicate ListedBefore(a: Situation, b: Situation) {
    a.lid > b.lid || (a.lid == b.lid && a.mine > b.mine)
  }

  /** `make_situations(n)`: the lid count runs down from min(n, 5) to 0 and the mover's count
      from n down to 1; the opponent holds the rest, and a triple is kept when both players
      hold a stick. The result holds every situation exactly once, in listing order. */
  method MakeSituations(n: int) returns (res: seq<Situation>)
    ensures forall s :: s in res <==> IsSituation(s, n)
    ensures forall a, b :: 0 <= a < b < |res| ==> ListedBefore(res[a], res[b])
  {
    res := [];
    var i := Min(n, PITS);
    while i >= 0
      invariant i <= Min(n, PITS)
      invariant forall s :: s in res <==> IsSituation(s, n) && s.lid > i
      invariant forall a, b :: 0 <= a < b < |res| ==> ListedBefore(res[a], res[b])
      decreases i + 1
    {
      var j := n;
      while j > 0
        invariant j <= n
        invariant forall s :: s in res <==> IsSituation(s, n) && (s.lid > i || (s.lid == i && s.mine > j))
        invariant forall a, b :: 0 <= a < b < |res| ==> ListedBefore(res[a], res[b])
      {
        var k := n - i - j;
        if i >= 0 && !(j <= 0 || k <= 0) {
          res := res + [Situation(i, j, k)];
        }
        j := j - 1;
      }
      i := i - 1;
    }
  }

  function Total(st: State): int {
    st.lid + st.mine + st.theirs
  }

  /** A state of `make_states(n)`: a situation of a game with 1..n sticks left and a forced
      flag 0 or 1. */
  predicate IsState(st: State, n: int) {
    0 <= st.forced <= 1 && 1 <= Total(st) <= n
    && IsSituation(Situation(st.lid, st.mine, st.theirs), Total(st))
  }

  /** Python's list comparison on states: lexicographic over the four components. */
  predicate Greater(a: State, b: State) {
    a.lid > b.lid || (a.lid == b.lid &&
    (a.mine > b.mine || (a.mine == b.mine &&
    (a.theirs > b.theirs || (a.theirs == b.theirs && a.forced > b.forced)))))
  }

  predicate Distinct(s: seq<State>) {
    forall a, b :: 0 <= a < b < |s| ==> s[a] != s[b]
  }

  /** Sorted by `sort(reverse=True)` with no two states equal. */
  predicate Descending(s: seq<State>) {
    forall a, b :: 0 <= a < b < |s| ==> Greater(s[a], s[b])
  }

  lemma GreaterTransitive(a: State, b: State, c: State)
    requires Greater(a, b) && Greater(b, c)
    ensures Greater(a, c)
  {
  }

  /** Inserting a new state into a descending list keeps it descending and adds exactly that
      state. */
  function Insert(x: State, s: seq<State>): (r: seq<State>)
    requires x !in s && Descending(s)
    ensures |r| == |s| + 1
    ensures forall y :: y in r <==> y == x || y in s
    ensures Descending(r)
  {
    if |s| == 0 || Greater(x, s[0]) then
      assert forall b :: 0 < b < |s| ==> Greater(x, s[b]) by {
        forall b | 0 < b < |s| ensures Greater(x, s[b]) {
          GreaterTransitive(x, s[0], s[b]);
        }
      }
      [x] + s
    else
      assert s == [s[0]] + s[1..];
      var rest := Insert(x, s[1..]);
      assert forall y :: y in rest ==> Greater(s[0], y);
      [s[0]] + rest
  }

  /** `states.sort(reverse=True)` on a list without duplicates: the same states in descending
      order. */
  function SortDescending(s: seq<State>): (r: seq<State>)
    requires Distinct(s)
    ensures |r| == |s|
    ensures forall y :: y in r <==> y in s
    ensures Descending(r)
  {
    if |s| == 0 then []
    else
      assert s == [s[0]] + s[1..];
      Insert(s[0], SortDescending(s[1..]))
  }

  /** `[x + [forced] for x in s]`. */
  function WithForced(s: seq<Situation>, forced: int): seq<State> {
    seq(|s|, p requires 0 <= p < |s| => State(s[p].lid, s[p].mine, s[p].theirs, forced))
  }

  /** Appending the situations of one total with a forced flag larger than every listed state
      of that total keeps the list free of duplicates. */
  lemma AppendDistinct(all: seq<State>, s: seq<Situation>, i: int, j: int)
    requires Distinct(all)
    requires forall st :: st in all ==> Total(st) < i || (Total(st) == i && st.forced < j)
    requires forall s' :: s' in s ==> IsSituation(s', i)
    requires forall a, b :: 0 <= a < b < |s| ==> ListedBefore(s[a], s[b])
    ensures Distinct(all + WithForced(s, j))
  {
    var w := WithForced(s, j);
    var r := all + w;
    forall a, b | 0 <= a < b < |r| ensures r[a] != r[b] {
      if b >= |all| {
        assert r[b] == w[b - |all|];
        assert Total(r[b]) == i && r[b].forced == j by {
          assert s[b - |all|] in s;
        }
        if a < |all| {
          assert r[a] in all;
        } else {
          assert ListedBefore(s[a - |all|], s[b - |all|]);
        }
      }
    }
  }

  /** `make_states(n)`: the situations of every total 1..n, first with forced flag 0 and then
      with 1, sorted in descending order. Every state of a game with at most n sticks appears
      exactly once, and the list is strictly descending. */
  method MakeStates(n: int) returns (states: seq<State>)
    ensures forall st :: st in states <==> IsState(st, n)
    ensures Descending(states)
  {
    var all: seq<State> := [];
    var i := 1;
    while i <= n
      invariant 1 <= i <= if n >= 1 then n + 1 else 1
      invariant forall st :: st in all <==> IsState(st, i - 1)
      invariant Distinct(all)
    {
      var s := MakeSituations(i);
      for j := 0 to 2
        invariant forall st :: st in all <==>
                    IsState(st, i - 1) || (IsState(st, i) && Total(st) == i && st.forced < j)
        invariant Distinct(all)
      {
        AppendDistinct(all, s, i, j);
        var w := WithForced(s, j);
        forall st | st in w ensures IsState(st, i) && Total(st) == i && st.forced == j {
          var p :| 0 <= p < |w| && w[p] == st;
          assert s[p] in s;
        }
        forall st | IsState(st, i) && Total(st) == i && st.forced == j ensures st in w {
          var x := Situation(st.lid, st.mine, st.theirs);
          assert x in s;
          var p :| 0 <= p < |s| && s[p] == x;
          assert w[p] == st;
        }
        all := all + w;
      }
      i := i + 1;
    }
    states := SortDescending(all);
  }

  // ---------------------------------------------------------------- moves

  /** `swap`: the opponent moves next; the forced flag is overwritten when one is given. */
  function Swap(st: State, forcedMove: Option<bool>): State {
    var res := State(st.lid, st.theirs, st.mine, st.forced);
    if forcedMove.Some? then res.(forced := if forcedMove.value then 1 else 0) else res
  }

  /** `add_state`: componentwise sum, then the forced flag overwritten when one is given. */
  function AddState(st: State, delta: State, forcedMove: Option<bool>): State {
    var res := State(st.lid + delta.lid, st.mine + delta.mine, st.theirs + delta.theirs, st.forced + delta.forced);
    if forcedMove.Some? then res.(forced := if forcedMove.value then 1 else 0) else res
  }

  /** Swapping twice without a flag gives back the state, and a given flag is what the result
      carries. */
  lemma SwapInvolution(st: State, b: bool)
    ensures Swap(Swap(st, None), None) == st
    ensures Swap(st, Some(b)) == Swap(st, None).(forced := if b then 1 else 0)
    ensures Swap(st, Some(b)).lid == st.lid
  {
  }

  /** Adding a move vector and then its negation gives back the state, and a given flag only
      replaces the fourth component. */
  lemma AddStateInverse(st: State, delta: State, b: bool)
    ensures AddState(AddState(st, delta, None), State(-delta.lid, -delta.mine, -delta.theirs, -delta.forced), None) == st
    ensures AddState(st, delta, Some(b)) == AddState(st, delta, None).(forced := if b then 1 else 0)
  {
  }

  /** `state_six`: one stick into hole 6, the player keeps the turn and may stop. */
  function SixMove(st: State): State {
    AddState(st, State(0, -1, 0, 0), Some(false))
  }

  /** `state_free`: one stick into a free pit of the lid. */
  function FreeMove(st: State): State {
    AddState(st, State(1, -1, 0, 0), Some(false))
  }

  /** `state_occupied`: a stick taken from the lid, and the opponent must throw. */
  function OccupiedMove(st: State): State {
    Swap(AddState(st, State(-1, 1, 0, 0), Some(true)), None)
  }

  /** `state_swap`: the player stops and the opponent must throw. */
  function StopMove(st: State): State {
    Swap(st, Some(true))
  }

  predicate Terminal(st: State) {
    st.mine == 0 || st.theirs == 0
  }

  /** Every move the sweep evaluates from a state of `make_states(n)` ends in a terminal state
      or in another state of `make_states(n)`: the six and free moves may end the game, the
      free move is evaluated only below five sticks in the lid, the occupied move only above
      none, and neither it nor stopping ends the game. */
  lemma SuccessorsClosed(st: State, n: int)
    requires IsState(st, n)
    ensures Terminal(SixMove(st)) || IsState(SixMove(st), n)
    ensures st.lid < PITS ==> Terminal(FreeMove(st)) || IsState(FreeMove(st), n)
    ensures st.lid > 0 ==> !Terminal(OccupiedMove(st)) && IsState(OccupiedMove(st), n)
    ensures !Terminal(StopMove(st)) && IsState(StopMove(st), n)
  {
  }

  // ---------------------------------------------------------------- rewards and values

  /** `R`: 1 when the player to move has no sticks left (checked first), -1 when the opponent
      has none, 0 otherwise. */
  function Reward(st: State): (r: int)
    ensures r == 1 <==> st.mine == 0
    ensures r == -1 <==> st.mine != 0 && st.theirs == 0
    ensures r == 0 <==> !Terminal(st)
  {
    if st.mine == 0 then 1
    else if st.theirs == 0 then -1
    else 0
  }

  /** A state and its swap reward the two players oppositely, unless both hands are empty. */
  lemma RewardSwap(st: State, forcedMove: Option<bool>)
    requires st.mine != 0 || st.theirs != 0
    ensures Reward(Swap(st, forcedMove)) == -Reward(st)
  {
  }

  /** `states.index(state)`: a position holding the state (`IndexOfIsFirst`: the first). */
  function IndexOf(s: seq<State>, x: State): (p: nat)
    requires x in s
    ensures p < |s| && s[p] == x
  {
    if s[0] == x then 0 else 1 + IndexOf(s[1..], x)
  }

  /** No earlier position holds the state. */
  lemma {:induction false} IndexOfIsFirst(s: seq<State>, x: State, q: int)
    requires x in s && 0 <= q < IndexOf(s, x)
    ensures s[q] != x
  {
    if q > 0 {
      IndexOfIsFirst(s[1..], x, q - 1);
    }
  }

  /** `U`: no future value in a terminal state, else the value vector's entry for the state;
      the lookup fails unless the state is listed. */
  function Future(states: seq<State>, u: seq<real>, st: State): (r: real)
    requires |u| == |states| && (Terminal(st) || st in states)
    ensures Terminal(st) ==> r == 0.0
  {
    if st.mine == 0 then 0.0
    else if st.theirs == 0 then 0.0
    else u[IndexOf(states, st)]
  }

  /** In a list without duplicates, the future value of a listed, unfinished state is the
      entry at its position. */
  lemma FutureOfListed(states: seq<State>, u: seq<real>, p: int)
    requires |u| == |states| && Distinct(states) && 0 <= p < |states| && !Terminal(states[p])
    ensures Future(states, u, states[p]) == u[p]
  {
  }

  /** `R(s) + U(s)` for a move after which the player still moves. */
  function Outcome(states: seq<State>, u: seq<real>, st: State): real
    requires |u| == |states| && (Terminal(st) || st in states)
  {
    Reward(st) as real + Future(states, u, st)
  }

  /** The states listed are exactly those of `make_states(n)`. */
  ghost predicate Enumerates(states: seq<State>, n: int) {
    forall st :: st in states <==> IsState(st, n)
  }

  /** `qs_continue`: the three dice outcomes weighted by their probabilities; after an
      occupied pit the opponent moves, so its value counts negatively. */
  function ContinueQ(states: seq<State>, n: int, u: seq<real>, st: State): real
    requires Enumerates(states, n) && |u| == |states| && IsState(st, n)
  {
    SuccessorsClosed(st, n);
    var occupied := OccupiedMove(st);
    Mix(st.lid, if st.lid < PITS then Outcome(states, u, FreeMove(st)) else 0.0,
        Outcome(states, u, SixMove(st)),
        if st.lid > 0 then Reward(occupied) as real - Future(states, u, occupied) else 0.0)
  }

  /** `qs_stop`: the opponent's value of the swapped state, negated. */
  function StopQ(states: seq<State>, n: int, u: seq<real>, st: State): real
    requires Enumerates(states, n) && |u| == |states| && IsState(st, n)
  {
    SuccessorsClosed(st, n);
    -Outcome(states, u, StopMove(st))
  }

  /** What the sweep does at one position: the value it writes and whether `pi` says continue. */
  datatype Decision = Decision(value: real, continues: bool)

  /** The sweep's decision for position p, weighing the first `actions` of the two actions
      (continue, then stop). The sweep weighs both; a forced state only ever has the first:
      it keeps the continue value, and a choice state keeps the better one, continuing only
      when that is strictly better. `actions` only stages the definition: with it, the
      verifier expands the continue value and the comparison with the stop value one at a
      time instead of both at every use of a new value. */
  function Decide(states: seq<State>, n: int, u: seq<real>, p: int, actions: nat): Decision
    requires Enumerates(states, n) && |u| == |states| && 0 <= p < |states| && 1 <= actions <= 2
    decreases p, actions
  {
    if actions == 1 then Decision(ContinueQ(states, n, u, states[p]), true)
    else
      var qc := Decide(states, n, u, p, 1).value;
      if states[p].forced != 0 then Decision(qc, true)
      else
        var qs := StopQ(states, n, u, states[p]);
        Decision(Max(qc, qs), qc > qs)
  }

  /** `U_vec_prime[idx]`. */
  function NewValue(states: seq<State>, n: int, u: seq<real>, p: int): real
    requires Enumerates(states, n) && |u| == |states| && 0 <= p < |states|
  {
    Decide(states, n, u, p, 2).value
  }

  /** `pi[idx]`. */
  function Policy(states: seq<State>, n: int, u: seq<real>, p: int): bool
    requires Enumerates(states, n) && |u| == |states| && 0 <= p < |states|
  {
    Decide(states, n, u, p, 2).continues
  }

  /** The new values of the first k states, in list order. */
  function NewValuesUpTo(states: seq<State>, n: int, u: seq<real>, k: int): (v: seq<real>)
    requires Enumerates(states, n) && |u| == |states| && 0 <= k <= |states|
    ensures |v| == k
  {
    if k == 0 then [] else NewValuesUpTo(states, n, u, k - 1) + [NewValue(states, n, u, k - 1)]
  }

  /** The policy entries of the first k states. */
  function PoliciesUpTo(states: seq<State>, n: int, u: seq<real>, k: int): (v: seq<bool>)
    requires Enumerates(states, n) && |u| == |states| && 0 <= k <= |states|
    ensures |v| == k
  {
    if k == 0 then [] else PoliciesUpTo(states, n, u, k - 1) + [Policy(states, n, u, k - 1)]
  }

  /** `U_vec_prime` after a whole sweep. */
  function NewValues(states: seq<State>, n: int, u: seq<real>): seq<real>
    requires Enumerates(states, n) && |u| == |states|
  {
    NewValuesUpTo(states, n, u, |states|)
  }

  /** `pi` after a whole sweep. */
  function Policies(states: seq<State>, n: int, u: seq<real>): seq<bool>
    requires Enumerates(states, n) && |u| == |states|
  {
    PoliciesUpTo(states, n, u, |states|)
  }

  /** Entry p of the new vector is the new value of state p. */
  lemma {:induction false} NewValuesUpToAt(states: seq<State>, n: int, u: seq<real>, k: int, p: int)
    requires Enumerates(states, n) && |u| == |states| && 0 <= p < k <= |states|
    ensures NewValuesUpTo(states, n, u, k)[p] == NewValue(states, n, u, p)
    ensures PoliciesUpTo(states, n, u, k)[p] == Policy(states, n, u, p)
  {
    if p < k - 1 {
      NewValuesUpToAt(states, n, u, k - 1, p);
    }
  }

  /** The new value is the value of the action the policy picks, and no action is worth more;
      ties go to stop. */
  lemma NewValueIsBest(states: seq<State>, n: int, u: seq<real>, p: int)
    requires Enumerates(states, n) && |u| == |states| && 0 <= p < |states|
    ensures NewValue(states, n, u, p) ==
            if Policy(states, n, u, p) then ContinueQ(states, n, u, states[p]) else StopQ(states, n, u, states[p])
    ensures NewValue(states, n, u, p) >= ContinueQ(states, n, u, states[p])
    ensures states[p].forced == 0 ==> NewValue(states, n, u, p) >= StopQ(states, n, u, states[p])
    ensures states[p].forced == 0 && ContinueQ(states, n, u, states[p]) == StopQ(states, n, u, states[p])
            ==> !Policy(states, n, u, p)
    ensures states[p].forced != 0 ==> Policy(states, n, u, p)
  {
    assert IsState(states[p], n);
    assert Decide(states, n, u, p, 1).value == ContinueQ(states, n, u, states[p]);
  }

  ghost predicate InUnit(u: seq<real>) {
    forall p :: 0 <= p < |u| ==> -1.0 <= u[p] <= 1.0
  }

  /** With every value in [-1, 1], so is the outcome of any move the sweep looks up. */
  lemma OutcomeInUnit(states: seq<State>, u: seq<real>, st: State)
    requires |u| == |states| && (Terminal(st) || st in states) && InUnit(u)
    ensures -1.0 <= Outcome(states, u, st) <= 1.0
    ensures !Terminal(st) ==> -1.0 <= Reward(st) as real - Future(states, u, st) <= 1.0
  {
  }

  /** A sweep maps values in [-1, 1] to values in [-1, 1]. */
  lemma NewValuesInUnit(states: seq<State>, n: int, u: seq<real>)
    requires Enumerates(states, n) && |u| == |states| && InUnit(u)
    ensures InUnit(NewValues(states, n, u))
  {
    forall p | 0 <= p < |states|
      ensures -1.0 <= NewValues(states, n, u)[p] <= 1.0
    {
      NewValuesUpToAt(states, n, u, |states|, p);
      var st := states[p];
      assert IsState(st, n);
      SuccessorsClosed(st, n);
      var free := if st.lid < PITS then Outcome(states, u, FreeMove(st)) else 0.0;
      var occupied := if st.lid > 0 then Reward(OccupiedMove(st)) as real - Future(states, u, OccupiedMove(st)) else 0.0;
      OutcomeInUnit(states, u, SixMove(st));
      if st.lid < PITS {
        OutcomeInUnit(states, u, FreeMove(st));
      }
      if st.lid > 0 {
        OutcomeInUnit(states, u, OccupiedMove(st));
      }
      OutcomeInUnit(states, u, StopMove(st));
      MixWithin(st.lid, free, Outcome(states, u, SixMove(st)), occupied, -1.0, 1.0);
      assert Decide(states, n, u, p, 1).value == ContinueQ(states, n, u, st);
    }
  }

  /** The value vector after h sweeps from all zeros. */
  function Values(states: seq<State>, n: int, h: nat): (v: seq<real>)
    requires Enumerates(states, n)
    ensures |v| == |states|
  {
    if h == 0 then seq(|states|, _ => 0.0) else NewValues(states, n, Values(states, n, h - 1))
  }

  /** Every value stays in [-1, 1], so `prob = U/2 + 1/2` is a probability. */
  lemma {:induction false} ValuesInUnit(states: seq<State>, n: int, h: nat)
    requires Enumerates(states, n)
    ensures InUnit(Values(states, n, h))
    ensures forall p :: 0 <= p < |states| ==> 0.0 <= Values(states, n, h)[p] / 2.0 + 0.5 <= 1.0
  {
    if h > 0 {
      ValuesInUnit(states, n, h - 1);
      NewValuesInUnit(states, n, Values(states, n, h - 1));
    }
  }

  // ---------------------------------------------------------------- the sweep and the loop

  /** The four moves and the two action values of one state, as the loop body computes them. */
  method ActionValues(states: seq<State>, n: int, uvec: array<real>, st: State) returns (qc: real, qs: real)
    requires Enumerates(states, n) && uvec.Length == |states| && IsState(st, n)
    ensures qc == ContinueQ(states, n, uvec[..], st)
    ensures qs == StopQ(states, n, uvec[..], st)
  {
    var u := uvec[..];
    var stateSix := AddState(st, State(0, -1, 0, 0), Some(false));
    var stateFree := AddState(st, State(1, -1, 0, 0), Some(false));
    var stateOccupied := Swap(AddState(st, State(-1, 1, 0, 0), Some(true)), None);
    var stateSwap := Swap(st, Some(true));
    var i := st.lid;
    SuccessorsClosed(st, n);
    var six := Reward(stateSix) as real + Future(states, u, stateSix);
    var free := if i < 5 then Reward(stateFree) as real + Future(states, u, stateFree) else 0.0;
    var occupied := if i > 0 then Reward(stateOccupied) as real - Future(states, u, stateOccupied) else 0.0;
    qc := ContinueSum(i, six, free, occupied);
    qs := -(Reward(stateSwap) as real + Future(states, u, stateSwap));
  }

  /** `qs_continue` from the three outcome values: the free-pit term only below five sticks in
      the lid, the occupied-pit term only above none. */
  method ContinueSum(i: int, six: real, free: real, occupied: real) returns (qc: real)
    requires 0 <= i <= PITS
    ensures qc == Mix(i, free, six, occupied)
  {
    qc := (1.0 / 6.0) * six
          + (if i < 5 then ((5 - i) as real / 6.0) * free else 0.0)
          + (if i > 0 then (i as real / 6.0) * occupied else 0.0);
    MixIsWeightedSum(i, free, six, occupied);
    Weights(i);
  }

  /** The loop body's decision for position p: the forced state keeps the continue value,
      the choice state the larger one. */
  method Backup(states: seq<State>, n: int, uvec: array<real>, p: int) returns (value: real, continues: bool)
    requires Enumerates(states, n) && uvec.Length == |states| && 0 <= p < |states|
    ensures Decision(value, continues) == Decide(states, n, uvec[..], p, 2)
  {
    var state := states[p];
    assert IsState(state, n);
    var qsContinue, qsStop := ActionValues(states, n, uvec, state);
    assert Decide(states, n, uvec[..], p, 1).value == qsContinue;
    if state.forced == 0 {
      value, continues := Max(qsContinue, qsStop), qsContinue > qsStop;
    } else {
      value, continues := qsContinue, true;
    }
  }

  /** The largest change between corresponding entries, taken in list order as `Delta =
      max(Delta, abs(...))` accumulates it. */
  function MaxChange(a: seq<real>, b: seq<real>): real
    requires |a| == |b|
  {
    if |a| == 0 then 0.0 else Max(MaxChange(a[..|a| - 1], b[..|b| - 1]), Abs(a[|a| - 1] - b[|b| - 1]))
  }

  /** `Delta` bounds every entry's change and is the change of some entry, or 0. */
  lemma {:induction false} MaxChangeIsLargest(a: seq<real>, b: seq<real>)
    requires |a| == |b|
    ensures 0.0 <= MaxChange(a, b)
    ensures forall p :: 0 <= p < |a| ==> Abs(a[p] - b[p]) <= MaxChange(a, b)
    ensures MaxChange(a, b) == 0.0 || exists p :: 0 <= p < |a| && Abs(a[p] - b[p]) == MaxChange(a, b)
  {
    if |a| > 0 {
      var a', b' := a[..|a| - 1], b[..|b| - 1];
      MaxChangeIsLargest(a', b');
      assert forall p :: 0 <= p < |a'| ==> a'[p] == a[p] && b'[p] == b[p];
    }
  }

  /** The largest change made by sweep h, the `Delta` that sweep computes. */
  function Change(states: seq<State>, n: int, h: nat): real
    requires Enumerates(states, n) && h >= 1
  {
    MaxChange(Values(states, n, h - 1), Values(states, n, h))
  }

  /** Each of the first m sweeps changed some value by more than EPSILON, so the loop did
      not stop after any of them. */
  predicate KeptChanging(states: seq<State>, n: int, m: nat)
    requires Enumerates(states, n)
  {
    m == 0 || (Change(states, n, m) > EPSILON && KeptChanging(states, n, m - 1))
  }

  /** The loop stopped after sweep m: its change was at most EPSILON, and no earlier sweep's
      was. */
  predicate StoppedAfter(states: seq<State>, n: int, m: nat)
    requires Enumerates(states, n)
  {
    m > 0 && Change(states, n, m) <= EPSILON && KeptChanging(states, n, m - 1)
  }

  /** After a further sweep with largest change `delta`, the loop either goes on or stops
      there, as `delta` exceeds EPSILON or not. */
  lemma KeptChangingAfter(states: seq<State>, n: int, m: nat, delta: real)
    requires Enumerates(states, n) && m >= 1 && KeptChanging(states, n, m - 1)
    requires delta == MaxChange(Values(states, n, m - 1), Values(states, n, m))
    ensures delta > EPSILON <==> KeptChanging(states, n, m)
    ensures delta <= EPSILON <==> StoppedAfter(states, n, m)
  {
  }

  lemma {:induction false} KeptChangingEvery(states: seq<State>, n: int, m: nat)
    requires Enumerates(states, n) && KeptChanging(states, n, m)
    ensures forall h :: 1 <= h <= m ==> Change(states, n, h) > EPSILON
  {
    if m > 0 {
      KeptChangingEvery(states, n, m - 1);
    }
  }

  /** One pass of `for idx in range(n_states)`: reads `uvec`, writes the new values and the
      policy, and returns the largest change of any entry. */
  method Sweep(states: seq<State>, n: int, uvec: array<real>, uvecPrime: array<real>, pi: array<bool>)
    returns (delta: real)
    requires Enumerates(states, n)
    requires uvec.Length == |states| && uvecPrime.Length == |states| && pi.Length == |states|
    requires uvec != uvecPrime
    modifies uvecPrime, pi
    ensures uvecPrime[..] == NewValues(states, n, uvec[..])
    ensures pi[..] == Policies(states, n, uvec[..])
    ensures delta == MaxChange(uvec[..], uvecPrime[..])
  {
    ghost var u := uvec[..];
    delta := 0.0;
    for idx := 0 to |states|
      invariant uvec[..] == u
      invariant uvecPrime[..idx] == NewValuesUpTo(states, n, u, idx)
      invariant pi[..idx] == PoliciesUpTo(states, n, u, idx)
      invariant delta == MaxChange(u[..idx], uvecPrime[..idx])
    {
      var value, continues := Backup(states, n, uvec, idx);
      uvecPrime[idx] := value;
      pi[idx] := continues;
      delta := Max(delta, Abs(uvec[idx] - uvecPrime[idx]));
      assert u[..idx + 1][..idx] == u[..idx] && uvecPrime[..idx + 1][..idx] == uvecPrime[..idx];
    }
    assert uvecPrime[..] == uvecPrime[..|states|] && pi[..] == pi[..|states|] && u == u[..|states|];
  }

  /** One round of the `while` loop: a sweep, then `U_vec = U_vec_prime.copy()`. */
  method Round(states: seq<State>, n: int, uvec: array<real>, uvecPrime: array<real>, pi: array<bool>)
    returns (next: array<real>, delta: real)
    requires Enumerates(states, n)
    requires uvec.Length == |states| && uvecPrime.Length == |states| && pi.Length == |states|
    requires uvec != uvecPrime
    modifies uvecPrime, pi
    ensures fresh(next) && next.Length == |states|
    ensures next[..] == NewValues(states, n, uvec[..])
    ensures pi[..] == Policies(states, n, uvec[..])
    ensures delta == MaxChange(uvec[..], next[..])
  {
    ghost var u := uvec[..];
    delta := Sweep(states, n, uvec, uvecPrime, pi);
    var v := uvecPrime[..];
    next := new real[|states|](p => if 0 <= p < |v| then v[p] else 0.0);
    assert next[..] == v;
  }

  /** The convergence threshold `epsilon = 1e-10`. */
  const EPSILON: real := 0.0000000001

  /** The `while Delta > epsilon` loop of `optimal_strategy`, here for at most `fuel` sweeps
      from the all-zero values in `uvec0`: it stops after the first sweep that changes no
      entry by more than EPSILON. */
  method Converge(states: seq<State>, n: int, uvec0: array<real>, uvecPrime: array<real>, pi: array<bool>,
                  fuel: nat)
    returns (uvec: array<real>, iterations: nat, stop: bool)
    requires Enumerates(states, n)
    requires uvec0.Length == |states| && uvecPrime.Length == |states| && pi.Length == |states|
    requires uvec0 != uvecPrime
    requires uvec0[..] == Values(states, n, 0)
    modifies uvecPrime, pi
    ensures uvec.Length == |states|
    ensures iterations <= fuel && (!stop ==> iterations == fuel)
    ensures uvec[..] == Values(states, n, iterations)
    ensures iterations > 0 ==> pi[..] == Policies(states, n, Values(states, n, iterations - 1))
    ensures if stop then StoppedAfter(states, n, iterations) else KeptChanging(states, n, iterations)
  {
    uvec := uvec0;
    stop := false;
    iterations := 0;
    while !stop && iterations < fuel
      invariant iterations <= fuel
      invariant uvec.Length == |states| && uvec != uvecPrime
      invariant uvec[..] == Values(states, n, iterations)
      invariant iterations > 0 ==> pi[..] == Policies(states, n, Values(states, n, iterations - 1))
      invariant if stop then StoppedAfter(states, n, iterations) else KeptChanging(states, n, iterations)
      decreases fuel - iterations
    {
      ghost var previous := uvec[..];
      var next, delta := Round(states, n, uvec, uvecPrime, pi);
      iterations := iterations + 1;
      assert Values(states, n, iterations) == NewValues(states, n, previous);
      uvec := next;
      stop := delta <= EPSILON;
      KeptChangingAfter(states, n, iterations, delta);
    }
  }

  /** `optimal_strategy(n)`: value iteration from all zeros until no entry changes by more than
      EPSILON, here for at most `fuel` rounds. */
  method OptimalStrategy(n: int, fuel: nat)
    returns (states: seq<State>, uvec: array<real>, pi: array<bool>, iterations: nat, stop: bool)
    ensures forall st :: st in states <==> IsState(st, n)
    ensures Descending(states)
    ensures uvec.Length == |states| && pi.Length == |states|
    ensures iterations <= fuel && (!stop ==> iterations == fuel)
    ensures uvec[..] == Values(states, n, iterations)
    ensures iterations > 0 ==> pi[..] == Policies(states, n, Values(states, n, iterations - 1))
    ensures stop ==> iterations > 0 && Change(states, n, iterations) <= EPSILON
    ensures forall h :: 1 <= h < iterations ==> Change(states, n, h) > EPSILON
    ensures InUnit(uvec[..])
  {
    states := MakeStates(n);
    var nStates := |states|;
    var uvec0 := new real[nStates](_ => 0.0);
    var uvecPrime := new real[nStates](_ => 0.0);
    pi := new bool[nStates](_ => false);
    assert uvec0[..] == Values(states, n, 0);
    uvec, iterations, stop := Converge(states, n, uvec0, uvecPrime, pi, fuel);
    KeptChangingEvery(states, n, if stop then iterations - 1 else iterations);
    ValuesInUnit(states, n, iterations);
  }
}
