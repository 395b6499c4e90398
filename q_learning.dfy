/**
 * The tabular Q-learning agent. Its table maps state keys to rows of
 * action values; like Python's nested `defaultdict`, reading a missing row
 * creates an empty one, and a missing action value reads as 0.0.
 * Exploration and tie-breaking take their unit draws as arguments.
 */
module QLearning {
  import opened Support
  import opened Draws
  import opened StepResults

  /** Where `xs[s:]` starts in a list of length `n`: a negative `s` counts from the end; both clamp to `[0, n]`. */
  function SliceStart(s: int, n: nat): (k: nat)
    ensures k <= n
    ensures s < 0 ==> k == Max(s + n, 0)
    ensures s >= 0 ==> k == Min(s, n)
  {
    if s < 0 then (if s + n < 0 then 0 else s + n)
    else if s > n then n
    else s
  }

  /** The actions of a history as the strings of a Python tuple. */
  function TextItems(xs: seq<string>): (vs: seq<Value>)
    ensures |vs| == |xs|
    ensures forall i :: 0 <= i < |xs| ==> vs[i] == Text(xs[i])
  {
    seq(|xs|, i requires 0 <= i < |xs| => Text(xs[i]))
  }

  /** `tuple(history[-window:])`. */
  function HistoryKey(history: seq<string>, window: int): (key: Value)
    ensures key.Tuple?
  {
    Tuple(TextItems(history[SliceStart(-window, |history|)..]))
  }

  /** For a window of at least one, the key is the last `min(window, |history|)` actions, oldest first. */
  lemma HistoryKeyIsWindow(history: seq<string>, window: int)
    requires window >= 1
    ensures var n := Min(window, |history|);
            |HistoryKey(history, window).items| == n
            && forall i :: 0 <= i < n ==> HistoryKey(history, window).items[i] == Text(history[|history| - n + i])
  {
  }

  /** Python reads `history[-0:]` as `history[0:]`: a window of 0 keys on the whole history. */
  lemma HistoryKeyZeroWindow(history: seq<string>)
    ensures HistoryKey(history, 0) == Tuple(TextItems(history))
  {
    assert history[0..] == history;
  }

  /** `_get_state_key(state)`. */
  function StateKey(useHistory: bool, history: seq<string>, window: int, state: Value): (key: Value)
    ensures useHistory ==> key == HistoryKey(history, window)
    ensures !useHistory ==> key == (if state.List? then Tuple(state.elems) else state)
  {
    if useHistory then HistoryKey(history, window)
    else if state.List? then Tuple(state.elems)
    else state
  }

  /** In history mode the key does not depend on the state at all. */
  lemma HistoryKeyIgnoresState(history: seq<string>, window: int, s1: Value, s2: Value)
    ensures StateKey(true, history, window, s1) == StateKey(true, history, window, s2)
  {
  }

  /** Without history a key is never a list, so it is its own key. */
  lemma StateKeyIsKey(history: seq<string>, window: int, state: Value)
    ensures !StateKey(false, history, window, state).List?
    ensures var k := StateKey(false, history, window, state); StateKey(false, history, window, k) == k
  {
  }

  type Row = map<string, real>

  type QTable = map<Value, Row>

  /** `row.get(a, 0.0)`. */
  function GetQ(row: Row, a: string): real
  {
    if a in row then row[a] else 0.0
  }

  /** The value a read of entry `(key, a)` sees: 0.0 for a missing row or action. */
  function Lookup(t: QTable, key: Value, a: string): real
  {
    if key in t then GetQ(t[key], a) else 0.0
  }

  /** `q_table[key]` on the `defaultdict`: a missing row is created empty, every other row is kept. */
  function Touch(t: QTable, key: Value): (t': QTable)
    ensures key in t' && t'.Keys == t.Keys + {key}
    ensures forall k :: k in t ==> t'[k] == t[k]
    ensures key !in t ==> t'[key] == map[]
  {
    if key in t then t else t[key := map[]]
  }

  /** Creating an empty row changes no value any read sees. */
  lemma TouchKeepsLookups(t: QTable, key: Value, k: Value, a: string)
    ensures Lookup(Touch(t, key), k, a) == Lookup(t, k, a)
  {
  }

  /** A non-empty row has an entry whose value no other entry exceeds. */
  lemma {:induction false} RowHasMax(row: Row)
    requires row != map[]
    ensures exists a :: a in row && forall b :: b in row ==> row[b] <= row[a]
    decreases |row|
  {
    var a :| a in row;
    var rest := row - {a};
    if rest != map[] {
      RowHasMax(rest);
      var c :| c in rest && forall b :: b in rest ==> rest[b] <= rest[c];
      assert forall b :: b in row ==> b == a || b in rest;
      if row[a] <= rest[c] {
        assert forall b :: b in row ==> row[b] <= row[c];
      } else {
        assert forall b :: b in row ==> row[b] <= row[a];
      }
    } else {
      assert rest.Keys == row.Keys - {a} == {};
      assert row.Keys == {a};
    }
  }

  /** `max(row.values()) if row else 0.0`: the largest value stored in the row, 0.0 for an empty row. */
  function MaxNext(row: Row): (m: real)
    ensures row == map[] ==> m == 0.0
    ensures row != map[] ==> (exists a :: a in row && row[a] == m) && forall a :: a in row ==> row[a] <= m
  {
    if row == map[] then 0.0
    else
      RowHasMax(row);
      var a :| a in row && forall b :: b in row ==> row[b] <= row[a];
      row[a]
  }

  /** The temporal-difference rule `q + alpha * (reward + gamma * maxNext - q)`. */
  function TDUpdate(q: real, alpha: real, gamma: real, reward: real, maxNext: real): real
  {
    q + alpha * (reward + gamma * maxNext - q)
  }

  /** The new value is a weighted mean of the old value and the target `reward + gamma * maxNext`. */
  lemma TDConvex(q: real, alpha: real, gamma: real, reward: real, maxNext: real)
    ensures TDUpdate(q, alpha, gamma, reward, maxNext) == (1.0 - alpha) * q + alpha * (reward + gamma * maxNext)
    ensures alpha == 0.0 ==> TDUpdate(q, alpha, gamma, reward, maxNext) == q
    ensures alpha == 1.0 ==> TDUpdate(q, alpha, gamma, reward, maxNext) == reward + gamma * maxNext
  {
  }

  /** A rate in `[0, 1]` moves the value toward the target without overshooting it. */
  lemma TDTowardTarget(q: real, alpha: real, gamma: real, reward: real, maxNext: real)
    requires 0.0 <= alpha <= 1.0
    ensures var target := reward + gamma * maxNext;
            var q' := TDUpdate(q, alpha, gamma, reward, maxNext);
            (q <= target ==> q <= q' <= target) && (target <= q ==> target <= q' <= q)
  {
    var target := reward + gamma * maxNext;
    var q' := TDUpdate(q, alpha, gamma, reward, maxNext);
    assert q' - q == alpha * (target - q);
    assert target - q' == (1.0 - alpha) * (target - q);
    MulSigns(alpha, target - q);
    MulSigns(1.0 - alpha, target - q);
  }

  /** A product has the sign its factors give it. */
  lemma MulSigns(x: real, y: real)
    requires x >= 0.0
    ensures y >= 0.0 ==> x * y >= 0.0
    ensures y <= 0.0 ==> x * y <= 0.0
  {
  }

  /** Rate 0.5, discount 0, value 2 and a reinforced step give 1.5. */
  lemma TDExample()
    ensures TDUpdate(2.0, 0.5, 0.0, 1.0, 7.0) == 1.5
  {
  }

  /** The table after `update`: the next row is read (and created), then entry `(key, action)` gets the new value. */
  function Updated(t: QTable, key: Value, nextKey: Value, action: string, alpha: real, gamma: real, reward: real): QTable
  {
    var t1 := Touch(t, nextKey);
    var maxNext := MaxNext(t1[nextKey]);
    var t2 := Touch(t1, key);
    t2[key := t2[key][action := TDUpdate(Lookup(t2, key, action), alpha, gamma, reward, maxNext)]]
  }

  /** The maximum over the next row that the update uses, as a function of the table before it. */
  function NextMax(t: QTable, nextKey: Value): real
  {
    if nextKey in t then MaxNext(t[nextKey]) else 0.0
  }

  /**
   * `update` sets entry `(key, action)` by the TD rule and leaves every
   * other entry's value as it was; every other row is kept as it was, the
   * table gains empty rows for the two keys if they were missing, and the
   * updated row gains only `action`.
   */
  lemma UpdatedEntries(t: QTable, key: Value, nextKey: Value, action: string, alpha: real, gamma: real, reward: real)
    ensures var t' := Updated(t, key, nextKey, action, alpha, gamma, reward);
            t'.Keys == t.Keys + {key, nextKey}
            && key in t' && action in t'[key]
            && Lookup(t', key, action) == TDUpdate(Lookup(t, key, action), alpha, gamma, reward, NextMax(t, nextKey))
            && (forall k, a :: (k != key || a != action) ==> Lookup(t', k, a) == Lookup(t, k, a))
            && (forall k :: k in t && k != key ==> t'[k] == t[k])
            && (nextKey !in t && nextKey != key ==> t'[nextKey] == map[])
            && t'[key].Keys == (if key in t then t[key].Keys else {}) + {action}
  {
    UpdatedReads(t, key, nextKey, action, alpha, gamma, reward);
    UpdatedRows(t, key, nextKey, action, alpha, gamma, reward);
  }

  /** The reads after `update`: the TD value at `(key, action)`, every other read as before. */
  lemma UpdatedReads(t: QTable, key: Value, nextKey: Value, action: string, alpha: real, gamma: real, reward: real)
    ensures var t' := Updated(t, key, nextKey, action, alpha, gamma, reward);
            t'.Keys == t.Keys + {key, nextKey}
            && key in t' && action in t'[key]
            && Lookup(t', key, action) == TDUpdate(Lookup(t, key, action), alpha, gamma, reward, NextMax(t, nextKey))
            && (forall k, a :: (k != key || a != action) ==> Lookup(t', k, a) == Lookup(t, k, a))
  {
    var t1 := Touch(t, nextKey);
    assert MaxNext(t1[nextKey]) == NextMax(t, nextKey);
  }

  /** The rows `update` touches: the others are kept, a missing next row is empty, and the updated row gains only `action`. */
  lemma UpdatedRows(t: QTable, key: Value, nextKey: Value, action: string, alpha: real, gamma: real, reward: real)
    ensures var t' := Updated(t, key, nextKey, action, alpha, gamma, reward);
            && (forall k :: k in t && k != key ==> t'[k] == t[k])
            && (nextKey !in t && nextKey != key ==> t'[nextKey] == map[])
            && t'[key].Keys == (if key in t then t[key].Keys else {}) + {action}
  {
  }

  /** Every stored value lies in `[0, hi]`. */
  predicate Bounded(t: QTable, hi: real)
  {
    forall k, a :: k in t && a in t[k] ==> 0.0 <= t[k][a] <= hi
  }

  /**
   * With rewards in `[0, 1]`, a rate in `[0, 1]` and a discount in `[0, 1)`,
   * values stay in `[0, hi]` for any `hi` with `1 + gamma * hi <= hi`
   * (such as `1 / (1 - gamma)`).
   */
  lemma UpdatedBounded(t: QTable, key: Value, nextKey: Value, action: string, alpha: real, gamma: real, reward: real, hi: real)
    requires 0.0 <= alpha <= 1.0 && 0.0 <= gamma && 0.0 <= reward <= 1.0
    requires 0.0 <= hi && 1.0 + gamma * hi <= hi
    requires Bounded(t, hi)
    ensures Bounded(Updated(t, key, nextKey, action, alpha, gamma, reward), hi)
  {
    var t' := Updated(t, key, nextKey, action, alpha, gamma, reward);
    UpdatedEntries(t, key, nextKey, action, alpha, gamma, reward);
    NewValueBounded(t, key, nextKey, action, alpha, gamma, reward, hi);
    forall k, a | k in t' && a in t'[k] ensures 0.0 <= t'[k][a] <= hi {
      assert t'[k][a] == Lookup(t', k, a);
      if k != key || a != action {
        LookupBounded(t, k, a, hi);
      }
    }
  }

  lemma LookupBounded(t: QTable, k: Value, a: string, hi: real)
    requires 0.0 <= hi && Bounded(t, hi)
    ensures 0.0 <= Lookup(t, k, a) <= hi
  {
  }

  lemma NextMaxBounded(t: QTable, nextKey: Value, hi: real)
    requires 0.0 <= hi && Bounded(t, hi)
    ensures 0.0 <= NextMax(t, nextKey) <= hi
  {
    if nextKey in t && t[nextKey] != map[] {
      var a :| a in t[nextKey] && t[nextKey][a] == NextMax(t, nextKey);
    }
  }

  /** The value `update` stores stays in `[0, hi]`: the old value and the target both lie there. */
  lemma NewValueBounded(t: QTable, key: Value, nextKey: Value, action: string, alpha: real, gamma: real, reward: real, hi: real)
    requires 0.0 <= alpha <= 1.0 && 0.0 <= gamma && 0.0 <= reward <= 1.0
    requires 0.0 <= hi && 1.0 + gamma * hi <= hi
    requires Bounded(t, hi)
    ensures 0.0 <= TDUpdate(Lookup(t, key, action), alpha, gamma, reward, NextMax(t, nextKey)) <= hi
  {
    var q, m := Lookup(t, key, action), NextMax(t, nextKey);
    LookupBounded(t, key, action, hi);
    NextMaxBounded(t, nextKey, hi);
    TDBounded(q, alpha, gamma, reward, m, hi);
  }

  lemma TDBounded(q: real, alpha: real, gamma: real, reward: real, m: real, hi: real)
    requires 0.0 <= alpha <= 1.0 && 0.0 <= gamma && 0.0 <= reward <= 1.0
    requires 0.0 <= hi && 1.0 + gamma * hi <= hi
    requires 0.0 <= q <= hi && 0.0 <= m <= hi
    ensures 0.0 <= TDUpdate(q, alpha, gamma, reward, m) <= hi
  {
    MulSigns(gamma, m);
    MulSigns(gamma, hi - m);
    TDTowardTarget(q, alpha, gamma, reward, m);
  }

  /** `max(q_values.get(a, 0.0) for a in available_actions)`. */
  function MaxQ(row: Row, actions: seq<string>): (m: real)
    requires |actions| > 0
    ensures forall a :: a in actions ==> GetQ(row, a) <= m
    ensures exists a :: a in actions && GetQ(row, a) == m
  {
    if |actions| == 1 then GetQ(row, actions[0])
    else
      var rest := MaxQ(row, actions[1..]);
      assert forall a :: a in actions ==> a == actions[0] || a in actions[1..];
      MaxReal(GetQ(row, actions[0]), rest)
  }

  /** `[a for a in available_actions if q_values.get(a, 0.0) == m]`, order kept. */
  function BestActions(row: Row, actions: seq<string>, m: real): (best: seq<string>)
    ensures forall a :: a in best <==> a in actions && GetQ(row, a) == m
  {
    if actions == [] then []
    else
      assert forall a :: a in actions ==> a == actions[0] || a in actions[1..];
      (if GetQ(row, actions[0]) == m then [actions[0]] else []) + BestActions(row, actions[1..], m)
  }

  /** The greedy choice: one of the tied best actions, picked uniformly with `u`. */
  function Greedy(row: Row, actions: seq<string>, u: real): (a: string)
    requires |actions| > 0 && IsUnit(u)
    ensures a in actions
    ensures GetQ(row, a) == MaxQ(row, actions)
    ensures forall b :: b in actions ==> GetQ(row, b) <= GetQ(row, a)
  {
    var m := MaxQ(row, actions);
    var best := BestActions(row, actions, m);
    var w :| w in actions && GetQ(row, w) == m;
    assert w in best;
    best[UniformIndex(u, |best|)]
  }

  datatype Params = Params(alpha: real, gamma: real, epsilon: real, historyWindow: int, qTableSize: nat)

  class QLearningAgent {
    const alpha: real
    const gamma: real
    const epsilon: real
    const historyWindow: int
    const useHistoryState: bool
    var qTable: QTable
    var history: seq<string>

    /** `QLearningAgent(alpha, gamma, epsilon, history_window, use_history_state)`: an empty table and history. */
    constructor (alpha: real, gamma: real, epsilon: real, historyWindow: int, useHistoryState: bool)
      ensures this.alpha == alpha && this.gamma == gamma && this.epsilon == epsilon
      ensures this.historyWindow == historyWindow && this.useHistoryState == useHistoryState
      ensures qTable == map[] && history == []
    {
      this.alpha := alpha;
      this.gamma := gamma;
      this.epsilon := epsilon;
      this.historyWindow := historyWindow;
      this.useHistoryState := useHistoryState;
      qTable := map[];
      history := [];
    }

    /**
     * `select_action(state, available_actions)`: with probability epsilon a
     * uniform action, without reading the table; otherwise the state's row
     * is read (and created if missing), and an empty row gives a uniform
     * action while a non-empty one gives a greedy action. `uExplore` is the
     * exploration draw and `uPick` the draw of the final choice.
     */
    method SelectAction(state: Value, actions: seq<string>, uExplore: real, uPick: real) returns (action: string)
      requires |actions| > 0 && IsUnit(uExplore) && IsUnit(uPick)
      modifies this
      ensures history == old(history)
      ensures action in actions
      ensures var key := StateKey(useHistoryState, history, historyWindow, state);
              if uExplore < epsilon then
                qTable == old(qTable) && action == actions[UniformIndex(uPick, |actions|)]
              else
                qTable == Touch(old(qTable), key)
                && action == if qTable[key] == map[] then actions[UniformIndex(uPick, |actions|)]
                             else Greedy(qTable[key], actions, uPick)
    {
      var stateKey := StateKey(useHistoryState, history, historyWindow, state);
      if uExplore < epsilon {
        return actions[UniformIndex(uPick, |actions|)];
      }
      qTable := Touch(qTable, stateKey);
      var qValues := qTable[stateKey];
      if qValues == map[] {
        return actions[UniformIndex(uPick, |actions|)];
      }
      action := Greedy(qValues, actions, uPick);
    }

    /**
     * `update(state, action, reinforced, next_state)`: the action joins the
     * history first, then both keys are taken and entry `(key, action)`
     * moves by the TD rule with reward 1.0 iff reinforced.
     */
    method Update(state: Value, action: string, reinforced: bool, nextState: Value)
      modifies this
      ensures history == old(history) + [action]
      ensures qTable == Updated(old(qTable), StateKey(useHistoryState, history, historyWindow, state),
                                StateKey(useHistoryState, history, historyWindow, nextState),
                                action, alpha, gamma, if reinforced then 1.0 else 0.0)
      ensures useHistoryState ==>
                StateKey(useHistoryState, history, historyWindow, state) == StateKey(useHistoryState, history, historyWindow, nextState)
    {
      history := history + [action];
      var stateKey := StateKey(useHistoryState, history, historyWindow, state);
      var nextStateKey := StateKey(useHistoryState, history, historyWindow, nextState);
      var reward := if reinforced then 1.0 else 0.0;
      qTable := Touch(qTable, nextStateKey);
      var maxNextQ := MaxNext(qTable[nextStateKey]);
      qTable := Touch(qTable, stateKey);
      var currentQ := Lookup(qTable, stateKey, action);
      assert currentQ + alpha * (reward + gamma * maxNextQ - currentQ) == TDUpdate(currentQ, alpha, gamma, reward, maxNextQ);
      qTable := qTable[stateKey := qTable[stateKey][action := currentQ + alpha * (reward + gamma * maxNextQ - currentQ)]];
    }

    /** `reset()`: an empty table and an empty history. */
    method Reset()
      modifies this
      ensures qTable == map[] && history == []
    {
      qTable := map[];
      history := [];
    }

    /** `get_params()`; the table size counts every row, the empty rows reads created included. */
    function GetParams(): (p: Params)
      reads this
      ensures p.qTableSize == |qTable.Keys|
      ensures p.alpha == alpha && p.gamma == gamma && p.epsilon == epsilon && p.historyWindow == historyWindow
    {
      Params(alpha, gamma, epsilon, historyWindow, |qTable|)
    }
  }
}
