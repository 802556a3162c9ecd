/** The adapter residency planner: a 0/1 knapsack over whole mebibytes.  A selection of adapters is the
    increasing list of its positions in the demands ordered by name. */
module AdapterPlanner {
  import opened Types
  import opened Lexicographic

  datatype Demand = Demand(adapter: string, sizeMb: real, requestsPerMinute: real, coldLoadMs: real)
  {
    /** What the constructor of a demand checks. */
    predicate Valid() {
      adapter != "" && sizeMb >= 0.0 && requestsPerMinute >= 0.0 && coldLoadMs >= 0.0
    }

    function AvoidedLoadMsPerMinute(): real {
      requestsPerMinute * coldLoadMs
    }

    /** The size rounded up to a whole mebibyte. */
    function Weight(): nat
      requires Valid()
    {
      Ceiling(sizeMb)
    }
  }

  datatype PlanError = NegativeBudget | DuplicateAdapters

  datatype Plan = Plan(
    budgetMb: real,
    selected: seq<Demand>,
    usedMb: real,
    avoidedLoadMsPerMinute: real,
    excluded: seq<string>)

  /** The best known selection of one exact rounded size. */
  datatype Cell = Cell(benefit: real, indexes: seq<nat>)

  function Ceiling(x: real): (r: nat)
    requires x >= 0.0
    ensures r as real >= x && r as real < x + 1.0
  {
    if x == x.Floor as real then x.Floor else x.Floor + 1
  }

  lemma BenefitIsNonNegative(d: Demand)
    requires d.Valid()
    ensures d.AvoidedLoadMsPerMinute() >= 0.0
  {
  }

  ghost predicate AllValid(ds: seq<Demand>) {
    forall d | d in ds :: d.Valid()
  }

  ghost predicate DistinctNames(ds: seq<Demand>) {
    forall i, j | 0 <= i < j < |ds| :: ds[i].adapter != ds[j].adapter
  }

  // ---------------------------------------------------------------- selections

  ghost predicate Selection(ix: seq<nat>, n: nat) {
    (forall i | 0 <= i < |ix| :: ix[i] < n) && forall i, j | 0 <= i < j < |ix| :: ix[i] < ix[j]
  }

  function Rounded(ds: seq<Demand>, ix: seq<nat>): nat
    requires AllValid(ds) && forall i | 0 <= i < |ix| :: ix[i] < |ds|
  {
    if ix == [] then 0 else Rounded(ds, ix[..|ix| - 1]) + ds[ix[|ix| - 1]].Weight()
  }

  function Gain(ds: seq<Demand>, ix: seq<nat>): real
    requires forall i | 0 <= i < |ix| :: ix[i] < |ds|
  {
    if ix == [] then 0.0 else Gain(ds, ix[..|ix| - 1]) + ds[ix[|ix| - 1]].AvoidedLoadMsPerMinute()
  }

  /** An adapter of no size and no benefit: taking or leaving it changes nothing but the index list. */
  predicate Idle(d: Demand)
    requires d.Valid()
  {
    d.Weight() == 0 && d.AvoidedLoadMsPerMinute() == 0.0
  }

  ghost predicate Lean(ds: seq<Demand>, ix: seq<nat>)
    requires AllValid(ds) && forall i | 0 <= i < |ix| :: ix[i] < |ds|
  {
    forall i | 0 <= i < |ix| :: !Idle(ds[ix[i]])
  }

  predicate NotAfter(a: seq<nat>, b: seq<nat>) {
    a == b || LexBefore(a, b)
  }

  /** `_is_better`. */
  predicate IsBetter(candidate: Cell, incumbent: Cell) {
    candidate.benefit > incumbent.benefit
    || (candidate.benefit == incumbent.benefit && LexBefore(candidate.indexes, incumbent.indexes))
  }

  /** The selection is worth most among those of its rounded size, and lexicographically least among the
      lean ones worth as much. */
  ghost predicate Beats(ds: seq<Demand>, cell: Cell, ix: seq<nat>)
    requires AllValid(ds) && forall i | 0 <= i < |ix| :: ix[i] < |ds|
  {
    && Gain(ds, ix) <= cell.benefit
    && (Gain(ds, ix) == cell.benefit && Lean(ds, ix) ==> NotAfter(cell.indexes, ix))
  }

  ghost predicate Honest(ds: seq<Demand>, n: nat, u: nat, cell: Cell)
    requires AllValid(ds) && n <= |ds|
  {
    Selection(cell.indexes, n) && Rounded(ds, cell.indexes) == u && Gain(ds, cell.indexes) == cell.benefit
    && Lean(ds, cell.indexes)
  }

  ghost predicate Best(ds: seq<Demand>, n: nat, u: nat, cell: Cell)
    requires AllValid(ds) && n <= |ds|
  {
    && Honest(ds, n, u, cell)
    && forall ix | Selection(ix, n) && Rounded(ds, ix) == u :: Beats(ds, cell, ix)
  }

  /** What the planner knows after the first `n` adapters: the best selection of every reachable size. */
  ghost predicate Table(ds: seq<Demand>, n: nat, capacity: nat, states: map<nat, Cell>)
    requires AllValid(ds) && n <= |ds|
  {
    && (forall u | u in states :: u <= capacity && Best(ds, n, u, states[u]))
    && (forall ix | Selection(ix, n) && Rounded(ds, ix) <= capacity :: Rounded(ds, ix) in states)
  }

  lemma SomeIndexIsBelow(ix: seq<nat>, n: nat)
    requires Selection(ix, n) && ix != []
    ensures n > 0
  {
    assert ix[0] < n;
  }

  lemma EmptyTable(ds: seq<Demand>, capacity: nat)
    requires AllValid(ds)
    ensures Table(ds, 0, capacity, map[0 := Cell(0.0, [])])
  {
    forall ix | Selection(ix, 0) ensures ix == [] {
      if ix != [] {
        SomeIndexIsBelow(ix, 0);
      }
    }
  }

  // ---------------------------------------------------------------- one more adapter

  lemma AppendSelection(ds: seq<Demand>, n: nat, ix: seq<nat>)
    requires AllValid(ds) && n < |ds| && Selection(ix, n)
    ensures Selection(ix + [n], n + 1)
    ensures Rounded(ds, ix + [n]) == Rounded(ds, ix) + ds[n].Weight()
    ensures Gain(ds, ix + [n]) == Gain(ds, ix) + ds[n].AvoidedLoadMsPerMinute()
    ensures Lean(ds, ix + [n]) <==> Lean(ds, ix) && !Idle(ds[n])
  {
    hide Demand.AvoidedLoadMsPerMinute, Demand.Weight, Idle;
    var jx := ix + [n];
    assert jx[..|jx| - 1] == ix && jx[|jx| - 1] == n;
  }

  /** A selection among the first n + 1 adapters leaves the last one out or ends with it. */
  lemma SplitSelection(ix: seq<nat>, n: nat) returns (jx: seq<nat>)
    requires Selection(ix, n + 1)
    ensures Selection(jx, n) && (ix == jx || ix == jx + [n])
  {
    if ix != [] && ix[|ix| - 1] == n {
      jx := ix[..|ix| - 1];
      assert ix == jx + [n];
    } else {
      jx := ix;
      forall i | 0 <= i < |ix| ensures ix[i] < n {
        assert i < |ix| - 1 ==> ix[i] < ix[|ix| - 1];
      }
    }
  }

  lemma WholePrefix(ix: seq<nat>)
    ensures ix[..|ix|] == ix
  {
  }

  /** Leaving out a tail never gains, and leaving out a lean tail loses benefit or size. */
  lemma {:induction false} PrefixIsSmaller(ds: seq<Demand>, ix: seq<nat>, k: nat)
    requires AllValid(ds) && Selection(ix, |ds|) && k <= |ix|
    ensures Rounded(ds, ix[..k]) <= Rounded(ds, ix) && Gain(ds, ix[..k]) <= Gain(ds, ix)
    ensures k < |ix| && Lean(ds, ix) ==> Rounded(ds, ix[..k]) < Rounded(ds, ix) || Gain(ds, ix[..k]) < Gain(ds, ix)
    decreases |ix|
  {
    if k == |ix| {
      WholePrefix(ix);
    } else {
      hide Demand.AvoidedLoadMsPerMinute, Demand.Weight;
      var front := ix[..|ix| - 1];
      assert front[..k] == ix[..k];
      BenefitIsNonNegative(ds[ix[|ix| - 1]]);
      PrefixIsSmaller(ds, front, k);
    }
  }

  function Offer(ds: seq<Demand>, n: nat, states: map<nat, Cell>, u: nat): Option<Cell>
    requires AllValid(ds) && n < |ds|
  {
    var w := ds[n].Weight();
    if u >= w && u - w in states then
      Some(Cell(states[u - w].benefit + ds[n].AvoidedLoadMsPerMinute(), states[u - w].indexes + [n]))
    else None
  }

  function Merged(states: map<nat, Cell>, offer: Option<Cell>, u: nat): Option<Cell> {
    if u !in states then offer
    else if offer.Some? && IsBetter(offer.value, states[u]) then offer
    else Some(states[u])
  }

  lemma BeatsTransfer(ds: seq<Demand>, a: Cell, b: Cell, ix: seq<nat>)
    requires AllValid(ds) && Selection(ix, |ds|) && Beats(ds, b, ix)
    requires a.benefit > b.benefit || (a.benefit == b.benefit && NotAfter(a.indexes, b.indexes))
    ensures Beats(ds, a, ix)
  {
    hide Gain, Lean, LexBefore;
    if LexBefore(a.indexes, b.indexes) && LexBefore(b.indexes, ix) {
      LexTransitive(a.indexes, b.indexes, ix);
    }
  }

  lemma BetterOrNot(a: Cell, b: Cell)
    ensures IsBetter(a, b) ==> a.benefit > b.benefit || (a.benefit == b.benefit && NotAfter(a.indexes, b.indexes))
    ensures !IsBetter(a, b) ==> b.benefit > a.benefit || (b.benefit == a.benefit && NotAfter(b.indexes, a.indexes))
  {
    hide LexBefore;
    LexTotal(a.indexes, b.indexes);
  }

  lemma SelectionGrows(ix: seq<nat>, n: nat, m: nat)
    requires Selection(ix, n) && n <= m
    ensures Selection(ix, m)
  {
  }

  /** The offer made through the best smaller selection beats every selection that ends with adapter n. */
  lemma OfferBeats(ds: seq<Demand>, n: nat, cell: Cell, jx: seq<nat>, u: nat)
    requires AllValid(ds) && n < |ds| && Best(ds, n, u, cell) && Selection(jx, n) && Rounded(ds, jx) == u
    ensures Selection(jx + [n], n + 1)
    ensures Beats(ds, Cell(cell.benefit + ds[n].AvoidedLoadMsPerMinute(), cell.indexes + [n]), jx + [n])
  {
    hide Demand.AvoidedLoadMsPerMinute, Demand.Weight, Lean, LexBefore, Gain, Rounded, Idle;
    AppendSelection(ds, n, jx);
    assert Beats(ds, cell, jx);
    if Gain(ds, jx) == cell.benefit && Lean(ds, jx) && cell.indexes != jx {
      LeanIsNoExtension(ds, n, u, cell, jx);
      LexAppend(cell.indexes, jx, n);
    }
  }

  lemma ExtensionLoses(ds: seq<Demand>, ix: seq<nat>, jx: seq<nat>)
    requires AllValid(ds) && Selection(jx, |ds|) && ix < jx && Lean(ds, jx)
    ensures Selection(ix, |ds|)
    ensures Rounded(ds, ix) < Rounded(ds, jx) || Gain(ds, ix) < Gain(ds, jx)
  {
    hide Rounded, Gain, Lean;
    assert jx[..|ix|] == ix;
    PrefixIsSmaller(ds, jx, |ix|);
  }

  lemma LeanIsNoExtension(ds: seq<Demand>, n: nat, u: nat, cell: Cell, jx: seq<nat>)
    requires AllValid(ds) && n <= |ds| && Honest(ds, n, u, cell) && Selection(jx, n)
    requires Rounded(ds, jx) == u && Gain(ds, jx) == cell.benefit && Lean(ds, jx) && cell.indexes != jx
    ensures !(cell.indexes <= jx)
  {
    hide Demand.AvoidedLoadMsPerMinute, Demand.Weight, Lean, Gain, Rounded, Idle;
    SelectionGrows(jx, n, |ds|);
    if cell.indexes < jx {
      ExtensionLoses(ds, cell.indexes, jx);
    }
  }

  lemma OfferIsHonest(ds: seq<Demand>, n: nat, cell: Cell, u: nat)
    requires AllValid(ds) && n < |ds| && Honest(ds, n, u, cell) && !Idle(ds[n])
    ensures Honest(ds, n + 1, u + ds[n].Weight(),
                   Cell(cell.benefit + ds[n].AvoidedLoadMsPerMinute(), cell.indexes + [n]))
  {
    hide Demand.AvoidedLoadMsPerMinute, Demand.Weight, Lean, Gain, Rounded, Idle;
    AppendSelection(ds, n, cell.indexes);
  }

  /** An idle adapter is never worth adding: the shorter list comes first. */
  lemma IdleIsNotBetter(cell: Cell, n: nat)
    ensures !IsBetter(Cell(cell.benefit + 0.0, cell.indexes + [n]), cell)
  {
    hide LexBefore;
    PrefixIsBefore(cell.indexes, cell.indexes + [n]);
    LexAsymmetric(cell.indexes, cell.indexes + [n]);
  }

  lemma GrownBest(ds: seq<Demand>, n: nat, u: nat, cell: Cell, ix: seq<nat>)
    requires AllValid(ds) && n < |ds| && Best(ds, n, u, cell)
    ensures Honest(ds, n + 1, u, cell)
    ensures Selection(ix, n) && Rounded(ds, ix) == u ==> Beats(ds, cell, ix)
  {
    hide Demand.AvoidedLoadMsPerMinute, Demand.Weight, Lean, Gain, Rounded, Idle;
    SelectionGrows(cell.indexes, n, n + 1);
  }

  /** The merged cell is honest. */
  lemma MergedIsHonest(ds: seq<Demand>, n: nat, capacity: nat, states: map<nat, Cell>, u: nat)
    requires AllValid(ds) && n < |ds| && Table(ds, n, capacity, states)
    requires Merged(states, Offer(ds, n, states, u), u).Some?
    ensures Honest(ds, n + 1, u, Merged(states, Offer(ds, n, states, u), u).value)
  {
    hide Demand.AvoidedLoadMsPerMinute, Demand.Weight, Lean, Gain, Rounded, Idle, IsBetter, Honest;
    var w := ds[n].Weight();
    if u in states {
      GrownBest(ds, n, u, states[u], []);
    }
    if u >= w && u - w in states {
      if !Idle(ds[n]) {
        OfferIsHonest(ds, n, states[u - w], u - w);
      } else {
        IdleAddsNothing(ds, n);
        IdleIsNotBetter(states[u], n);
      }
    }
  }

  lemma IdleAddsNothing(ds: seq<Demand>, n: nat)
    requires AllValid(ds) && n < |ds| && Idle(ds[n])
    ensures ds[n].Weight() == 0 && ds[n].AvoidedLoadMsPerMinute() == 0.0
  {
  }

  /** The merged cell beats every selection of its size. */
  lemma MergedBeats(ds: seq<Demand>, n: nat, capacity: nat, states: map<nat, Cell>, u: nat, ix: seq<nat>)
    requires AllValid(ds) && n < |ds| && Table(ds, n, capacity, states)
    requires u <= capacity && Selection(ix, n + 1) && Rounded(ds, ix) == u
    ensures Merged(states, Offer(ds, n, states, u), u).Some?
    ensures Beats(ds, Merged(states, Offer(ds, n, states, u), u).value, ix)
  {
    hide Demand.AvoidedLoadMsPerMinute, Demand.Weight, Lean, Gain, Rounded, Idle, IsBetter, Honest, Beats, Selection;
    SelectionGrows(ix, n + 1, |ds|);
    var jx := SplitSelection(ix, n);
    var w := ds[n].Weight();
    if ix == jx {
      assert u in states;
      GrownBest(ds, n, u, states[u], ix);
      MergedTakesTheBetter(ds, states, Offer(ds, n, states, u), u, states[u], ix);
    } else {
      AppendSelection(ds, n, jx);
      assert u - w in states;
      OfferBeats(ds, n, states[u - w], jx, u - w);
      MergedTakesTheBetter(ds, states, Offer(ds, n, states, u), u, Offer(ds, n, states, u).value, ix);
    }
  }

  lemma MergedTakesTheBetter(ds: seq<Demand>, states: map<nat, Cell>, offer: Option<Cell>, u: nat, cell: Cell,
                             ix: seq<nat>)
    requires AllValid(ds) && Selection(ix, |ds|) && Beats(ds, cell, ix)
    requires offer == Some(cell) || (u in states && states[u] == cell)
    ensures Merged(states, offer, u).Some? && Beats(ds, Merged(states, offer, u).value, ix)
  {
    hide IsBetter, Beats, Selection;
    if offer.Some? && u in states {
      BetterOrNot(offer.value, states[u]);
      BeatsTransfer(ds, Merged(states, offer, u).value, cell, ix);
    }
  }

  /** What the inner loop leaves behind once it has seen the states of the given sizes. */
  ghost predicate Considered(ds: seq<Demand>, n: nat, capacity: nat, seen: map<nat, Cell>, states: map<nat, Cell>,
                             additions: map<nat, Cell>)
    requires AllValid(ds) && n < |ds|
  {
    forall u: nat :: Lookup(additions, u) == Merged(states, if u <= capacity then Offer(ds, n, seen, u) else None, u)
  }

  function Lookup(states: map<nat, Cell>, u: nat): Option<Cell> {
    if u in states then Some(states[u]) else None
  }

  /** One pass of the inner loop turns the table for n adapters into the table for n + 1. */
  lemma {:induction false} TableGrows(ds: seq<Demand>, n: nat, capacity: nat, states: map<nat, Cell>,
                                      additions: map<nat, Cell>)
    requires AllValid(ds) && n < |ds| && Table(ds, n, capacity, states)
    requires Considered(ds, n, capacity, states, states, additions)
    ensures Table(ds, n + 1, capacity, additions)
  {
    hide Rounded, Beats, Honest, Table, Offer, Merged, Considered;
    forall u | u in additions ensures u <= capacity && Best(ds, n + 1, u, additions[u]) {
      GrownCell(ds, n, capacity, states, additions, u);
    }
    forall ix | Selection(ix, n + 1) && Rounded(ds, ix) <= capacity ensures Rounded(ds, ix) in additions {
      GrownReach(ds, n, capacity, states, additions, ix);
    }
    assert Table(ds, n + 1, capacity, additions) by {
      CellsMakeTable(ds, n + 1, capacity, additions);
    }
  }

  lemma CellsMakeTable(ds: seq<Demand>, n: nat, capacity: nat, states: map<nat, Cell>)
    requires AllValid(ds) && n <= |ds|
    requires forall u | u in states :: u <= capacity && Best(ds, n, u, states[u])
    requires forall ix | Selection(ix, n) && Rounded(ds, ix) <= capacity :: Rounded(ds, ix) in states
    ensures Table(ds, n, capacity, states)
  {
    hide Best, Rounded;
  }

  lemma GrownCell(ds: seq<Demand>, n: nat, capacity: nat, states: map<nat, Cell>, additions: map<nat, Cell>, u: nat)
    requires AllValid(ds) && n < |ds| && Table(ds, n, capacity, states) && u in additions
    requires Considered(ds, n, capacity, states, states, additions)
    ensures u <= capacity && Best(ds, n + 1, u, additions[u])
  {
    hide Rounded, Beats, Honest, Offer, Best;
    assert Lookup(additions, u) == Some(additions[u]);
    assert u <= capacity;
    MergedIsHonest(ds, n, capacity, states, u);
    forall ix | Selection(ix, n + 1) && Rounded(ds, ix) == u ensures Beats(ds, additions[u], ix) {
      MergedBeats(ds, n, capacity, states, u, ix);
    }
    PartsMakeBest(ds, n + 1, u, additions[u]);
  }

  lemma PartsMakeBest(ds: seq<Demand>, n: nat, u: nat, cell: Cell)
    requires AllValid(ds) && n <= |ds| && Honest(ds, n, u, cell)
    requires forall ix | Selection(ix, n) && Rounded(ds, ix) == u :: Beats(ds, cell, ix)
    ensures Best(ds, n, u, cell)
  {
    hide Honest, Beats, Selection, Rounded;
  }

  lemma GrownReach(ds: seq<Demand>, n: nat, capacity: nat, states: map<nat, Cell>, additions: map<nat, Cell>,
                   ix: seq<nat>)
    requires AllValid(ds) && n < |ds| && Table(ds, n, capacity, states)
    requires Considered(ds, n, capacity, states, states, additions)
    requires Selection(ix, n + 1) && Rounded(ds, ix) <= capacity
    ensures Rounded(ds, ix) in additions
  {
    hide Rounded, Beats, Honest, Table, Offer, Merged;
    var u := Rounded(ds, ix);
    MergedBeats(ds, n, capacity, states, u, ix);
    assert Lookup(additions, u).Some?;
  }

  // ---------------------------------------------------------------- the plan

  ghost predicate Feasible(ds: seq<Demand>, capacity: nat, ix: seq<nat>)
    requires AllValid(ds)
  {
    Selection(ix, |ds|) && Rounded(ds, ix) <= capacity
  }

  /** More benefit first; then less rounded memory; then, among lean selections, the least index list. */
  ghost predicate Outranks(ds: seq<Demand>, ix: seq<nat>, jx: seq<nat>)
    requires AllValid(ds) && Selection(ix, |ds|) && Selection(jx, |ds|)
  {
    && Gain(ds, jx) <= Gain(ds, ix)
    && (Gain(ds, jx) == Gain(ds, ix) ==>
          && Rounded(ds, ix) <= Rounded(ds, jx)
          && (Rounded(ds, ix) == Rounded(ds, jx) && Lean(ds, jx) ==> NotAfter(ix, jx)))
  }

  ghost predicate Chosen(ds: seq<Demand>, capacity: nat, ix: seq<nat>)
    requires AllValid(ds)
  {
    && Feasible(ds, capacity, ix) && Lean(ds, ix)
    && forall jx | Feasible(ds, capacity, jx) :: Outranks(ds, ix, jx)
  }

  lemma {:induction false} ChosenIsUnique(ds: seq<Demand>, capacity: nat, ix: seq<nat>, jx: seq<nat>)
    requires AllValid(ds) && Chosen(ds, capacity, ix) && Chosen(ds, capacity, jx)
    ensures ix == jx
  {
    hide Rounded, Gain, Lean, LexBefore;
    assert Outranks(ds, ix, jx) && Outranks(ds, jx, ix);
    if LexBefore(ix, jx) {
      LexAsymmetric(ix, jx);
    }
  }

  /** The state that `max` picks: most benefit, then least memory. */
  ghost predicate IsMaximal(states: map<nat, Cell>, used: nat) {
    && used in states
    && forall u | u in states ::
         states[u].benefit < states[used].benefit || (states[u].benefit == states[used].benefit && used <= u)
  }

  lemma MaximalStateIsChosen(ds: seq<Demand>, capacity: nat, states: map<nat, Cell>, used: nat)
    requires AllValid(ds) && Table(ds, |ds|, capacity, states) && IsMaximal(states, used)
    ensures Chosen(ds, capacity, states[used].indexes)
  {
    hide Rounded, Gain, Lean, LexBefore, Beats;
    var cell := states[used];
    forall jx | Feasible(ds, capacity, jx) ensures Outranks(ds, cell.indexes, jx) {
      MaximalOutranks(ds, capacity, states, used, jx);
    }
  }

  lemma MaximalOutranks(ds: seq<Demand>, capacity: nat, states: map<nat, Cell>, used: nat, jx: seq<nat>)
    requires AllValid(ds) && Table(ds, |ds|, capacity, states) && IsMaximal(states, used)
    requires Feasible(ds, capacity, jx)
    ensures Selection(states[used].indexes, |ds|) && Outranks(ds, states[used].indexes, jx)
  {
    hide Rounded, Gain, Lean, LexBefore;
    var u := Rounded(ds, jx);
    assert u in states;
    assert Best(ds, |ds|, u, states[u]) && Best(ds, |ds|, used, states[used]);
    assert Beats(ds, states[u], jx);
  }

  function Picked(ds: seq<Demand>, ix: seq<nat>): (r: seq<Demand>)
    requires forall i | 0 <= i < |ix| :: ix[i] < |ds|
    ensures |r| == |ix| && forall i | 0 <= i < |ix| :: r[i] == ds[ix[i]]
  {
    seq(|ix|, i requires 0 <= i < |ix| => ds[ix[i]])
  }

  function TotalMb(ds: seq<Demand>): real {
    if ds == [] then 0.0 else TotalMb(ds[..|ds| - 1]) + ds[|ds| - 1].sizeMb
  }

  function Names(ds: seq<Demand>): set<string> {
    set d | d in ds :: d.adapter
  }

  function NotAmong(ds: seq<Demand>, names: set<string>): seq<string> {
    if ds == [] then []
    else
      var last := ds[|ds| - 1].adapter;
      NotAmong(ds[..|ds| - 1], names) + if last in names then [] else [last]
  }

  function PlanOf(ordered: seq<Demand>, budgetMb: real, ix: seq<nat>): Plan
    requires forall i | 0 <= i < |ix| :: ix[i] < |ordered|
  {
    var selected := Picked(ordered, ix);
    Plan(budgetMb, selected, TotalMb(selected), Gain(ordered, ix), NotAmong(ordered, Names(selected)))
  }

  // ---------------------------------------------------------------- ordering by name

  function InsertByName(d: Demand, ds: seq<Demand>): (r: seq<Demand>)
    ensures multiset(r) == multiset{d} + multiset(ds)
  {
    if ds == [] || !NameBefore(ds[0].adapter, d.adapter) then [d] + ds
    else
      assert ds == [ds[0]] + ds[1..];
      [ds[0]] + InsertByName(d, ds[1..])
  }

  /** `sorted(demands, key=adapter)`. */
  function ByName(ds: seq<Demand>): (r: seq<Demand>)
    ensures multiset(r) == multiset(ds)
  {
    if ds == [] then []
    else
      assert ds == [ds[0]] + ds[1..];
      InsertByName(ds[0], ByName(ds[1..]))
  }

  ghost predicate NameSorted(ds: seq<Demand>) {
    forall i, j | 0 <= i < j < |ds| :: !NameBefore(ds[j].adapter, ds[i].adapter)
  }

  lemma NamesChain(a: string, b: string, c: string)
    requires !NameBefore(b, a) && !NameBefore(c, b)
    ensures !NameBefore(c, a)
  {
    hide LexBefore;
    NamesAreTotal(a, b);
    NamesAreTotal(b, c);
    if NameBefore(c, a) {
      if NameBefore(a, b) {
        LexTransitive(Codes(c), Codes(a), Codes(b));
      }
    }
  }

  lemma PrependSorted(d: Demand, ds: seq<Demand>)
    requires NameSorted(ds) && forall e | e in ds :: !NameBefore(e.adapter, d.adapter)
    ensures NameSorted([d] + ds)
  {
    hide NameBefore;
  }

  lemma {:induction false} InsertIsSorted(d: Demand, ds: seq<Demand>)
    requires NameSorted(ds)
    ensures NameSorted(InsertByName(d, ds))
  {
    hide NameBefore;
    if ds == [] || !NameBefore(ds[0].adapter, d.adapter) {
      forall e | e in ds ensures !NameBefore(e.adapter, d.adapter) {
        HeadIsFirst(ds, e);
        if e != ds[0] {
          NamesChain(d.adapter, ds[0].adapter, e.adapter);
        }
      }
      PrependSorted(d, ds);
    } else {
      InsertIsSorted(d, ds[1..]);
      var r := InsertByName(d, ds[1..]);
      forall e | e in r ensures !NameBefore(e.adapter, ds[0].adapter) {
        assert e in multiset(r);
        assert e == d || e in ds[1..];
        NameOrderIsStrict(ds[0].adapter, d.adapter);
      }
      PrependSorted(ds[0], r);
    }
  }

  lemma NameOrderIsStrict(a: string, b: string)
    requires NameBefore(a, b)
    ensures !NameBefore(b, a)
  {
    LexAsymmetric(Codes(a), Codes(b));
  }

  lemma {:induction false} ByNameIsSorted(ds: seq<Demand>)
    ensures NameSorted(ByName(ds))
  {
    if ds != [] {
      ByNameIsSorted(ds[1..]);
      InsertIsSorted(ds[0], ByName(ds[1..]));
    }
  }

  lemma {:induction false} DistinctAreSingle(ds: seq<Demand>, d: Demand)
    requires DistinctNames(ds)
    ensures multiset(ds)[d] <= 1
  {
    if ds != [] {
      assert ds == [ds[0]] + ds[1..];
      DistinctAreSingle(ds[1..], d);
      if d == ds[0] {
        assert forall e | e in ds[1..] :: e.adapter != d.adapter;
        assert d !in multiset(ds[1..]);
      }
    }
  }

  lemma TwiceInSequence(ds: seq<Demand>, i: nat, j: nat)
    requires i < j < |ds| && ds[i] == ds[j]
    ensures multiset(ds)[ds[i]] >= 2
  {
    assert ds == ds[..j] + ds[j..];
    assert ds[..j][i] == ds[i] && ds[j..][0] == ds[i];
    assert ds[i] in multiset(ds[..j]) && ds[i] in multiset(ds[j..]);
  }

  lemma DistinctnessIgnoresOrder(a: seq<Demand>, b: seq<Demand>)
    requires multiset(a) == multiset(b) && DistinctNames(a)
    ensures DistinctNames(b)
  {
    forall i, j | 0 <= i < j < |b| ensures b[i].adapter != b[j].adapter {
      assert b[i] in multiset(a) && b[j] in multiset(a);
      if b[i] == b[j] {
        TwiceInSequence(b, i, j);
        DistinctAreSingle(a, b[i]);
      } else {
        SameNameSameDemand(a, b[i], b[j]);
      }
    }
  }

  lemma SameNameSameDemand(ds: seq<Demand>, d: Demand, e: Demand)
    requires DistinctNames(ds) && d in ds && e in ds
    ensures d.adapter == e.adapter ==> d == e
  {
  }

  lemma HeadIsFirst(ds: seq<Demand>, d: Demand)
    requires NameSorted(ds) && d in ds
    ensures ds[0] == d || !NameBefore(d.adapter, ds[0].adapter)
  {
    hide NameBefore;
  }

  lemma SortedTails(a: seq<Demand>, b: seq<Demand>)
    requires a != [] && b != [] && a[0] == b[0] && multiset(a) == multiset(b) && DistinctNames(a) && NameSorted(a)
    requires NameSorted(b)
    ensures multiset(a[1..]) == multiset(b[1..]) && DistinctNames(a[1..]) && NameSorted(a[1..]) && NameSorted(b[1..])
  {
    hide NameBefore;
    assert a == [a[0]] + a[1..] && b == [b[0]] + b[1..];
    assert multiset(a[1..]) == multiset(a) - multiset{a[0]};
    assert multiset(b[1..]) == multiset(b) - multiset{b[0]};
  }

  lemma {:induction false} SortedByNameIsUnique(a: seq<Demand>, b: seq<Demand>)
    requires multiset(a) == multiset(b) && DistinctNames(a) && NameSorted(a) && NameSorted(b)
    ensures a == b
  {
    hide NameSorted, DistinctNames;
    if a == [] {
      EmptyMultiset(b);
    } else {
      HeadsAgree(a, b);
      SortedTails(a, b);
      SortedByNameIsUnique(a[1..], b[1..]);
      assert a == [a[0]] + a[1..] && b == [b[0]] + b[1..];
    }
  }

  lemma EmptyMultiset(b: seq<Demand>)
    requires multiset(b) == multiset{}
    ensures b == []
  {
    assert |multiset(b)| == |b|;
  }

  lemma HeadsAgree(a: seq<Demand>, b: seq<Demand>)
    requires multiset(a) == multiset(b) && DistinctNames(a) && NameSorted(a) && NameSorted(b) && a != []
    ensures b != [] && a[0] == b[0]
  {
    hide NameBefore;
    assert |multiset(a)| == |a| && |multiset(b)| == |b|;
    assert a[0] in multiset(b) && b[0] in multiset(a);
    HeadIsFirst(a, b[0]);
    HeadIsFirst(b, a[0]);
    NamesAreTotal(a[0].adapter, b[0].adapter);
    SameNameSameDemand(a, a[0], b[0]);
  }

  /** The order in which demands are listed is forgotten by the sort. */
  lemma ByNameIgnoresOrder(a: seq<Demand>, b: seq<Demand>)
    requires multiset(a) == multiset(b) && DistinctNames(a)
    ensures ByName(a) == ByName(b)
  {
    ByNameIsSorted(a);
    ByNameIsSorted(b);
    DistinctnessIgnoresOrder(a, ByName(a));
    SortedByNameIsUnique(ByName(a), ByName(b));
  }

  // ---------------------------------------------------------------- the planner

  /** What `plan_adapter_residency` returns when it does not raise. */
  ghost predicate IsPlan(demands: seq<Demand>, budgetMb: real, plan: Plan)
    requires AllValid(demands) && budgetMb >= 0.0
  {
    var ordered := ByName(demands);
    ByNameIsValid(demands);
    exists ix: seq<nat> :: Chosen(ordered, budgetMb.Floor, ix) && plan == PlanOf(ordered, budgetMb, ix)
  }

  lemma ByNameIsValid(demands: seq<Demand>)
    requires AllValid(demands)
    ensures AllValid(ByName(demands))
  {
    forall d | d in ByName(demands) ensures d.Valid() {
      assert d in multiset(demands);
    }
  }

  /** Seeing one more state settles the one size that it leads to. */
  lemma ConsiderOne(ds: seq<Demand>, index: nat, capacity: nat, seen: map<nat, Cell>, states: map<nat, Cell>,
                    additions: map<nat, Cell>, used: nat, after: map<nat, Cell>)
    requires AllValid(ds) && index < |ds| && Considered(ds, index, capacity, seen, states, additions)
    requires used in states && used !in seen
    requires var u := used + ds[index].Weight();
             var offer := Some(Cell(states[used].benefit + ds[index].AvoidedLoadMsPerMinute(),
                                    states[used].indexes + [index]));
             && (forall v: nat | v != u :: Lookup(after, v) == Lookup(additions, v))
             && Lookup(after, u) == if u <= capacity then Merged(additions, offer, u) else Lookup(additions, u)
    ensures Considered(ds, index, capacity, seen[used := states[used]], states, after)
  {
    hide IsBetter, Demand.AvoidedLoadMsPerMinute, Demand.Weight;
    var w := ds[index].Weight();
    var seen' := seen[used := states[used]];
    forall u: nat
      ensures Lookup(after, u) == Merged(states, if u <= capacity then Offer(ds, index, seen', u) else None, u)
    {
      assert Lookup(additions, u) == Merged(states, if u <= capacity then Offer(ds, index, seen, u) else None, u);
    }
  }

  /** One pass of the inner loop, over the states in any order. */
  method AddAdapter(ds: seq<Demand>, index: nat, capacity: nat, states: map<nat, Cell>)
    returns (additions: map<nat, Cell>)
    requires AllValid(ds) && index < |ds|
    ensures Considered(ds, index, capacity, states, states, additions)
  {
    var weight := ds[index].Weight();
    additions := states;
    var todo := states.Keys;
    ghost var seen: map<nat, Cell> := map[];
    while todo != {}
      invariant todo <= states.Keys && forall u | u in states :: u in todo <==> u !in seen
      invariant forall u | u in seen :: u in states && seen[u] == states[u]
      invariant Considered(ds, index, capacity, seen, states, additions)
    {
      hide Considered, IsBetter, Demand.AvoidedLoadMsPerMinute, Demand.Weight;
      var used :| used in todo;
      todo := todo - {used};
      var candidateUsed := used + weight;
      ghost var before := additions;
      if candidateUsed <= capacity {
        var candidate := Cell(states[used].benefit + ds[index].AvoidedLoadMsPerMinute(),
                              states[used].indexes + [index]);
        if candidateUsed !in additions || IsBetter(candidate, additions[candidateUsed]) {
          additions := additions[candidateUsed := candidate];
        }
      }
      ConsiderOne(ds, index, capacity, seen, states, before, used, additions);
      seen := seen[used := states[used]];
    }
    assert seen == states;
  }

  /** `max` over the states, by benefit and then by least memory; two states never tie. */
  method BestState(states: map<nat, Cell>) returns (used: nat)
    requires states != map[]
    ensures IsMaximal(states, used)
  {
    used :| used in states;
    var todo := states.Keys - {used};
    while todo != {}
      invariant todo <= states.Keys && used in states
      invariant forall u | u in states && u !in todo ::
                  states[u].benefit < states[used].benefit || (states[u].benefit == states[used].benefit && used <= u)
    {
      var u :| u in todo;
      todo := todo - {u};
      if states[u].benefit > states[used].benefit || (states[u].benefit == states[used].benefit && u < used) {
        used := u;
      }
    }
  }

  predicate HasDuplicates(demands: seq<Demand>) {
    exists i, j | 0 <= i < j < |demands| :: demands[i].adapter == demands[j].adapter
  }

  method PlanAdapterResidency(demands: seq<Demand>, budgetMb: real) returns (plan: Result<Plan, PlanError>)
    requires AllValid(demands)
    ensures budgetMb < 0.0 ==> plan == Err(NegativeBudget)
    ensures budgetMb >= 0.0 && !DistinctNames(demands) ==> plan == Err(DuplicateAdapters)
    ensures budgetMb >= 0.0 && DistinctNames(demands) ==> plan.Ok? && IsPlan(demands, budgetMb, plan.value)
  {
    if budgetMb < 0.0 {
      return Err(NegativeBudget);
    }
    if HasDuplicates(demands) {
      return Err(DuplicateAdapters);
    }
    var capacity: nat := budgetMb.Floor;
    var ordered := ByName(demands);
    ByNameIsValid(demands);
    var states: map<nat, Cell> := map[0 := Cell(0.0, [])];
    EmptyTable(ordered, capacity);
    hide Table, Considered, Chosen, ByName, AllValid, Feasible;
    for index := 0 to |ordered|
      invariant AllValid(ordered) && Table(ordered, index, capacity, states)
    {
      var additions := AddAdapter(ordered, index, capacity, states);
      TableGrows(ordered, index, capacity, states, additions);
      states := additions;
    }
    TableIsInhabited(ordered, capacity, states);
    var used := BestState(states);
    MaximalStateIsChosen(ordered, capacity, states, used);
    BestIsInRange(ordered, capacity, states, used);
    var best := states[used];
    var selected := Picked(ordered, best.indexes);
    plan := Ok(Plan(budgetMb, selected, TotalMb(selected), best.benefit, NotAmong(ordered, Names(selected))));
    assert plan.value == PlanOf(ordered, budgetMb, best.indexes);
  }

  lemma TableIsInhabited(ds: seq<Demand>, capacity: nat, states: map<nat, Cell>)
    requires AllValid(ds) && Table(ds, |ds|, capacity, states)
    ensures states != map[]
  {
    assert Selection([], |ds|) && Rounded(ds, []) == 0;
  }

  lemma BestIsInRange(ds: seq<Demand>, capacity: nat, states: map<nat, Cell>, used: nat)
    requires AllValid(ds) && Table(ds, |ds|, capacity, states) && used in states
    ensures forall i | 0 <= i < |states[used].indexes| :: states[used].indexes[i] < |ds|
    ensures states[used].benefit == Gain(ds, states[used].indexes)
  {
    hide Rounded, Gain, Lean, Beats;
    assert Best(ds, |ds|, used, states[used]);
  }

  // ---------------------------------------------------------------- what the plan promises

  /** The sum of a figure over demands. */
  function SumOf(figure: Demand -> real, ds: seq<Demand>): real {
    if ds == [] then 0.0 else figure(ds[0]) + SumOf(figure, ds[1..])
  }

  function Benefit(d: Demand): real {
    d.requestsPerMinute * d.coldLoadMs
  }

  function SizeMb(d: Demand): real {
    d.sizeMb
  }

  /** The least whole number that is not below the size. */
  function WholeMb(d: Demand): real {
    -((-d.sizeMb).Floor as real)
  }

  lemma {:induction false} SumGrows(figure: Demand -> real, ds: seq<Demand>, d: Demand)
    ensures SumOf(figure, ds + [d]) == SumOf(figure, ds) + figure(d)
  {
    if ds == [] {
      assert [d][1..] == [];
    } else {
      SumGrows(figure, ds[1..], d);
      assert (ds + [d])[1..] == ds[1..] + [d];
    }
  }

  lemma {:induction false} SumOfParts(figure: Demand -> real, a: seq<Demand>, b: seq<Demand>)
    ensures SumOf(figure, a + b) == SumOf(figure, a) + SumOf(figure, b)
  {
    if a == [] {
      assert a + b == b;
    } else {
      SumOfParts(figure, a[1..], b);
      assert (a + b)[1..] == a[1..] + b;
    }
  }

  lemma WithoutOne(s: seq<Demand>, i: nat)
    requires i < |s|
    ensures multiset(s[..i] + s[i + 1..]) + multiset{s[i]} == multiset(s)
    ensures multiset(s[..i] + s[i + 1..]) == multiset(s) - multiset{s[i]}
  {
    assert s == s[..i] + [s[i]] + s[i + 1..];
  }

  lemma SumWithout(figure: Demand -> real, s: seq<Demand>, i: nat)
    requires i < |s|
    ensures SumOf(figure, s) == figure(s[i]) + SumOf(figure, s[..i] + s[i + 1..])
  {
    SumOfParts(figure, s[..i], [s[i]] + s[i + 1..]);
    SumOfParts(figure, s[..i], s[i + 1..]);
    assert s == s[..i] + ([s[i]] + s[i + 1..]);
  }

  lemma WithoutHead(a: seq<Demand>)
    requires a != []
    ensures multiset(a[1..]) == multiset(a) - multiset{a[0]} && a[0] in multiset(a)
  {
    assert a == [a[0]] + a[1..];
  }

  lemma SameTails(a: seq<Demand>, b: seq<Demand>) returns (i: nat)
    requires multiset(a) == multiset(b) && a != []
    ensures i < |b| && b[i] == a[0] && multiset(a[1..]) == multiset(b[..i] + b[i + 1..])
  {
    WithoutHead(a);
    assert a[0] in multiset(b);
    i :| 0 <= i < |b| && b[i] == a[0];
    WithoutOne(b, i);
  }

  lemma {:induction false} SumIgnoresOrder(figure: Demand -> real, a: seq<Demand>, b: seq<Demand>)
    requires multiset(a) == multiset(b)
    ensures SumOf(figure, a) == SumOf(figure, b)
  {
    if a == [] {
      assert |multiset(b)| == 0;
    } else {
      var i := SameTails(a, b);
      SumIgnoresOrder(figure, a[1..], b[..i] + b[i + 1..]);
      SumWithout(figure, b, i);
    }
  }

  lemma CeilingIsWhole(x: real)
    requires x >= 0.0
    ensures Ceiling(x) == -((-x).Floor)
  {
    var k := (-x).Floor;
    assert k as real <= -x < k as real + 1.0;
  }

  lemma WeightIsWhole(d: Demand)
    requires d.Valid()
    ensures d.Weight() as real == WholeMb(d)
  {
    hide Ceiling;
    CeilingIsWhole(d.sizeMb);
  }

  lemma {:induction false} PickedSums(ds: seq<Demand>, ix: seq<nat>)
    requires AllValid(ds) && forall i | 0 <= i < |ix| :: ix[i] < |ds|
    ensures Gain(ds, ix) == SumOf(Benefit, Picked(ds, ix))
    ensures Rounded(ds, ix) as real == SumOf(WholeMb, Picked(ds, ix))
    ensures TotalMb(Picked(ds, ix)) == SumOf(SizeMb, Picked(ds, ix))
  {
    hide Benefit, SizeMb, WholeMb, Demand.Weight, Demand.AvoidedLoadMsPerMinute, SumOf;
    if ix == [] {
      NoSums();
      assert Picked(ds, ix) == [];
    } else {
      var (front, last) := (ix[..|ix| - 1], ds[ix[|ix| - 1]]);
      PickedSums(ds, front);
      FiguresOf(last);
      assert Picked(ds, ix) == Picked(ds, front) + [last];
      assert Picked(ds, ix)[..|ix| - 1] == Picked(ds, front);
      SumGrows(Benefit, Picked(ds, front), last);
      SumGrows(WholeMb, Picked(ds, front), last);
      SumGrows(SizeMb, Picked(ds, front), last);
    }
  }

  lemma NoSums()
    ensures SumOf(Benefit, []) == SumOf(WholeMb, []) == SumOf(SizeMb, []) == 0.0
  {
  }

  lemma FiguresOf(d: Demand)
    requires d.Valid()
    ensures d.AvoidedLoadMsPerMinute() == Benefit(d) && d.Weight() as real == WholeMb(d) && SizeMb(d) == d.sizeMb
  {
    WeightIsWhole(d);
    hide Demand.Weight, WholeMb;
  }

  lemma FirstOfSelection(ix: seq<nat>, n: nat)
    requires Selection(ix, n)
    ensures ix != [] ==> ix[0] < n
  {
  }

  lemma PickedLast(front: seq<Demand>, last: Demand, kx: seq<nat>)
    requires Selection(kx, |front|)
    ensures Selection(kx, |front| + 1) && Picked(front + [last], kx) == Picked(front, kx)
    ensures Selection(kx + [|front|], |front| + 1)
    ensures multiset(Picked(front + [last], kx + [|front|])) == multiset(Picked(front, kx)) + multiset{last}
  {
    assert Picked(front + [last], kx) == Picked(front, kx);
    assert Picked(front + [last], kx + [|front|]) == Picked(front, kx) + [last];
  }

  lemma SubsetWithout(front: seq<Demand>, last: Demand, subset: seq<Demand>, i: nat)
    requires multiset(subset) <= multiset(front + [last]) && i < |subset| && subset[i] == last
    ensures multiset(subset[..i] + subset[i + 1..]) <= multiset(front)
    ensures multiset(subset) == multiset(subset[..i] + subset[i + 1..]) + multiset{last}
  {
    WithoutOne(subset, i);
    assert multiset(front + [last]) == multiset(front) + multiset{last};
  }

  /** Whatever some of the demands are, in any order: they are a selection from the ordered demands. */
  lemma {:induction false} SubsetIsSelection(ordered: seq<Demand>, subset: seq<Demand>) returns (jx: seq<nat>)
    requires multiset(subset) <= multiset(ordered)
    ensures Selection(jx, |ordered|) && multiset(Picked(ordered, jx)) == multiset(subset)
  {
    if ordered == [] {
      assert |multiset(subset)| == 0;
      jx := [];
    } else {
      hide Selection, Picked;
      var (front, last) := (ordered[..|ordered| - 1], ordered[|ordered| - 1]);
      assert ordered == front + [last];
      if last in subset {
        var i :| 0 <= i < |subset| && subset[i] == last;
        SubsetWithout(front, last, subset, i);
        var kx := SubsetIsSelection(front, subset[..i] + subset[i + 1..]);
        PickedLast(front, last, kx);
        jx := kx + [|front|];
      } else {
        SubsetOfFront(front, last, subset);
        jx := SubsetIsSelection(front, subset);
        PickedLast(front, last, jx);
      }
    }
  }

  lemma SubsetOfFront(front: seq<Demand>, last: Demand, subset: seq<Demand>)
    requires multiset(subset) <= multiset(front + [last]) && last !in subset
    ensures multiset(subset) <= multiset(front)
  {
    forall d ensures multiset(subset)[d] <= multiset(front)[d] {
      assert multiset(front + [last]) == multiset(front) + multiset{last};
      if d == last {
        assert d !in multiset(subset);
      }
    }
  }

  /** The plan takes some of the demands, in name order; its figures are the sums over them; it fits the budget; and no
      subset of the demands whose sizes, each rounded up, fit the whole mebibytes of the budget is worth more, nor is
      one worth as much with less rounded memory. */
  lemma {:induction false} PlanIsOptimal(demands: seq<Demand>, budgetMb: real, plan: Plan, subset: seq<Demand>)
    requires AllValid(demands) && budgetMb >= 0.0 && IsPlan(demands, budgetMb, plan)
    requires multiset(subset) <= multiset(demands)
    ensures multiset(plan.selected) <= multiset(demands) && NameSorted(plan.selected)
    ensures plan.avoidedLoadMsPerMinute == SumOf(Benefit, plan.selected)
    ensures plan.usedMb == SumOf(SizeMb, plan.selected) <= budgetMb
    ensures SumOf(WholeMb, plan.selected) <= budgetMb.Floor as real
    ensures SumOf(WholeMb, subset) <= budgetMb.Floor as real ==>
              && SumOf(Benefit, subset) <= plan.avoidedLoadMsPerMinute
              && (SumOf(Benefit, subset) == plan.avoidedLoadMsPerMinute ==>
                    SumOf(WholeMb, plan.selected) <= SumOf(WholeMb, subset))
  {
    ByNameIsValid(demands);
    var ordered := ByName(demands);
    ByNameIsSorted(demands);
    hide ByName, AllValid, Gain, Rounded, Lean, PlanOf, TotalMb, LexBefore, Picked, NameSorted, SumOf, IsPlan, Chosen;
    var ix := PlanChoice(demands, budgetMb, plan);
    PlanParts(ordered, budgetMb, ix);
    PickedSums(ordered, ix);
    SizeIsRoundedUp(ordered, ix);
    PickedIsSubset(ordered, ix);
    var jx := SubsetIsSelection(ordered, subset);
    PickedSums(ordered, jx);
    SumIgnoresOrder(Benefit, Picked(ordered, jx), subset);
    SumIgnoresOrder(WholeMb, Picked(ordered, jx), subset);
    ChosenOutranks(ordered, budgetMb.Floor, ix, jx);
  }

  lemma PlanChoice(demands: seq<Demand>, budgetMb: real, plan: Plan) returns (ix: seq<nat>)
    requires AllValid(demands) && budgetMb >= 0.0 && IsPlan(demands, budgetMb, plan)
    ensures AllValid(ByName(demands)) && Chosen(ByName(demands), budgetMb.Floor, ix)
    ensures Selection(ix, |ByName(demands)|) && plan == PlanOf(ByName(demands), budgetMb, ix)
  {
    ByNameIsValid(demands);
    var ordered := ByName(demands);
    hide ByName, PlanOf, Lean, Rounded, Outranks;
    ix :| Chosen(ordered, budgetMb.Floor, ix) && plan == PlanOf(ordered, budgetMb, ix);
  }

  lemma ChosenOutranks(ds: seq<Demand>, capacity: nat, ix: seq<nat>, jx: seq<nat>)
    requires AllValid(ds) && Chosen(ds, capacity, ix) && Selection(ix, |ds|) && Selection(jx, |ds|)
    ensures Rounded(ds, ix) <= capacity
    ensures Rounded(ds, jx) <= capacity ==>
              Gain(ds, jx) <= Gain(ds, ix) && (Gain(ds, jx) == Gain(ds, ix) ==> Rounded(ds, ix) <= Rounded(ds, jx))
  {
    hide Gain, Rounded, Lean, LexBefore;
    if Rounded(ds, jx) <= capacity {
      assert Outranks(ds, ix, jx);
    }
  }

  lemma {:induction false} PickedWithin(ordered: seq<Demand>, ix: seq<nat>)
    requires Selection(ix, |ordered|)
    ensures multiset(Picked(ordered, ix)) <= multiset(ordered)
  {
    if ordered == [] {
      FirstOfSelection(ix, 0);
    } else {
      hide Selection, Picked;
      var (front, last) := (ordered[..|ordered| - 1], ordered[|ordered| - 1]);
      var kx := SelectionFront(ix, |front|);
      PickedWithin(front, kx);
      PickedLast(front, last, kx);
      assert ordered == front + [last];
      assert multiset(ordered) == multiset(front) + multiset{last};
    }
  }

  /** A selection is one from the front, with or without the last position. */
  lemma SelectionFront(ix: seq<nat>, n: nat) returns (kx: seq<nat>)
    requires Selection(ix, n + 1)
    ensures Selection(kx, n) && (ix == kx || ix == kx + [n])
  {
    kx := if ix != [] && ix[|ix| - 1] == n then ix[..|ix| - 1] else ix;
  }

  lemma PickedIsSubset(ordered: seq<Demand>, ix: seq<nat>)
    requires NameSorted(ordered) && Selection(ix, |ordered|)
    ensures multiset(Picked(ordered, ix)) <= multiset(ordered) && NameSorted(Picked(ordered, ix))
  {
    PickedWithin(ordered, ix);
  }

  lemma PlanParts(ordered: seq<Demand>, budgetMb: real, ix: seq<nat>)
    requires forall i | 0 <= i < |ix| :: ix[i] < |ordered|
    ensures var p := PlanOf(ordered, budgetMb, ix);
            p.selected == Picked(ordered, ix) && p.usedMb == TotalMb(p.selected)
            && p.avoidedLoadMsPerMinute == Gain(ordered, ix)
            && p.excluded == NotAmong(ordered, Names(p.selected)) && p.budgetMb == budgetMb
  {
  }

  lemma {:induction false} SizeIsRoundedUp(ds: seq<Demand>, ix: seq<nat>)
    requires AllValid(ds) && forall i | 0 <= i < |ix| :: ix[i] < |ds|
    ensures TotalMb(Picked(ds, ix)) <= Rounded(ds, ix) as real
  {
    if ix != [] {
      var front := ix[..|ix| - 1];
      SizeIsRoundedUp(ds, front);
      assert Picked(ds, ix)[..|ix| - 1] == Picked(ds, front);
    }
  }

  /** The plan does not depend on the order in which the demands are listed, and there is only one. */
  lemma {:induction false} PlanIgnoresOrder(a: seq<Demand>, b: seq<Demand>, budgetMb: real, p: Plan, q: Plan)
    requires multiset(a) == multiset(b) && AllValid(a) && DistinctNames(a) && budgetMb >= 0.0
    requires AllValid(b) && IsPlan(a, budgetMb, p) && IsPlan(b, budgetMb, q)
    ensures DistinctNames(b) && p == q
  {
    DistinctnessIgnoresOrder(a, b);
    ByNameIgnoresOrder(a, b);
    ByNameIsValid(a);
    var ordered := ByName(a);
    hide Chosen, PlanOf, ByName, AllValid, DistinctNames;
    var ix: seq<nat> :| Chosen(ordered, budgetMb.Floor, ix) && p == PlanOf(ordered, budgetMb, ix);
    var jx: seq<nat> :| Chosen(ordered, budgetMb.Floor, jx) && q == PlanOf(ordered, budgetMb, jx);
    ChosenIsUnique(ordered, budgetMb.Floor, ix, jx);
  }

  /** The positions below n that a selection leaves out, in order. */
  function Others(ix: seq<nat>, n: nat): (r: seq<nat>)
    ensures forall i | 0 <= i < |r| :: r[i] < n
  {
    if n == 0 then [] else Others(ix, n - 1) + if n - 1 in ix then [] else [n - 1]
  }

  lemma NameIsPicked(ds: seq<Demand>, ix: seq<nat>, n: nat)
    requires DistinctNames(ds) && Selection(ix, |ds|) && n < |ds|
    ensures ds[n].adapter in Names(Picked(ds, ix)) <==> n in ix
  {
    var picked := Picked(ds, ix);
    if n in ix {
      var i :| 0 <= i < |ix| && ix[i] == n;
      assert picked[i] == ds[n] && picked[i] in picked;
    }
    if ds[n].adapter in Names(picked) {
      var i :| 0 <= i < |picked| && picked[i].adapter == ds[n].adapter;
      assert ds[ix[i]].adapter == ds[n].adapter;
    }
  }

  function NamesOf(ds: seq<Demand>): (r: seq<string>)
    ensures |r| == |ds| && forall i | 0 <= i < |ds| :: r[i] == ds[i].adapter
  {
    seq(|ds|, i requires 0 <= i < |ds| => ds[i].adapter)
  }

  /** The excluded names are those of exactly the adapters that were not selected, in name order. */
  lemma {:induction false} ExcludedAreTheOthers(ds: seq<Demand>, ix: seq<nat>, n: nat)
    requires DistinctNames(ds) && Selection(ix, |ds|) && n <= |ds|
    ensures NotAmong(ds[..n], Names(Picked(ds, ix))) == NamesOf(Picked(ds, Others(ix, n)))
  {
    if n > 0 {
      hide Names;
      ExcludedAreTheOthers(ds, ix, n - 1);
      NameIsPicked(ds, ix, n - 1);
      assert ds[..n][..n - 1] == ds[..n - 1];
      var rest := Others(ix, n - 1);
      if n - 1 in ix {
        assert Others(ix, n) == rest;
      } else {
        assert Others(ix, n) == rest + [n - 1];
        assert NamesOf(Picked(ds, rest + [n - 1])) == NamesOf(Picked(ds, rest)) + [ds[n - 1].adapter];
      }
    }
  }

  // ---------------------------------------------------------------- the least index list

  /** The tie-break as its comment reads: no selection of the same benefit and memory comes first. */
  ghost predicate LexLeast(ds: seq<Demand>, ix: seq<nat>)
    requires AllValid(ds) && Selection(ix, |ds|)
  {
    forall jx | Selection(jx, |ds|) && Gain(ds, jx) == Gain(ds, ix) && Rounded(ds, jx) == Rounded(ds, ix) ::
      NotAfter(ix, jx)
  }

  function LeanPart(ds: seq<Demand>, ix: seq<nat>): seq<nat>
    requires AllValid(ds) && forall i | 0 <= i < |ix| :: ix[i] < |ds|
  {
    if ix == [] then []
    else LeanPart(ds, ix[..|ix| - 1]) + if Idle(ds[ix[|ix| - 1]]) then [] else [ix[|ix| - 1]]
  }

  lemma LastOfSelection(ds: seq<Demand>, ix: seq<nat>, n: nat)
    requires AllValid(ds) && n <= |ds| && Selection(ix, n) && ix != []
    ensures ix[|ix| - 1] < n && Selection(ix[..|ix| - 1], ix[|ix| - 1])
    ensures Gain(ds, ix) == Gain(ds, ix[..|ix| - 1]) + ds[ix[|ix| - 1]].AvoidedLoadMsPerMinute()
    ensures Rounded(ds, ix) == Rounded(ds, ix[..|ix| - 1]) + ds[ix[|ix| - 1]].Weight()
  {
    hide Demand.AvoidedLoadMsPerMinute, Demand.Weight;
  }

  /** Leaving out the idle adapters changes neither benefit nor size. */
  lemma {:induction false} LeanPartIsAsGood(ds: seq<Demand>, ix: seq<nat>, n: nat)
    requires AllValid(ds) && n <= |ds| && Selection(ix, n)
    ensures Selection(LeanPart(ds, ix), n) && Lean(ds, LeanPart(ds, ix))
    ensures Gain(ds, LeanPart(ds, ix)) == Gain(ds, ix) && Rounded(ds, LeanPart(ds, ix)) == Rounded(ds, ix)
    decreases |ix|
  {
    if ix != [] {
      hide Gain, Rounded, Idle, Lean, Demand.AvoidedLoadMsPerMinute, Demand.Weight;
      LastOfSelection(ds, ix, n);
      var last := ix[|ix| - 1];
      var front := LeanPart(ds, ix[..|ix| - 1]);
      LeanPartIsAsGood(ds, ix[..|ix| - 1], last);
      SelectionGrows(front, last, n);
      if Idle(ds[last]) {
        IdleAddsNothing(ds, last);
        assert LeanPart(ds, ix) == front + [] == front;
      } else {
        AppendSelection(ds, last, front);
        SelectionGrows(front + [last], last + 1, n);
      }
    }
  }

  lemma {:induction false} LeanPrefixStays(ds: seq<Demand>, ix: seq<nat>, k: nat)
    requires AllValid(ds) && Selection(ix, |ds|) && k <= |ix| && Lean(ds, ix[..k])
    ensures ix[..k] <= LeanPart(ds, ix)
    decreases |ix|
  {
    hide Idle;
    if k < |ix| {
      assert ix[..|ix| - 1][..k] == ix[..k];
      LeanPrefixStays(ds, ix[..|ix| - 1], k);
    } else {
      WholePrefix(ix);
      LeanPartOfLean(ds, ix);
    }
  }

  lemma {:induction false} LeanPartOfLean(ds: seq<Demand>, ix: seq<nat>)
    requires AllValid(ds) && Selection(ix, |ds|) && Lean(ds, ix)
    ensures LeanPart(ds, ix) == ix
  {
    hide Idle;
    if ix != [] {
      LeanPartOfLean(ds, ix[..|ix| - 1]);
      assert ix == ix[..|ix| - 1] + [ix[|ix| - 1]];
    }
  }

  lemma {:induction false} TotalsOfConcat(ds: seq<Demand>, a: seq<nat>, b: seq<nat>)
    requires AllValid(ds) && (forall i | 0 <= i < |a| :: a[i] < |ds|) && forall i | 0 <= i < |b| :: b[i] < |ds|
    ensures Gain(ds, a + b) == Gain(ds, a) + Gain(ds, b) && Rounded(ds, a + b) == Rounded(ds, a) + Rounded(ds, b)
    decreases |b|
  {
    hide Demand.AvoidedLoadMsPerMinute, Demand.Weight;
    if b == [] {
      assert a + b == a;
    } else {
      assert (a + b)[..|a + b| - 1] == a + b[..|b| - 1];
      TotalsOfConcat(ds, a, b[..|b| - 1]);
    }
  }

  /** Where an adapter that is not selected would stand. */
  lemma {:induction false} PlaceFor(ix: seq<nat>, n: nat, z: nat) returns (k: nat)
    requires Selection(ix, n) && z !in ix
    ensures k <= |ix| && (forall i | 0 <= i < k :: ix[i] < z) && (forall i | k <= i < |ix| :: z < ix[i])
  {
    k := 0;
    while k < |ix| && ix[k] < z
      invariant k <= |ix| && forall i | 0 <= i < k :: ix[i] < z
    {
      k := k + 1;
    }
  }

  lemma InsertedSelection(ix: seq<nat>, n: nat, z: nat, k: nat)
    requires Selection(ix, n) && z < n && k <= |ix|
    requires (forall i | 0 <= i < k :: ix[i] < z) && (forall i | k <= i < |ix| :: z < ix[i])
    ensures Selection(ix[..k] + [z] + ix[k..], n)
  {
  }

  lemma TotalsOfOne(ds: seq<Demand>, z: nat)
    requires AllValid(ds) && z < |ds|
    ensures Gain(ds, [z]) == ds[z].AvoidedLoadMsPerMinute() && Rounded(ds, [z]) == ds[z].Weight()
  {
    hide Demand.AvoidedLoadMsPerMinute, Demand.Weight;
    assert [z][..0] == [];
  }

  /** Adding one adapter to a selection that leaves it out. */
  lemma InsertedTotals(ds: seq<Demand>, ix: seq<nat>, z: nat, k: nat)
    requires AllValid(ds) && Selection(ix, |ds|) && z < |ds| && k <= |ix|
    requires (forall i | 0 <= i < k :: ix[i] < z) && (forall i | k <= i < |ix| :: z < ix[i])
    ensures Selection(ix[..k] + [z] + ix[k..], |ds|)
    ensures Gain(ds, ix[..k] + [z] + ix[k..]) == Gain(ds, ix) + ds[z].AvoidedLoadMsPerMinute()
    ensures Rounded(ds, ix[..k] + [z] + ix[k..]) == Rounded(ds, ix) + ds[z].Weight()
  {
    hide Gain, Rounded, Demand.AvoidedLoadMsPerMinute, Demand.Weight;
    InsertedSelection(ix, |ds|, z, k);
    assert ix == ix[..k] + ix[k..];
    TotalsOfOne(ds, z);
    TotalsOfConcat(ds, ix[..k], ix[k..]);
    TotalsOfConcat(ds, ix[..k], [z]);
    TotalsOfConcat(ds, ix[..k] + [z], ix[k..]);
  }

  /** No size, and no requests or no time to load. */
  predicate HasNoUse(d: Demand) {
    d.sizeMb == 0.0 && (d.requestsPerMinute == 0.0 || d.coldLoadMs == 0.0)
  }

  lemma IdleExactly(d: Demand)
    requires d.Valid()
    ensures Idle(d) <==> HasNoUse(d)
    ensures d.AvoidedLoadMsPerMinute() > 0.0 <==> d.requestsPerMinute > 0.0 && d.coldLoadMs > 0.0
  {
    if d.requestsPerMinute > 0.0 && d.coldLoadMs > 0.0 {
      assert d.requestsPerMinute * d.coldLoadMs > 0.0;
    }
  }

  /** An idle adapter that sorts before a selected one. */
  ghost predicate IdleWithin(ds: seq<Demand>, ix: seq<nat>, z: nat)
    requires AllValid(ds)
  {
    z < |ds| && HasNoUse(ds[z]) && ix != [] && z < ix[|ix| - 1]
  }

  lemma LeanLeavesOutIdle(ds: seq<Demand>, ix: seq<nat>, z: nat)
    requires AllValid(ds) && Selection(ix, |ds|) && Lean(ds, ix) && z < |ds| && Idle(ds[z])
    ensures z !in ix
  {
    hide Idle;
  }

  lemma IdleBreaksTheTie(ds: seq<Demand>, capacity: nat, ix: seq<nat>, z: nat)
    requires AllValid(ds) && Chosen(ds, capacity, ix) && IdleWithin(ds, ix, z)
    ensures !LexLeast(ds, ix)
  {
    IdleExactly(ds[z]);
    hide Gain, Rounded, Idle, HasNoUse;
    IdleAddsNothing(ds, z);
    LeanLeavesOutIdle(ds, ix, z);
    var k := PlaceFor(ix, |ds|, z);
    InsertedTotals(ds, ix, z, k);
    var jx := ix[..k] + [z] + ix[k..];
    assert jx[..k] == ix[..k] && jx[k] == z;
    DifferenceOrders(jx, ix, k);
    LexAsymmetric(jx, ix);
    LexIrreflexive(ix);
  }

  lemma LeanBelow(ds: seq<Demand>, ix: seq<nat>, jx: seq<nat>, k: nat)
    requires AllValid(ds) && Selection(ix, |ds|) && Selection(jx, |ds|) && k < |jx| && k < |ix| && jx[k] < ix[k]
    requires forall z: nat :: !IdleWithin(ds, ix, z)
    ensures Lean(ds, jx[..k + 1])
  {
    hide Idle, HasNoUse;
    forall i | 0 <= i < k + 1 ensures !Idle(ds[jx[i]]) {
      IdleExactly(ds[jx[i]]);
      assert !IdleWithin(ds, ix, jx[i]);
      assert ix[k] <= ix[|ix| - 1];
    }
  }

  lemma NoIdleNoTie(ds: seq<Demand>, capacity: nat, ix: seq<nat>, jx: seq<nat>)
    requires AllValid(ds) && Chosen(ds, capacity, ix) && forall z: nat :: !IdleWithin(ds, ix, z)
    requires Selection(jx, |ds|) && Gain(ds, jx) == Gain(ds, ix) && Rounded(ds, jx) == Rounded(ds, ix)
    ensures !LexBefore(jx, ix)
  {
    hide Gain, Rounded, LexBefore, IdleWithin, Idle, Lean;
    if LexBefore(jx, ix) {
      var k := LexDifference(jx, ix);
      assert jx[..|jx|] == jx;
      if k == |jx| {
        ExtensionLoses(ds, jx, ix);
      } else {
        LeanBelow(ds, ix, jx, k);
        LeanPrefixStays(ds, jx, k + 1);
        LeanPartIsAsGood(ds, jx, |ds|);
        var t := LeanPart(ds, jx);
        SmallerPrefix(jx, ix, t, k);
        assert Outranks(ds, ix, t);
        LexAsymmetric(t, ix);
        LexIrreflexive(ix);
      }
    }
  }

  lemma SmallerPrefix(jx: seq<nat>, ix: seq<nat>, t: seq<nat>, k: nat)
    requires DiffersAt(jx, ix, k) && k < |jx| && jx[..k + 1] <= t
    ensures LexBefore(t, ix)
  {
    hide LexBefore;
    assert t[..k] == jx[..k] && t[k] == jx[k];
    DifferenceOrders(t, ix, k);
  }

  /** The plan is the least index list of its benefit and memory if and only if no adapter of zero size and
      zero benefit sorts before a selected one. */
  lemma {:induction false} LexLeastExactly(ds: seq<Demand>, capacity: nat, ix: seq<nat>)
    requires AllValid(ds) && Chosen(ds, capacity, ix)
    ensures LexLeast(ds, ix) <==> forall z: nat :: !IdleWithin(ds, ix, z)
  {
    hide Gain, Rounded, LexBefore, IdleWithin, Lean;
    if z: nat :| IdleWithin(ds, ix, z) {
      IdleBreaksTheTie(ds, capacity, ix, z);
    } else {
      forall jx | Selection(jx, |ds|) && Gain(ds, jx) == Gain(ds, ix) && Rounded(ds, jx) == Rounded(ds, ix)
        ensures NotAfter(ix, jx)
      {
        NoIdleNoTie(ds, capacity, ix, jx);
        LexTotal(ix, jx);
      }
    }
  }

  // ---------------------------------------------------------------- the tie-break for every budget

  function MergedAt(ds: seq<Demand>, n: nat, states: map<nat, Cell>, u: nat): Option<Cell>
    requires AllValid(ds) && n < |ds|
  {
    Merged(states, Offer(ds, n, states, u), u)
  }

  lemma {:induction false} TableExists(ds: seq<Demand>, n: nat, capacity: nat) returns (states: map<nat, Cell>)
    requires AllValid(ds) && n <= |ds|
    ensures Table(ds, n, capacity, states)
  {
    hide Table;
    if n == 0 {
      EmptyTable(ds, capacity);
      states := map[0 := Cell(0.0, [])];
    } else {
      var m: nat := n - 1;
      var before := TableExists(ds, m, capacity);
      states := map u: nat | u <= capacity && MergedAt(ds, m, before, u).Some? :: MergedAt(ds, m, before, u).value;
      AllConsidered(ds, m, capacity, before, states);
      TableGrows(ds, m, capacity, before, states);
    }
  }

  lemma AllConsidered(ds: seq<Demand>, n: nat, capacity: nat, before: map<nat, Cell>, states: map<nat, Cell>)
    requires AllValid(ds) && n < |ds| && Table(ds, n, capacity, before)
    requires states == map u: nat | u <= capacity && MergedAt(ds, n, before, u).Some? ::
                         MergedAt(ds, n, before, u).value
    ensures Considered(ds, n, capacity, before, before, states)
  {
    hide Offer, Best;
  }

  lemma {:induction false} MaximalExists(states: map<nat, Cell>, bound: nat) returns (used: nat)
    requires states != map[] && forall u | u in states :: u <= bound
    ensures IsMaximal(states, used)
    decreases |states|
  {
    used :| used in states;
    var rest := states - {used};
    assert states.Keys == rest.Keys + {used};
    if rest != map[] {
      var u := MaximalExists(rest, bound);
      if states[u].benefit > states[used].benefit || (states[u].benefit == states[used].benefit && u < used) {
        used := u;
      }
    }
  }

  lemma ChosenExists(ds: seq<Demand>, capacity: nat) returns (ix: seq<nat>)
    requires AllValid(ds)
    ensures Chosen(ds, capacity, ix)
  {
    hide Table, Chosen;
    var states := TableExists(ds, |ds|, capacity);
    TableIsInhabited(ds, capacity, states);
    TableIsBounded(ds, capacity, states);
    var used := MaximalExists(states, capacity);
    MaximalStateIsChosen(ds, capacity, states, used);
    ix := states[used].indexes;
  }

  lemma TableIsBounded(ds: seq<Demand>, capacity: nat, states: map<nat, Cell>)
    requires AllValid(ds) && Table(ds, |ds|, capacity, states)
    ensures forall u | u in states :: u <= capacity
  {
  }

  function Everything(n: nat): (r: seq<nat>)
    ensures |r| == n && forall i | 0 <= i < n :: r[i] == i
  {
    seq(n, i => i)
  }

  /** No selection needs more memory than all adapters together. */
  lemma {:induction false} EverythingIsLargest(ds: seq<Demand>, ix: seq<nat>, n: nat)
    requires AllValid(ds) && n <= |ds| && Selection(ix, n)
    ensures Rounded(ds, ix) <= Rounded(ds, Everything(n))
    decreases n
  {
    hide Demand.Weight;
    if ix != [] {
      SomeIndexIsBelow(ix, n);
      var jx := SplitSelection(ix, n - 1);
      EverythingIsLargest(ds, jx, n - 1);
      assert Everything(n) == Everything(n - 1) + [n - 1];
      LastOfEverything(ds, jx, n);
    }
  }

  lemma LastOfEverything(ds: seq<Demand>, jx: seq<nat>, n: nat)
    requires AllValid(ds) && 0 < n <= |ds| && Selection(jx, n - 1)
    ensures Rounded(ds, Everything(n)) == Rounded(ds, Everything(n - 1)) + ds[n - 1].Weight()
    ensures Rounded(ds, jx + [n - 1]) == Rounded(ds, jx) + ds[n - 1].Weight()
  {
    hide Demand.Weight, Gain, Rounded, Lean;
    assert Everything(n) == Everything(n - 1) + [n - 1];
    AppendSelection(ds, n - 1, jx);
    AppendSelection(ds, n - 1, Everything(n - 1));
  }

  /** With room for everything, one more adapter with a benefit is always worth having. */
  lemma RoomForOneMore(ds: seq<Demand>, ix: seq<nat>, y: nat) returns (jx: seq<nat>)
    requires AllValid(ds) && Selection(ix, |ds|) && y !in ix
    requires y < |ds| && ds[y].AvoidedLoadMsPerMinute() > 0.0
    ensures Feasible(ds, Rounded(ds, Everything(|ds|)), jx) && Gain(ds, jx) > Gain(ds, ix)
  {
    hide Gain, Rounded, Lean, Demand.AvoidedLoadMsPerMinute, Demand.Weight;
    var k := PlaceFor(ix, |ds|, y);
    InsertedTotals(ds, ix, y, k);
    jx := ix[..k] + [y] + ix[k..];
    EverythingIsLargest(ds, jx, |ds|);
  }

  lemma AmpleBudgetTakesUseful(ds: seq<Demand>, ix: seq<nat>, y: nat)
    requires AllValid(ds) && Chosen(ds, Rounded(ds, Everything(|ds|)), ix)
    requires y < |ds| && ds[y].AvoidedLoadMsPerMinute() > 0.0
    ensures y in ix
  {
    hide Gain, Rounded, Lean, Demand.AvoidedLoadMsPerMinute, Demand.Weight;
    if y !in ix {
      var jx := RoomForOneMore(ds, ix, y);
    }
  }

  /** The last selected adapter has a benefit: otherwise leaving it out would save memory. */
  lemma LastSelectedIsUseful(ds: seq<Demand>, capacity: nat, ix: seq<nat>)
    requires AllValid(ds) && Chosen(ds, capacity, ix) && ix != []
    ensures ds[ix[|ix| - 1]].AvoidedLoadMsPerMinute() > 0.0
  {
    hide Gain, Rounded, Demand.AvoidedLoadMsPerMinute, Demand.Weight;
    LastOfSelection(ds, ix, |ds|);
    var last := ix[|ix| - 1];
    assert !Idle(ds[last]);
    BenefitIsNonNegative(ds[last]);
    SelectionGrows(ix[..|ix| - 1], last, |ds|);
    assert Outranks(ds, ix, ix[..|ix| - 1]);
  }

  ghost predicate AlwaysLexLeast(ds: seq<Demand>)
    requires AllValid(ds)
  {
    forall capacity: nat, ix: seq<nat> | Chosen(ds, capacity, ix) :: LexLeast(ds, ix)
  }

  /** An adapter of zero size and zero benefit that sorts before one with a benefit. */
  ghost predicate IdleFirst(ds: seq<Demand>, z: nat, y: nat)
    requires AllValid(ds)
  {
    z < y < |ds| && HasNoUse(ds[z]) && ds[y].requestsPerMinute > 0.0 && ds[y].coldLoadMs > 0.0
  }

  /** The plan is the least index list for every budget if and only if no adapter of zero size and zero
      benefit sorts before one with a benefit; in particular, if all sizes are positive. */
  lemma {:induction false} TieBreakExactly(ds: seq<Demand>)
    requires AllValid(ds)
    ensures AlwaysLexLeast(ds) <==> forall z: nat, y: nat :: !IdleFirst(ds, z, y)
    ensures (forall d | d in ds :: d.sizeMb > 0.0) ==> AlwaysLexLeast(ds)
  {
    hide LexLeast, IdleFirst, Gain, Rounded, Lean;
    if z: nat, y: nat :| IdleFirst(ds, z, y) {
      IdleFirstBreaks(ds, z, y);
      IdleHasNoSize(ds, z, y);
    } else {
      forall capacity: nat, ix: seq<nat> | Chosen(ds, capacity, ix) ensures LexLeast(ds, ix) {
        NoIdleFirst(ds, capacity, ix);
      }
    }
  }

  lemma IdleHasNoSize(ds: seq<Demand>, z: nat, y: nat)
    requires AllValid(ds) && IdleFirst(ds, z, y)
    ensures exists d :: d in ds && d.sizeMb <= 0.0
  {
    assert ds[z] in ds;
  }

  lemma IdleFirstBreaks(ds: seq<Demand>, z: nat, y: nat)
    requires AllValid(ds) && IdleFirst(ds, z, y)
    ensures !AlwaysLexLeast(ds)
  {
    IdleExactly(ds[y]);
    hide LexLeast, Gain, Rounded, Lean, Idle, HasNoUse, Demand.AvoidedLoadMsPerMinute;
    var capacity := Rounded(ds, Everything(|ds|));
    var ix := ChosenExists(ds, capacity);
    AmpleBudgetTakesUseful(ds, ix, y);
    IdleBreaksTheTie(ds, capacity, ix, z);
  }

  lemma NoIdleFirst(ds: seq<Demand>, capacity: nat, ix: seq<nat>)
    requires AllValid(ds) && Chosen(ds, capacity, ix) && forall z: nat, y: nat :: !IdleFirst(ds, z, y)
    ensures LexLeast(ds, ix)
  {
    hide LexLeast, Gain, Rounded, Lean, Idle, Demand.AvoidedLoadMsPerMinute;
    LexLeastExactly(ds, capacity, ix);
    if ix != [] {
      LastSelectedIsUseful(ds, capacity, ix);
      IdleExactly(ds[ix[|ix| - 1]]);
      forall z: nat ensures !IdleWithin(ds, ix, z) {
        assert !IdleFirst(ds, z, ix[|ix| - 1]);
      }
    }
  }
}
