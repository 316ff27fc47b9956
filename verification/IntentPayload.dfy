/** The payload rules of the intent surface (include/LogosIntent.h): what a payload may be, stated
    without a traversal, and the checker that decides it with a running budget. */
module IntentPayload {
  import opened Sequences

  /** A double as the checker tells doubles apart. */
  datatype Double = Finite(value: real) | Infinite | NotANumber

  /** Strings are counted in UTF-16 code units, of which a character outside the basic plane takes two. */
  type CodeUnit = bv16
  type Utf16 = seq<CodeUnit>

  datatype Entry = Entry(key: Utf16, value: Value)

  /** A variant value. A map's entries come in the order the map iterates them. */
  datatype Value =
    | Absent
    | Bool(b: bool)
    | Integer(n: int)
    | Number(d: Double)
    | Text(s: Utf16)
    | List(elements: seq<Value>)
    | Map(entries: seq<Entry>)
    | Foreign

  const MAX_DEPTH := 8
  const MAX_NODES := 1000
  const MAX_STRING := 65536
  const MAX_KEY := 64
  const MAX_CHARS := 4 * 1024 * 1024
  const MAX_INTEGER := 9007199254740991

  // ---- the rules ----

  function Arity(v: Value): nat {
    match v
    case List(xs) => |xs|
    case Map(es) => |es|
    case _ => 0
  }

  function Child(v: Value, i: nat): (c: Value)
    requires i < Arity(v)
    ensures c < v
  {
    if v.List? then v.elements[i] else v.entries[i].value
  }

  function KeyLength(v: Value, i: nat): nat
    requires i < Arity(v)
  {
    if v.Map? then |v.entries[i].key| else 0
  }

  function Depth(v: Value): nat
    decreases v, Arity(v) + 1
  {
    1 + Below(v, Arity(v))
  }

  /** The depth of the deepest of the first `n` children. */
  function Below(v: Value, n: nat): nat
    requires n <= Arity(v)
    decreases v, n
  {
    if n == 0 then 0 else Max(Below(v, n - 1), Depth(Child(v, n - 1)))
  }

  function Max(a: nat, b: nat): nat { if a < b then b else a }

  function Nodes(v: Value): nat
    decreases v, Arity(v) + 1
  {
    1 + NodesIn(v, Arity(v))
  }

  function NodesIn(v: Value, n: nat): nat
    requires n <= Arity(v)
    decreases v, n
  {
    if n == 0 then 0 else NodesIn(v, n - 1) + Nodes(Child(v, n - 1))
  }

  function Chars(v: Value): nat
    decreases v, Arity(v) + 1
  {
    (if v.Text? then |v.s| else 0) + CharsIn(v, Arity(v))
  }

  /** Characters in the first `n` children and, for a map, in their keys. */
  function CharsIn(v: Value, n: nat): nat
    requires n <= Arity(v)
    decreases v, n
  {
    if n == 0 then 0 else CharsIn(v, n - 1) + KeyLength(v, n - 1) + Chars(Child(v, n - 1))
  }

  /** Only allowed types, each value within its own bounds, all the way down. */
  predicate Allowed(v: Value) {
    && (match v
        case Absent => true
        case Bool(_) => true
        case Integer(n) => -MAX_INTEGER <= n <= MAX_INTEGER
        case Number(d) => d.Finite?
        case Text(s) => |s| <= MAX_STRING
        case List(_) => true
        case Map(_) => true
        case Foreign => false)
    && forall i :: 0 <= i < Arity(v) ==> KeyLength(v, i) <= MAX_KEY && Allowed(Child(v, i))
  }

  /** The frozen rules, with no traversal in them. */
  predicate Canonical(v: Value) {
    Allowed(v) && Depth(v) <= MAX_DEPTH && Nodes(v) <= MAX_NODES && Chars(v) <= MAX_CHARS
  }

  /** The same, for a value met at `depth` when `nodes` and `chars` are already spent. */
  predicate Fits(v: Value, depth: nat, nodes: nat, chars: nat) {
    && Allowed(v) && depth + Depth(v) <= MAX_DEPTH + 1
    && nodes + Nodes(v) <= MAX_NODES && chars + Chars(v) <= MAX_CHARS
  }

  // ---- the whole bounds its parts ----

  lemma {:induction false} PrefixBounds(v: Value, i: nat, n: nat)
    requires i < n <= Arity(v)
    ensures NodesIn(v, i) + Nodes(Child(v, i)) <= NodesIn(v, n)
    ensures CharsIn(v, i) + KeyLength(v, i) + Chars(Child(v, i)) <= CharsIn(v, n)
    ensures Depth(Child(v, i)) <= Below(v, n)
    decreases n
  {
    if i < n - 1 {
      PrefixBounds(v, i, n - 1);
    }
  }

  /** One level of the definitions. */
  lemma Unfolded(v: Value)
    ensures Depth(v) == 1 + Below(v, Arity(v)) && Nodes(v) == 1 + NodesIn(v, Arity(v))
    ensures Chars(v) == (if v.Text? then |v.s| else 0) + CharsIn(v, Arity(v))
    ensures Arity(v) == 0 ==> Depth(v) == 1 && Nodes(v) == 1
    ensures Arity(v) > 0 ==> !v.Text?
  {
  }

  lemma AllowedChild(v: Value, i: nat)
    requires Allowed(v) && i < Arity(v)
    ensures Allowed(Child(v, i)) && KeyLength(v, i) <= MAX_KEY
  {
  }

  /** Where a traversal stands after `i` children of `v` have passed. */
  ghost predicate Passed(v: Value, i: nat, depth: nat, nodes: nat, chars: nat, nodesNow: nat, charsNow: nat) {
    && i <= Arity(v)
    && nodesNow == nodes + 1 + NodesIn(v, i) && charsNow == chars + CharsIn(v, i)
    && depth + 1 + Below(v, i) <= MAX_DEPTH + 1
    && forall j :: 0 <= j < i ==> KeyLength(v, j) <= MAX_KEY && Allowed(Child(v, j))
  }

  lemma Unpassed(v: Value, depth: nat, nodes: nat, chars: nat)
    requires depth <= MAX_DEPTH
    ensures Passed(v, 0, depth, nodes, chars, nodes + 1, chars)
  {
  }

  lemma PassedNext(v: Value, i: nat, depth: nat, nodes: nat, chars: nat, nodesNow: nat, charsNow: nat)
    requires Passed(v, i, depth, nodes, chars, nodesNow, charsNow) && i < Arity(v)
    requires KeyLength(v, i) <= MAX_KEY && Fits(Child(v, i), depth + 1, nodesNow, charsNow + KeyLength(v, i))
    ensures Passed(v, i + 1, depth, nodes, chars,
                   nodesNow + Nodes(Child(v, i)), charsNow + KeyLength(v, i) + Chars(Child(v, i)))
  {
    hide Nodes, Chars, Depth, Allowed, Arity, Child, KeyLength;
  }

  /** A child that does not fit where the traversal meets it sinks the whole value. */
  lemma ChildSinks(v: Value, i: nat, depth: nat, nodes: nat, chars: nat, nodesNow: nat, charsNow: nat)
    requires Passed(v, i, depth, nodes, chars, nodesNow, charsNow) && i < Arity(v)
    requires !Fits(Child(v, i), depth + 1, nodesNow, charsNow + KeyLength(v, i))
             || KeyLength(v, i) > MAX_KEY || charsNow + KeyLength(v, i) > MAX_CHARS
    ensures !Fits(v, depth, nodes, chars)
  {
    hide NodesIn, CharsIn, Below, Nodes, Chars, Depth, Allowed, Arity, Child, KeyLength;
    if Fits(v, depth, nodes, chars) {
      AllowedChild(v, i);
      Unfolded(v);
      PrefixBounds(v, i, Arity(v));
    }
  }

  lemma PassedAll(v: Value, depth: nat, nodes: nat, chars: nat, nodesNow: nat, charsNow: nat)
    requires (v.List? || v.Map?) && Passed(v, Arity(v), depth, nodes, chars, nodesNow, charsNow)
    requires nodesNow <= MAX_NODES && charsNow <= MAX_CHARS
    ensures Fits(v, depth, nodes, chars)
    ensures nodesNow == nodes + Nodes(v) && charsNow == chars + Chars(v)
  {
    hide NodesIn, CharsIn, Below;
    Unfolded(v);
  }

  /** A value with no children is judged on its own. */
  lemma LeafFits(v: Value, depth: nat, nodes: nat, chars: nat)
    requires Arity(v) == 0 && !v.List? && !v.Map? && depth <= MAX_DEPTH && nodes < MAX_NODES && chars <= MAX_CHARS
    ensures Nodes(v) == 1 && Chars(v) == if v.Text? then |v.s| else 0
    ensures Fits(v, depth, nodes, chars) <==>
            match v
            case Integer(n) => -MAX_INTEGER <= n <= MAX_INTEGER
            case Number(d) => d.Finite?
            case Text(s) => |s| <= MAX_STRING && chars + |s| <= MAX_CHARS
            case Foreign => false
            case _ => true
  {
    Unfolded(v);
  }

  lemma NoRoom(v: Value, depth: nat, nodes: nat, chars: nat)
    ensures depth > MAX_DEPTH || nodes >= MAX_NODES ==> !Fits(v, depth, nodes, chars)
  {
    Unfolded(v);
  }

  // ---- order does not matter ----

  /** What one child adds to its parent. */
  datatype Cost = Cost(depth: nat, nodes: nat, chars: nat, fine: bool)

  function CostOf(v: Value, i: nat): Cost
    requires i < Arity(v)
  {
    var c := Child(v, i);
    Cost(Depth(c), Nodes(c), KeyLength(v, i) + Chars(c), KeyLength(v, i) <= MAX_KEY && Allowed(c))
  }

  function Costs(v: Value): seq<Cost> {
    seq(Arity(v), i requires 0 <= i < Arity(v) => CostOf(v, i))
  }

  function Plus(a: Cost, b: Cost): Cost {
    Cost(Max(a.depth, b.depth), a.nodes + b.nodes, a.chars + b.chars, a.fine && b.fine)
  }

  function Total(cs: seq<Cost>): Cost {
    if cs == [] then Cost(0, 0, 0, true) else Plus(Total(cs[..|cs| - 1]), cs[|cs| - 1])
  }

  lemma {:induction false} TotalOfPrefix(v: Value, n: nat)
    requires n <= Arity(v)
    ensures var t := Total(Costs(v)[..n]);
            && t.depth == Below(v, n) && t.nodes == NodesIn(v, n) && t.chars == CharsIn(v, n)
            && (t.fine <==> forall i :: 0 <= i < n ==> KeyLength(v, i) <= MAX_KEY && Allowed(Child(v, i)))
    decreases n
  {
    hide Allowed, Depth, Nodes, Chars, Child, KeyLength;
    if n > 0 {
      TotalOfPrefix(v, n - 1);
      assert Costs(v)[..n][..n - 1] == Costs(v)[..n - 1];
      assert Costs(v)[..n][n - 1] == CostOf(v, n - 1);
    }
  }

  lemma {:induction false} TotalWithout(cs: seq<Cost>, k: nat)
    requires k < |cs|
    ensures Total(cs) == Plus(Total(cs[..k] + cs[k + 1..]), cs[k])
    decreases |cs|
  {
    var n := |cs| - 1;
    if k == n {
      assert cs[..k] + cs[k + 1..] == cs[..n];
    } else {
      TotalWithout(cs[..n], k);
      assert cs[..n][..k] == cs[..k];
      var rest := cs[..k] + cs[k + 1..];
      assert rest[..|rest| - 1] == cs[..n][..k] + cs[..n][k + 1..];
      assert rest[|rest| - 1] == cs[n];
    }
  }

  lemma {:induction false} TotalOfMultiset(cs: seq<Cost>, ds: seq<Cost>)
    requires multiset(cs) == multiset(ds)
    ensures Total(cs) == Total(ds)
    decreases |cs|
  {
    if cs != [] {
      var k := TakeOut(cs, ds);
      TotalOfMultiset(cs[..|cs| - 1], ds[..k] + ds[k + 1..]);
      TotalWithout(ds, k);
    }
  }

  /** `w` holds what `v` holds, with lists and maps re-ordered at any level. */
  ghost predicate Reordered(v: Value, w: Value)
    decreases v
  {
    if v.List? then
      w.List? && exists xs: seq<Value> ::
        && |xs| == |v.elements| && multiset(xs) == multiset(w.elements)
        && forall i :: 0 <= i < |xs| ==> Reordered(v.elements[i], xs[i])
    else if v.Map? then
      w.Map? && exists es: seq<Entry> ::
        && |es| == |v.entries| && multiset(es) == multiset(w.entries)
        && forall i :: 0 <= i < |es| ==>
             es[i].key == v.entries[i].key && Reordered(v.entries[i].value, es[i].value)
    else v == w
  }

  /** Two values no rule tells apart. */
  ghost predicate Alike(v: Value, w: Value) {
    Depth(v) == Depth(w) && Nodes(v) == Nodes(w) && Chars(v) == Chars(w) && (Allowed(v) <==> Allowed(w))
  }

  /** The verdict, and every total it rests on, is blind to the order of elements and of keys. */
  lemma OrderIsIrrelevant(v: Value, w: Value)
    requires Reordered(v, w)
    ensures Canonical(v) <==> Canonical(w)
    ensures Nodes(v) == Nodes(w) && Chars(v) == Chars(w) && Depth(v) == Depth(w)
  {
    ReorderedAlike(v, w);
  }

  lemma {:induction false} ReorderedAlike(v: Value, w: Value)
    requires Reordered(v, w)
    ensures Alike(v, w)
    decreases v
  {
    hide Alike;
    if v.List? {
      var xs: seq<Value> :|
        && |xs| == |v.elements| && multiset(xs) == multiset(w.elements)
        && forall i :: 0 <= i < |xs| ==> Reordered(v.elements[i], xs[i]);
      forall i | 0 <= i < |xs| ensures Alike(v.elements[i], xs[i]) {
        ReorderedAlike(v.elements[i], xs[i]);
      }
      ListsAlike(v.elements, xs, w.elements);
    } else if v.Map? {
      var es: seq<Entry> :|
        && |es| == |v.entries| && multiset(es) == multiset(w.entries)
        && forall i :: 0 <= i < |es| ==>
             es[i].key == v.entries[i].key && Reordered(v.entries[i].value, es[i].value);
      forall i | 0 <= i < |es| ensures Alike(v.entries[i].value, es[i].value) {
        ReorderedAlike(v.entries[i].value, es[i].value);
      }
      MapsAlike(v.entries, es, w.entries);
    } else {
      Same(v);
    }
  }

  lemma Same(v: Value)
    ensures Alike(v, v)
  {
  }

  lemma ListsAlike(vs: seq<Value>, xs: seq<Value>, ws: seq<Value>)
    requires |xs| == |vs| && multiset(xs) == multiset(ws)
    requires forall i :: 0 <= i < |xs| ==> Alike(vs[i], xs[i])
    ensures Alike(List(vs), List(ws))
  {
    hide Depth, Nodes, Chars, Allowed, Total;
    ListCosts(vs);
    ListCosts(xs);
    assert Mapped(vs, ElementCost) == Mapped(xs, ElementCost);
    ListCostsPermute(xs, ws);
    FromTotals(List(vs), List(ws));
  }

  lemma MapsAlike(vs: seq<Entry>, es: seq<Entry>, ws: seq<Entry>)
    requires |es| == |vs| && multiset(es) == multiset(ws)
    requires forall i :: 0 <= i < |es| ==> es[i].key == vs[i].key && Alike(vs[i].value, es[i].value)
    ensures Alike(Map(vs), Map(ws))
  {
    hide Depth, Nodes, Chars, Allowed, Total;
    MapCosts(vs);
    MapCosts(es);
    assert Mapped(vs, EntryCost) == Mapped(es, EntryCost);
    MapCostsPermute(es, ws);
    FromTotals(Map(vs), Map(ws));
  }

  /** Mapping a function over two arrangements of the same things gives two arrangements of the same results. */
  lemma {:induction false} MapPermutes<T>(xs: seq<T>, ys: seq<T>, cost: T -> Cost)
    requires multiset(xs) == multiset(ys)
    ensures multiset(Mapped(xs, cost)) == multiset(Mapped(ys, cost))
    decreases |xs|
  {
    if xs != [] {
      var k := TakeOut(xs, ys);
      var n, a, b := |xs| - 1, ys[..k], ys[k + 1..];
      MapPermutes(xs[..n], a + b, cost);
      assert Mapped(xs, cost) == Mapped(xs[..n], cost) + [cost(xs[n])];
      assert Mapped(a + b, cost) == Mapped(a, cost) + Mapped(b, cost);
      assert Mapped(ys, cost) == Mapped(a, cost) + [cost(ys[k])] + Mapped(b, cost);
    }
  }

  function Mapped<T>(xs: seq<T>, cost: T -> Cost): seq<Cost> {
    seq(|xs|, i requires 0 <= i < |xs| => cost(xs[i]))
  }

  function ElementCost(v: Value): Cost { Cost(Depth(v), Nodes(v), Chars(v), Allowed(v)) }

  function EntryCost(e: Entry): Cost {
    Cost(Depth(e.value), Nodes(e.value), |e.key| + Chars(e.value), |e.key| <= MAX_KEY && Allowed(e.value))
  }

  lemma ListCosts(xs: seq<Value>)
    ensures Costs(List(xs)) == Mapped(xs, ElementCost)
  {
    hide Depth, Nodes, Chars, Allowed;
    forall i | 0 <= i < |xs| ensures Costs(List(xs))[i] == Mapped(xs, ElementCost)[i] {
      assert CostOf(List(xs), i) == ElementCost(xs[i]);
      assert Mapped(xs, ElementCost)[i] == ElementCost(xs[i]);
    }
  }

  lemma MapCosts(es: seq<Entry>)
    ensures Costs(Map(es)) == Mapped(es, EntryCost)
  {
    hide Depth, Nodes, Chars, Allowed;
    forall i | 0 <= i < |es| ensures Costs(Map(es))[i] == Mapped(es, EntryCost)[i] {
      assert CostOf(Map(es), i) == EntryCost(es[i]);
      assert Mapped(es, EntryCost)[i] == EntryCost(es[i]);
    }
  }

  lemma ListCostsPermute(xs: seq<Value>, ys: seq<Value>)
    requires multiset(xs) == multiset(ys)
    ensures Total(Costs(List(xs))) == Total(Costs(List(ys)))
  {
    hide Depth, Nodes, Chars, Allowed, Total;
    MapPermutes(xs, ys, ElementCost);
    ListCosts(xs);
    ListCosts(ys);
    TotalOfMultiset(Costs(List(xs)), Costs(List(ys)));
  }

  lemma MapCostsPermute(xs: seq<Entry>, ys: seq<Entry>)
    requires multiset(xs) == multiset(ys)
    ensures Total(Costs(Map(xs))) == Total(Costs(Map(ys)))
  {
    hide Depth, Nodes, Chars, Allowed, Total;
    MapPermutes(xs, ys, EntryCost);
    MapCosts(xs);
    MapCosts(ys);
    TotalOfMultiset(Costs(Map(xs)), Costs(Map(ys)));
  }

  lemma FromTotals(v: Value, w: Value)
    requires (v.List? && w.List?) || (v.Map? && w.Map?)
    requires Total(Costs(v)) == Total(Costs(w))
    ensures Alike(v, w)
  {
    hide Total, NodesIn, CharsIn, Below;
    assert Costs(v)[..Arity(v)] == Costs(v) && Costs(w)[..Arity(w)] == Costs(w);
    TotalOfPrefix(v, Arity(v));
    TotalOfPrefix(w, Arity(w));
    Unfolded(v);
    Unfolded(w);
  }

  // ---- the checker ----

  /** The running totals of one check. `calls` and `deepest` record the work done. */
  class PayloadBudget {
    var nodes: nat
    var chars: nat
    ghost var calls: nat
    ghost var deepest: nat

    constructor ()
      ensures nodes == 0 && chars == 0 && calls == 0 && deepest == 0
    {
      nodes, chars, calls, deepest := 0, 0, 0, 0;
    }

    /** How far a check may have gone when it ends: an accepted value leaves exact totals; a
        refused one has overrun a total by at most one node or one string, in at most one call more than there are nodes. */
    ghost predicate Spent(ok: bool)
      reads this
    {
      if ok then nodes <= MAX_NODES && chars <= MAX_CHARS && calls == nodes
      else nodes <= MAX_NODES + 1 && chars <= MAX_CHARS + MAX_STRING
           && calls <= nodes + 1 && calls <= MAX_NODES + 1
    }
  }

  method CheckPayloadValue(v: Value, depth: nat, budget: PayloadBudget) returns (ok: bool)
    requires budget.Spent(true)
    modifies budget
    ensures ok <==> Fits(v, depth, old(budget.nodes), old(budget.chars))
    ensures ok ==> budget.nodes == old(budget.nodes) + Nodes(v) && budget.chars == old(budget.chars) + Chars(v)
    ensures budget.Spent(ok)
    ensures budget.deepest <= Max(old(budget.deepest), Max(depth, MAX_DEPTH + 1))
    decreases v
  {
    hide Nodes, Chars, Depth, Allowed, NodesIn, CharsIn, Below, Passed, Fits;
    budget.calls := budget.calls + 1;
    budget.deepest := Max(budget.deepest, depth);
    NoRoom(v, depth, old(budget.nodes), old(budget.chars));
    if depth > MAX_DEPTH {
      return false;
    }
    budget.nodes := budget.nodes + 1;
    if budget.nodes > MAX_NODES {
      return false;
    }
    ghost var nodes, chars := old(budget.nodes), old(budget.chars);
    if !v.List? && !v.Map? {
      LeafFits(v, depth, nodes, chars);
    }
    match v {
      case Absent => return true;
      case Bool(_) => return true;
      case Integer(n) => return -MAX_INTEGER <= n <= MAX_INTEGER;
      case Number(d) => return d.Finite?;
      case Text(s) =>
        if |s| > MAX_STRING {
          return false;
        }
        budget.chars := budget.chars + |s|;
        return budget.chars <= MAX_CHARS;
      case List(elements) =>
        Unpassed(v, depth, nodes, chars);
        for i := 0 to |elements|
          invariant budget.Spent(true)
          invariant budget.deepest <= Max(old(budget.deepest), Max(depth, MAX_DEPTH + 1))
          invariant Passed(v, i, depth, nodes, chars, budget.nodes, budget.chars)
        {
          ghost var nodesNow, charsNow := budget.nodes, budget.chars;
          var fine := CheckPayloadValue(elements[i], depth + 1, budget);
          if !fine {
            ChildSinks(v, i, depth, nodes, chars, nodesNow, charsNow);
            return false;
          }
          PassedNext(v, i, depth, nodes, chars, nodesNow, charsNow);
        }
        PassedAll(v, depth, nodes, chars, budget.nodes, budget.chars);
        return true;
      case Map(entries) =>
        Unpassed(v, depth, nodes, chars);
        for i := 0 to |entries|
          invariant budget.Spent(true)
          invariant budget.deepest <= Max(old(budget.deepest), Max(depth, MAX_DEPTH + 1))
          invariant Passed(v, i, depth, nodes, chars, budget.nodes, budget.chars)
        {
          ghost var nodesNow, charsNow := budget.nodes, budget.chars;
          if |entries[i].key| > MAX_KEY {
            ChildSinks(v, i, depth, nodes, chars, nodesNow, charsNow);
            return false;
          }
          budget.chars := budget.chars + |entries[i].key|;
          if budget.chars > MAX_CHARS {
            ChildSinks(v, i, depth, nodes, chars, nodesNow, charsNow);
            return false;
          }
          var fine := CheckPayloadValue(entries[i].value, depth + 1, budget);
          if !fine {
            ChildSinks(v, i, depth, nodes, chars, nodesNow, charsNow);
            return false;
          }
          PassedNext(v, i, depth, nodes, chars, nodesNow, charsNow);
        }
        PassedAll(v, depth, nodes, chars, budget.nodes, budget.chars);
        return true;
      case Foreign => return false;
    }
  }

  /** The entry point decides the rules. Whatever it is given, the work is bounded: at most 1001 calls, at most
      9 deep, and counters that stay far inside a machine word. */
  method IsCanonicalValue(v: Value) returns (ok: bool, ghost budget: PayloadBudget)
    ensures ok <==> Canonical(v)
    ensures fresh(budget) && budget.calls <= MAX_NODES + 1 && budget.deepest <= MAX_DEPTH + 1
    ensures budget.nodes <= MAX_NODES + 1 && budget.chars <= MAX_CHARS + MAX_STRING
  {
    var b := new PayloadBudget();
    ok := CheckPayloadValue(v, 1, b);
    budget := b;
  }

  method IsCanonicalPayload(params: seq<Entry>) returns (ok: bool)
    ensures ok <==> Canonical(Map(params))
  {
    ghost var budget;
    ok, budget := IsCanonicalValue(Map(params));
  }
}
