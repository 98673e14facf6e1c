/** The window's view model and the "replace C objects" button handler.
    The subscription library that relays every descendant's PropertyChanged
    to the view model is not modelled: whoever observes an item's or a
    child's event calls `HandlePropertyChanged` with its property name. */
module NestedClassesDemo {
  import opened DotNet
  import opened Text
  import opened Aggregate
  import opened Classes

  /** The view model's `static int _autoIncrement = 1`, held as an object
      so that successive constructions share it. */
  class AutoIncrement {
    var value: int32

    constructor ()
      ensures value == 1
    {
      value := 1;
    }

    /** `_autoIncrement++`: yields the current value, then wraps to the next. */
    method Next() returns (n: int32)
      modifies this
      ensures n == old(value) && value == Increment(n)
    {
      n := value;
      value := Increment(value);
    }
  }

  /** `C?.Cost ?? 0`: a missing child counts as zero. */
  function CostOf(c: ClassC?): (r: int32)
    reads c
  {
    if c == null then 0 else c.cost
  }

  /** The children currently held by `items`. */
  function Children(items: seq<ClassB>): (r: set<ClassC>)
    reads items
  {
    set i | 0 <= i < |items| && items[i].c != null :: items[i].c
  }

  /** The summand of every item, in collection order. */
  function ChildCosts(items: seq<ClassB>): (r: seq<int32>)
    reads items, Children(items)
    ensures |r| == |items|
    ensures forall i :: 0 <= i < |items| ==> r[i] == CostOf(items[i].c)
    decreases |items|
  {
    if items == [] then [] else [CostOf(items[0].c)] + ChildCosts(items[1..])
  }

  /** The summands are determined item by item. */
  lemma SummandsAre(items: seq<ClassB>, costs: seq<int32>)
    requires |costs| == |items| && forall i :: 0 <= i < |items| ==> costs[i] == CostOf(items[i].c)
    ensures ChildCosts(items) == costs
  {
  }

  /** The name given to the n-th constructed child. */
  function ItemName(n: int32): (r: string) {
    "Item C" + Decimal(n)
  }

  /** Distinct counter values name the children apart. */
  lemma ItemNamesDistinct(n: int32, m: int32)
    requires n != m
    ensures ItemName(n) != ItemName(m)
  {
    if ItemName(n) == ItemName(m) {
      assert Decimal(n) == ItemName(n)[6..];
      assert Decimal(m) == ItemName(m)[6..];
      DecimalRoundTrip(n);
      DecimalRoundTrip(m);
    }
  }

  /** The name the replace handler gives to the successor of `previous`. */
  function ReplacementName(previous: ClassC?): (r: string)
    reads previous
  {
    if previous == null then "Error" else ReplaceAll(previous.name, "Item C", "Replace C")
  }

  /** A child built by the replace handler from a constructor-named child
      is named "Replace C" followed by the same counter value. */
  lemma RenamedItemName(n: int32)
    ensures ReplaceAll(ItemName(n), "Item C", "Replace C") == "Replace C" + Decimal(n)
  {
    ReplaceAllLeading("Item C", "Replace C", Decimal(n));
    ReplaceAllWithoutMatch(Decimal(n), "Item C", "Replace C");
  }

  /** `new ClassB { C = new ClassC { Name = name } }`: both object
      initialisers run their setters before anything subscribes. */
  method NewItem(name: string) returns (b: ClassB)
    ensures fresh(b) && b.c != null && fresh(b.c)
    ensures b.c.name == name && b.c.cost == 0 && b.c.currency == 0
    ensures b.c.notifications == if name == "" then [] else [Notification(b.c, "Name")]
    ensures b.notifications == [Notification(b, "C")]
  {
    var c := new ClassC();
    c.SetName(name);
    b := new ClassB();
    b.SetC(c);
  }

  class MainWindowViewModel {
    /** `BCollection`, fixed at construction. */
    const items: seq<ClassB>
    /** The backing field `_sumOfBCost`. */
    var sumOfBCost: int32
    var notifications: seq<Notification>
    /** The collection holds the constructor's three distinct items. */
    predicate Valid() {
      |items| == 3 && items[0] != items[1] && items[0] != items[2] && items[1] != items[2]
    }

    /** Builds three items whose children are named after three successive
        counter values; no handler runs, so the sum stays at its default. */
    constructor (counter: AutoIncrement)
      modifies counter
      ensures Valid() && |items| == 3
      ensures forall i :: 0 <= i < 3 ==> fresh(items[i]) && items[i].c != null && fresh(items[i].c)
      ensures items[0].c != items[1].c && items[1].c != items[2].c && items[0].c != items[2].c
      ensures items[0].c.name == ItemName(old(counter.value))
      ensures items[1].c.name == ItemName(Increment(old(counter.value)))
      ensures items[2].c.name == ItemName(Increment(Increment(old(counter.value))))
      ensures forall i :: 0 <= i < 3 ==> items[i].c.cost == 0 && items[i].c.currency == 0
      ensures forall i :: 0 <= i < 3 ==> items[i].notifications == [Notification(items[i], "C")]
      ensures forall i :: 0 <= i < 3 ==> items[i].c.notifications == [Notification(items[i].c, "Name")]
      ensures counter.value == Increment(Increment(Increment(old(counter.value))))
      ensures sumOfBCost == 0 && notifications == []
    {
      var n0 := counter.Next();
      var b0 := NewItem(ItemName(n0));
      var n1 := counter.Next();
      var b1 := NewItem(ItemName(n1));
      var n2 := counter.Next();
      var b2 := NewItem(ItemName(n2));
      items := [b0, b1, b2];
      sumOfBCost := 0;
      notifications := [];
    }

    /** Raises the view model's own PropertyChanged. */
    method OnPropertyChanged(propertyName: string)
      modifies this`notifications
      ensures notifications == old(notifications) + [Notification(this, propertyName)]
    {
      notifications := notifications + [Notification(this, propertyName)];
    }

    /** The `SumOfBCost` setter. */
    method SetSumOfBCost(value: int32)
      modifies this`sumOfBCost, this`notifications
      ensures sumOfBCost == value
      ensures notifications == old(notifications)
        + if old(sumOfBCost) == value then [] else [Notification(this, "SumOfBCost")]
    {
      if sumOfBCost != value {
        sumOfBCost := value;
        OnPropertyChanged("SumOfBCost");
      }
    }

    /** The handler given to the relay: a "Cost" or "C" change recomputes the
        sum of the children's costs; any other name is ignored. `overflowed`
        stands for the OverflowException the checked sum throws, which leaves
        the stored sum as it was. */
    method HandlePropertyChanged(sender: object, propertyName: string) returns (overflowed: bool)
      modifies this`sumOfBCost, this`notifications
      ensures var sum := CheckedSum(ChildCosts(items));
        if (propertyName == "Cost" || propertyName == "C") && sum.Some? then
          !overflowed && sumOfBCost == sum.value
          && notifications == old(notifications)
            + if old(sumOfBCost) == sum.value then [] else [Notification(this, "SumOfBCost")]
        else
          overflowed == (propertyName == "Cost" || propertyName == "C")
          && sumOfBCost == old(sumOfBCost) && notifications == old(notifications)
    {
      overflowed := false;
      if propertyName == "Cost" || propertyName == "C" {
        var sum := CheckedSum(ChildCosts(items));
        if sum.Some? {
          SetSumOfBCost(sum.value);
          assert unchanged(items) && unchanged(Children(items));
          assert sum == CheckedSum(ChildCosts(items));
        } else {
          overflowed := true;
        }
      }
    }
  }

  /** The name every item's next child gets from the replace handler. */
  function ReplacementNames(items: seq<ClassB>): (r: seq<string>)
    reads items, Children(items)
    ensures |r| == |items|
    ensures forall i :: 0 <= i < |items| ==> r[i] == ReplacementName(items[i].c)
    decreases |items|
  {
    if items == [] then [] else [ReplacementName(items[0].c)] + ReplacementNames(items[1..])
  }

  /** The child every item holds. */
  ghost function ItemChildren(items: seq<ClassB>): (r: seq<ClassC?>)
    reads items
    ensures |r| == |items|
    ensures forall i :: 0 <= i < |items| ==> r[i] == items[i].c
    decreases |items|
  {
    if items == [] then [] else [items[0].c] + ItemChildren(items[1..])
  }

  /** The event log of every item. */
  ghost function ItemLogs(items: seq<ClassB>): (r: seq<seq<Notification>>)
    reads items
    ensures |r| == |items|
    ensures forall i :: 0 <= i < |items| ==> r[i] == items[i].notifications
    decreases |items|
  {
    if items == [] then [] else [items[0].notifications] + ItemLogs(items[1..])
  }

  /** What the replace handler's loop starts from: per item the name of its
      next child, its event log, its child and that child's cost, and the
      view model's log. */
  datatype Snapshot = Snapshot(names: seq<string>, logs: seq<seq<Notification>>,
                               children: seq<ClassC?>, costs: seq<int32>, log: seq<Notification>)

  /** `b` holds a child named `name` with a zero cost and currency, and `b`
      has raised one "C" event since its log was `log`. */
  predicate HoldsNewChild(b: ClassB, name: string, log: seq<Notification>)
    reads b, b.c
  {
    b.c != null && b.c.name == name && b.c.cost == 0 && b.c.currency == 0
    && b.notifications == log + [Notification(b, "C")]
  }

  /** `n` "SumOfBCost" events of `vm`. */
  function SumEvents(vm: MainWindowViewModel, n: nat): (r: seq<Notification>)
    ensures |r| == n
    ensures forall k :: 0 <= k < n ==> r[k] == Notification(vm, "SumOfBCost")
  {
    if n == 0 then [] else SumEvents(vm, n - 1) + [Notification(vm, "SumOfBCost")]
  }

  /** The state of the replace handler's loop after `done` items: each of
      them holds its new child, recorded in `slot` at the item's position
      (so these children are pairwise distinct), and the items still to come
      are as in the snapshot `s`; the view model has raised `raised`
      "SumOfBCost" events since. */
  ghost predicate Progress(vm: MainWindowViewModel, s: Snapshot, done: nat, slot: map<ClassC, nat>, raised: nat)
    reads vm, vm.items, slot.Keys, s.children
  {
    done <= |vm.items| == |s.names| == |s.logs| == |s.children|
    && (forall j :: 0 <= j < done ==>
          vm.items[j].c in slot && slot[vm.items[j].c] == j
          && HoldsNewChild(vm.items[j], s.names[j], s.logs[j]))
    && (forall j :: done <= j < |vm.items| ==>
          vm.items[j].c == s.children[j] && vm.items[j].notifications == s.logs[j]
          && s.names[j] == ReplacementName(s.children[j]))
    && raised <= done && vm.notifications == s.log + SumEvents(vm, raised)
  }

  /** `b.C = new ClassC { Name = name }`: the object initialiser sets the new
      child's name before the assignment, so the child raises "Name" (unless
      the name is the initial "") and then `b` raises "C". */
  method SwapChild(b: ClassB, name: string) returns (c: ClassC)
    modifies b
    ensures fresh(c) && b.c == c && c.name == name && c.cost == 0 && c.currency == 0
    ensures c.notifications == if name == "" then [] else [Notification(c, "Name")]
    ensures b.notifications == old(b.notifications) + [Notification(b, "C")]
  {
    c := new ClassC();
    c.SetName(name);
    b.SetC(c);
  }

  /** The loop body of the "replace C objects" button,
      `classB.C = new ClassC { Name = classB.C?.Name?.Replace(...) ?? "Error" }`,
      and the relay of the "C" event it raises (the new child is a fresh
      reference, so the event is always raised). */
  method ReplaceChild(vm: MainWindowViewModel, k: nat) returns (overflowed: bool)
    requires vm.Valid() && k < |vm.items|
    modifies vm.items[k], vm`sumOfBCost, vm`notifications
    ensures var b := vm.items[k];
      HoldsNewChild(b, old(ReplacementName(b.c)), old(b.notifications)) && fresh(b.c)
    ensures var c := vm.items[k].c;
      c.notifications == if c.name == "" then [] else [Notification(c, "Name")]
    ensures forall j :: 0 <= j < |vm.items| && j != k ==>
      unchanged(vm.items[j]) && (vm.items[j].c != null ==> unchanged(vm.items[j].c))
    ensures ChildCosts(vm.items) == old(ChildCosts(vm.items))[k := 0]
    ensures overflowed <==> CheckedSum(ChildCosts(vm.items)) == None
    ensures overflowed ==> vm.sumOfBCost == old(vm.sumOfBCost) && vm.notifications == old(vm.notifications)
    ensures !overflowed ==> CheckedSum(ChildCosts(vm.items)) == Some(vm.sumOfBCost)
    ensures !overflowed ==>
      vm.notifications == old(vm.notifications)
        + (if old(vm.sumOfBCost) == vm.sumOfBCost then [] else [Notification(vm, "SumOfBCost")])
  {
    var b := vm.items[k];
    var c := SwapChild(b, ReplacementName(b.c));
    SummandsAre(vm.items, old(ChildCosts(vm.items))[k := 0]);
    label swapped:
    overflowed := vm.HandlePropertyChanged(b, "C");
    assert unchanged@swapped(b, c);
  }

  /** One iteration of the replace handler's loop: `ReplaceChild` on item
      `k`, advancing the loop state. Only the first iteration can overflow,
      exactly when the starting costs with the first one zeroed do: from the
      second on, all summands but the last are zero, and one summand alone
      always fits. */
  method ReplaceNext(vm: MainWindowViewModel, ghost s: Snapshot, ghost slot: map<ClassC, nat>, ghost raised: nat, k: nat)
    returns (overflowed: bool, ghost slot': map<ClassC, nat>, ghost raised': nat)
    requires vm.Valid() && k < |vm.items| && Progress(vm, s, k, slot, raised)
    requires k == 0 ==> ChildCosts(vm.items) == s.costs
    modifies vm.items[k], vm`sumOfBCost, vm`notifications
    ensures vm.items[k].c != null && fresh(vm.items[k].c) && slot' == slot[vm.items[k].c := k]
    ensures Progress(vm, s, k + 1, slot', raised')
    ensures overflowed <==> CheckedSum(ChildCosts(vm.items)) == None
    ensures overflowed <==> k == 0 && CheckedSum(s.costs[0 := 0]) == None
    ensures k + 1 == |vm.items| ==> !overflowed && vm.sumOfBCost == 0
  {
    ghost var sum := vm.sumOfBCost;
    ghost var first := CostOf(vm.items[0].c);
    overflowed := ReplaceChild(vm, k);
    ghost var changed := !overflowed && sum != vm.sumOfBCost;
    slot' := slot[vm.items[k].c := k];
    raised' := if changed then raised + 1 else raised;
    if k == 1 {
      assert first == 0;
      CheckedSumOfOne(ChildCosts(vm.items), 2);
    } else if k + 1 == |vm.items| {
      AllReplacedSumToZero(vm, s, k + 1, slot', raised');
    }
  }

  /** Every event appended to `log` after the entries of `before` is a
      "SumOfBCost" change of `vm`, and at most `bound` were appended. */
  predicate OnlySumChanges(vm: MainWindowViewModel, log: seq<Notification>, before: seq<Notification>, bound: nat) {
    |before| <= |log| <= |before| + bound
    && log[..|before|] == before
    && forall k :: |before| <= k < |log| ==> log[k] == Notification(vm, "SumOfBCost")
  }

  /** At most `bound` "SumOfBCost" events appended to a log are only such
      events. */
  lemma SumEventsOnly(vm: MainWindowViewModel, log: seq<Notification>, n: nat, bound: nat)
    requires n <= bound
    ensures OnlySumChanges(vm, log + SumEvents(vm, n), log, bound)
  {
  }

  /** The "replace C objects" button: every item in turn gets a fresh child
      whose name is rewritten from its previous child's ("Error" when there
      was none). Each item raises "C", which the relay passes to the view
      model. That recomputation overflows only for the first item, exactly
      when the previous costs with the first one zeroed overflow; the
      exception then leaves the loop, and the other items are untouched. */
  method OnTestReplaceCObjects(vm: MainWindowViewModel) returns (overflowed: bool, replaced: nat)
    requires vm.Valid()
    modifies vm`sumOfBCost, vm`notifications, vm.items
    ensures replaced <= |vm.items|
    ensures overflowed ==> replaced == 1
    ensures !overflowed ==> replaced == |vm.items|
    ensures overflowed <==> CheckedSum(ChildCosts(vm.items)) == None
    ensures overflowed <==> CheckedSum(old(ChildCosts(vm.items))[0 := 0]) == None
    ensures forall j :: 0 <= j < replaced ==>
      HoldsNewChild(vm.items[j], old(ReplacementNames(vm.items))[j], old(vm.items[j].notifications))
      && fresh(vm.items[j].c)
    ensures forall i, j :: 0 <= i < j < replaced ==> vm.items[i].c != vm.items[j].c
    ensures forall j :: replaced <= j < |vm.items| ==>
      vm.items[j].c == old(vm.items[j].c) && vm.items[j].notifications == old(vm.items[j].notifications)
    ensures !overflowed && |vm.items| > 0 ==> vm.sumOfBCost == 0
    ensures OnlySumChanges(vm, vm.notifications, old(vm.notifications), replaced)
  {
    ghost var s := Snapshot(ReplacementNames(vm.items), ItemLogs(vm.items), ItemChildren(vm.items),
                            ChildCosts(vm.items), vm.notifications);
    ghost var slot: map<ClassC, nat>, raised := map[], 0;
    overflowed, replaced := false, 0;
    while replaced < |vm.items| && !overflowed
      invariant replaced <= |vm.items|
      invariant replaced == 0 ==> ChildCosts(vm.items) == s.costs
      invariant overflowed ==> replaced == 1
      invariant 0 < replaced ==> (overflowed <==> CheckedSum(ChildCosts(vm.items)) == None)
      invariant 0 < replaced ==> (overflowed <==> CheckedSum(s.costs[0 := 0]) == None)
      invariant Progress(vm, s, replaced, slot, raised)
      invariant fresh(slot.Keys)
      invariant 0 < replaced == |vm.items| ==> vm.sumOfBCost == 0
      decreases |vm.items| - replaced
    {
      overflowed, slot, raised := ReplaceNext(vm, s, slot, raised, replaced);
      replaced := replaced + 1;
    }
    SumEventsOnly(vm, old(vm.notifications), raised, replaced);
  }

  /** Once every item holds a new zero-cost child, the sum is zero. */
  lemma AllReplacedSumToZero(vm: MainWindowViewModel, s: Snapshot, done: nat, slot: map<ClassC, nat>, raised: nat)
    requires Progress(vm, s, done, slot, raised) && done == |vm.items|
    ensures CheckedSum(ChildCosts(vm.items)) == Some(0)
  {
    CheckedSumOfZeros(ChildCosts(vm.items));
  }

  /** What the "replace C objects" button is for, assuming the relay also
      passes on the new children's events: after a replace that does not
      overflow, editing the cost of any one new child cannot overflow and
      sets `SumOfBCost` to exactly that cost. */
  method ReplaceThenEditCost(vm: MainWindowViewModel, i: nat, value: int32) returns (overflowed: bool)
    requires vm.Valid() && i < |vm.items|
    modifies vm`sumOfBCost, vm`notifications, vm.items
    ensures overflowed <==> CheckedSum(old(ChildCosts(vm.items))[0 := 0]) == None
    ensures (forall j :: 0 <= j < |vm.items| ==> old(CostOf(vm.items[j].c)) == 0) ==> !overflowed
    ensures !overflowed ==> vm.items[i].c != null && vm.items[i].c.cost == value && vm.sumOfBCost == value
  {
    if forall j :: 0 <= j < |vm.items| ==> CostOf(vm.items[j].c) == 0 {
      CheckedSumOfZeros(ChildCosts(vm.items)[0 := 0]);
    }
    var replaced;
    overflowed, replaced := OnTestReplaceCObjects(vm);
    if !overflowed {
      ghost var costs := ChildCosts(vm.items);
      CheckedSumOfOne(costs[i := value], i);
      var edited := EditChildCost(vm, i, value);
      assert !edited;
    }
  }

  /** Item `i` is the only item holding its child. */
  predicate HeldOnlyAt(items: seq<ClassB>, i: nat)
    reads items
  {
    i < |items| && forall j :: 0 <= j < |items| && j != i ==> items[j].c != items[i].c
  }

  /** A user edit of one child's Cost, followed by the relay of whatever the
      setter raised. The handler recomputes the sum from scratch, so after
      any change of cost the stored sum is current again (or the sum
      overflows and nothing changes). With the stored sum current beforehand
      and the child held by exactly one item, the sum moves by exactly the
      change made. Assigning the current cost raises nothing and leaves the
      view model as it was. */
  method EditChildCost(vm: MainWindowViewModel, i: nat, value: int32) returns (overflowed: bool)
    requires i < |vm.items| && vm.items[i].c != null
    modifies vm.items[i].c`cost, vm.items[i].c`notifications, vm`sumOfBCost, vm`notifications
    ensures vm.items[i].c.cost == value
    ensures vm.items[i].c.name == old(vm.items[i].c.name) && vm.items[i].c.currency == old(vm.items[i].c.currency)
    ensures vm.items[i].c.notifications == old(vm.items[i].c.notifications)
      + if old(vm.items[i].c.cost) == value then [] else [Notification(vm.items[i].c, "Cost")]
    ensures HeldOnlyAt(vm.items, i) ==> ChildCosts(vm.items) == old(ChildCosts(vm.items))[i := value]
    ensures old(vm.items[i].c.cost) == value ==>
      !overflowed && unchanged(vm) && ChildCosts(vm.items) == old(ChildCosts(vm.items))
    ensures overflowed <==> old(vm.items[i].c.cost) != value && CheckedSum(ChildCosts(vm.items)) == None
    ensures overflowed ==> vm.sumOfBCost == old(vm.sumOfBCost) && vm.notifications == old(vm.notifications)
    ensures old(vm.items[i].c.cost) != value && !overflowed ==>
      CheckedSum(ChildCosts(vm.items)) == Some(vm.sumOfBCost)
    ensures (!overflowed && HeldOnlyAt(vm.items, i)
             && old(CheckedSum(ChildCosts(vm.items))) == Some(old(vm.sumOfBCost))) ==>
      vm.sumOfBCost == old(vm.sumOfBCost) + value - old(vm.items[i].c.cost)
    ensures !overflowed ==>
      vm.notifications == old(vm.notifications)
        + (if old(vm.sumOfBCost) == vm.sumOfBCost then [] else [Notification(vm, "SumOfBCost")])
  {
    var c := vm.items[i].c;
    var before := |c.notifications|;
    ghost var costs := ChildCosts(vm.items);
    c.SetCost(value);
    if HeldOnlyAt(vm.items, i) {
      assert ChildCosts(vm.items) == costs[i := value];
    }
    overflowed := false;
    if |c.notifications| == before {
      assert |old(c.notifications) + [Notification(c, "Cost")]| != before;
      assert c.cost == old(c.cost) && c.notifications == old(c.notifications);
      assert unchanged(c);
      assert ChildCosts(vm.items) == costs;
    } else {
      assert c.notifications[before].propertyName == "Cost";
      ghost var updated := ChildCosts(vm.items);
      label raised:
      overflowed := vm.HandlePropertyChanged(c, c.notifications[before].propertyName);
      assert unchanged@raised(vm.items) && unchanged@raised(Children(vm.items));
      assert ChildCosts(vm.items) == updated;
      if !overflowed && HeldOnlyAt(vm.items, i) && CheckedSum(costs).Some? {
        CheckedSumUpdate(costs, i, value);
      }
    }
  }
}
