# Nested observable classes: a Dafny model

This project models the demo core of `wpf-nested-observable`. Two
observable entities are involved. `ClassC` is a leaf with `Name`, `Cost` and
`Currency`. `ClassB` holds an optional `ClassC` child in its property `C`.
A window view model keeps three `ClassB` items and recomputes `SumOfBCost`,
the sum of the children's costs, whenever a relayed change notification
names `Cost` or `C`. A button replaces every item's child with a fresh,
renamed one.

Every property setter compares the new value with the current one
(`ClassC` references are compared by identity, strings and integers by
value). An equal value changes nothing. A different value is stored, and
then exactly one PropertyChanged event is raised, naming the property and
carrying the object itself as sender. In the model, each object keeps the
events it raised, in order, in a `notifications` log of
`Notification(sender, propertyName)` values.

Files and modules:

- `dotnet.dfy`, module `DotNet`: C#'s 32-bit `int`, the unchecked `++`
  (which wraps), `Option`, and the `Notification` value.
- `text.dfy`, module `Text`: formatting an `int` in an interpolated string,
  and `string.Replace` (ordinal, left to right, non-overlapping).
- `aggregate.dfy`, module `Aggregate`: `Enumerable.Sum` over `int`. LINQ adds
  in a `checked` context, so the first partial sum that leaves the 32-bit
  range throws `OverflowException`, modelled as `None`.
- `classes.dfy`, module `Classes`: `ClassC` and `ClassB` as Dafny classes
  whose setters are methods over their mutable backing fields.
- `main_window.dfy`, module `NestedClassesDemo`: the `_autoIncrement`
  counter, `MainWindowViewModel` and the replace-children button handler.

The subscription library (`WithNotifyOnDescendants`) relays every
descendant's event to the view model's handler. It is a foreign library,
so the model represents it only by its effect. Whoever observes a raised
event calls `HandlePropertyChanged` with the event's property name.
`EditChildCost` does this for the "Cost" event its setter raises. The button
handler does it for each item's "C" event, but not for the new child's
"Name" event: the object initialiser raises that event before the child is
assigned to the item, when nothing observes the child yet. An `OverflowException` thrown by the handler's `Sum` is assumed to
reach the setter's caller. In the button handler, it therefore ends the
loop.

LINQ's `Sum` over `int` adds in a checked context, so the model follows it:
a sum that overflows leaves `SumOfBCost` unchanged, and the handler reports
the exception.

## Model

| member | source | states |
|---|---|---|
| `Classes.ClassC.constructor` | NestedClassesDemo/Classes/ClassC.cs:20-47 | A fresh `ClassC` has `Name` "", `Cost` 0, `Currency` 0 and has raised nothing |
| `Classes.ClassC.OnPropertyChanged` | NestedClassesDemo/Classes/ClassC.cs:48-49 | Raising appends one event whose sender is the object itself and whose name is the given property |
| `Classes.ClassC.SetName` | NestedClassesDemo/Classes/ClassC.cs:11-18 | `Name` becomes the value; an equal value raises nothing, a different one raises exactly one "Name" event; `Cost` and `Currency` are unchanged |
| `Classes.ClassC.SetCost` | NestedClassesDemo/Classes/ClassC.cs:25-32 | `Cost` becomes the value; only a different value raises, exactly one "Cost" event; `Name` and `Currency` are unchanged |
| `Classes.ClassC.SetCurrency` | NestedClassesDemo/Classes/ClassC.cs:38-45 | `Currency` becomes the value; only a different value raises, exactly one "Currency" event; `Name` and `Cost` are unchanged |
| `Classes.AssignTwice` | NestedClassesDemo/Classes/ClassC.cs:11-45 | Assigning each property the same value twice leaves the state the first assignment made and raises at most one event per property |
| `Classes.ClassB.constructor` | NestedClassesDemo/Classes/ClassB.cs:24 | A fresh `ClassB` has no child and has raised nothing |
| `Classes.ClassB.OnPropertyChanged` | NestedClassesDemo/Classes/ClassB.cs:26-27 | The sender of every event is the `ClassB` itself, not its child |
| `Classes.ClassB.SetC` | NestedClassesDemo/Classes/ClassB.cs:12-23 | The getter returns the assigned reference (possibly null); the same reference raises nothing, any other reference raises exactly one "C" event; neither the previous nor the new child is modified |
| `DotNet.Increment` | NestedClassesDemo/MainWindow.xaml.cs:43 | `++` on an `int` yields the successor modulo 2^32, and a true successor below `int.MaxValue` |
| `NestedClassesDemo.AutoIncrement.constructor` | NestedClassesDemo/MainWindow.xaml.cs:63 | The counter starts at 1 |
| `NestedClassesDemo.AutoIncrement.Next` | NestedClassesDemo/MainWindow.xaml.cs:43-45 | `_autoIncrement++` yields the current value and advances the counter, wrapping at `int.MaxValue` |
| `Text.Digits` | NestedClassesDemo/MainWindow.xaml.cs:43 | A natural number is written as a non-empty string of decimal digits with no leading zero |
| `Text.Decimal` | NestedClassesDemo/MainWindow.xaml.cs:43 | An `int` is written as digits, with a leading '-' exactly when it is negative |
| `Text.DecimalRoundTrip` | NestedClassesDemo/MainWindow.xaml.cs:43 | Reading back the formatted number gives the number |
| `NestedClassesDemo.ItemName` | NestedClassesDemo/MainWindow.xaml.cs:43 | The interpolated name of a constructed child: "Item C" followed by the counter value in decimal. It has no contract of its own; `ItemNamesDistinct` and `RenamedItemName` state its properties |
| `NestedClassesDemo.ItemNamesDistinct` | NestedClassesDemo/MainWindow.xaml.cs:43-45 | Distinct counter values give distinct child names |
| `NestedClassesDemo.NewItem` | NestedClassesDemo/MainWindow.xaml.cs:43 | The object initialisers yield a fresh `ClassB` holding a fresh child with the given name, cost 0 and currency 0; the item has raised one "C" event and the child one "Name" event unless the name is "" |
| `NestedClassesDemo.MainWindowViewModel.constructor` | NestedClassesDemo/MainWindow.xaml.cs:39-47 | Exactly three distinct items, each with its own fresh child named "Item C" + n for three successive counter values, cost 0 and currency 0; each item has raised one "C" event and each child one "Name" event; the counter advances three times; `SumOfBCost` is 0 and the view model has raised nothing |
| `NestedClassesDemo.CostOf` | NestedClassesDemo/MainWindow.xaml.cs:56 | The summand of one item: the child's `Cost`, or 0 when the item has no child. It has no contract of its own; `ChildCosts` states it per item |
| `NestedClassesDemo.ChildCosts` | NestedClassesDemo/MainWindow.xaml.cs:56 | One summand per item, in collection order: the child's `Cost`, or 0 for a missing child |
| `Aggregate.SumFrom` | NestedClassesDemo/MainWindow.xaml.cs:56 | Checked accumulation, left to right from a start value: `None` as soon as a partial sum leaves the `int` range. It has no contract of its own; `SumFromMeaning` states it against the unbounded total |
| `Aggregate.CheckedSum` | NestedClassesDemo/MainWindow.xaml.cs:56 | `Enumerable.Sum` over `int`: the checked accumulation from 0, with `None` for the `OverflowException`. It has no contract of its own; `CheckedSumMeaning` states what it computes |
| `Aggregate.CheckedSumMeaning` | NestedClassesDemo/MainWindow.xaml.cs:56 | The checked `Sum` is the arithmetic total exactly when every partial sum fits in an `int`, and throws otherwise |
| `Aggregate.CheckedSumOverflows` | NestedClassesDemo/MainWindow.xaml.cs:56 | A total outside the `int` range always throws |
| `Aggregate.TotalUpdate` | NestedClassesDemo/MainWindow.xaml.cs:56 | Changing one summand from a to b changes the total by b - a |
| `Aggregate.CheckedSumUpdate` | NestedClassesDemo/MainWindow.xaml.cs:54-56 | When neither sum throws, changing one summand from a to b changes the checked sum by b - a |
| `Aggregate.CheckedSumOfZeros` | NestedClassesDemo/MainWindow.xaml.cs:56 | Summands that are all zero sum to 0 without throwing |
| `Aggregate.CheckedSumOfOne` | NestedClassesDemo/MainWindow.xaml.cs:56 | Summands that are zero everywhere but at one position sum to the summand there without throwing |
| `NestedClassesDemo.MainWindowViewModel.OnPropertyChanged` | NestedClassesDemo/MainWindow.xaml.cs:78-79 | The view model's own events carry the view model as sender |
| `NestedClassesDemo.MainWindowViewModel.SetSumOfBCost` | NestedClassesDemo/MainWindow.xaml.cs:65-77 | An equal value raises nothing; a different one is stored and raises exactly one "SumOfBCost" event |
| `NestedClassesDemo.MainWindowViewModel.HandlePropertyChanged` | NestedClassesDemo/MainWindow.xaml.cs:50-61 | "Cost" and "C" set `SumOfBCost` to the checked sum of the children's costs (or report the overflow and change nothing); every other name changes nothing |
| `NestedClassesDemo.EditChildCost` | NestedClassesDemo/MainWindow.xaml.cs:54-56 | From any state, setting a child's `Cost` from a to b changes only that cost (name and currency stay), and the child raises one "Cost" event exactly when a differs from b. The relayed handler recomputes from scratch. It throws exactly when a differs from b and the children's new checked sum overflows, and then changes nothing. Otherwise, after a change, `SumOfBCost` is the checked sum of the children's costs, even if it was stale before, and the view model raises one "SumOfBCost" event exactly when the sum changed. If only item i holds the child, the costs change only at i; if the sum was also current before, it moves by exactly b - a. Setting the current cost changes neither the view model nor the costs |
| `Text.ReplaceAll` | NestedClassesDemo/MainWindow.xaml.cs:32 | `string.Replace` with ordinal comparison: every non-overlapping occurrence of a non-empty pattern, scanning left to right, is replaced. It has no contract of its own; the lemmas below state its laws |
| `Text.ReplaceAllWithoutMatch` | NestedClassesDemo/MainWindow.xaml.cs:32 | `Replace` leaves a string without the pattern's first character as it is |
| `Text.ReplaceAllSelf` | NestedClassesDemo/MainWindow.xaml.cs:32 | Replacing a pattern by itself changes nothing |
| `NestedClassesDemo.RenamedItemName` | NestedClassesDemo/MainWindow.xaml.cs:32 | A child named "Item C" + n by the constructor is succeeded by one named "Replace C" + n |
| `NestedClassesDemo.ReplacementName` | NestedClassesDemo/MainWindow.xaml.cs:32 | The name of an item's next child: "Error" when the item has no child, otherwise the child's name with every "Item C" replaced by "Replace C". It has no contract of its own; `RenamedItemName` states its effect on the constructor's names |
| `NestedClassesDemo.ReplacementNames` | NestedClassesDemo/MainWindow.xaml.cs:32 | One new name per item: the old child's name rewritten, or "Error" when the item had no child |
| `NestedClassesDemo.SwapChild` | NestedClassesDemo/MainWindow.xaml.cs:32 | `b.C = new ClassC { Name = name }` leaves `b` holding a fresh child with that name, cost 0 and currency 0; the child raised "Name" unless the name is "", and `b` appended exactly one "C" event |
| `NestedClassesDemo.ReplaceChild` | NestedClassesDemo/MainWindow.xaml.cs:30-33 | One iteration: the item gets a fresh child with the rewritten name, cost 0 and currency 0, which raised "Name" unless that name is "", and the item raises one "C" event. The summands change only at that item, which now counts 0. The relayed handler throws exactly when the new checked sum overflows, and then leaves the sum and the view model's events as they were; otherwise `SumOfBCost` is the new checked sum and the view model raises one "SumOfBCost" event exactly when it changed. Every other item and child is untouched |
| `NestedClassesDemo.ReplaceNext` | NestedClassesDemo/MainWindow.xaml.cs:30-33 | One iteration advances the loop state by one item. Only the first iteration can overflow, exactly when the starting costs with the first one zeroed overflow; the last one leaves `SumOfBCost` at 0 |
| `NestedClassesDemo.AllReplacedSumToZero` | NestedClassesDemo/MainWindow.xaml.cs:56 | Once every item holds a zero-cost child, the sum is 0 |
| `NestedClassesDemo.OnTestReplaceCObjects` | NestedClassesDemo/MainWindow.xaml.cs:28-34 | Items keep their number and order. Each processed item holds a fresh child named from its previous child ("Error" if none) with cost 0, and raised one "C" event. The new children are pairwise distinct. The handler throws exactly when the children's costs it leaves behind overflow, and equivalently exactly when the previous costs with the first one zeroed overflow. It can then only have stopped after the first item, and the items not reached keep their child and their events. Without an overflow, all items are processed and `SumOfBCost` ends at 0. The view model raises only "SumOfBCost" events, at most one per item |
| `NestedClassesDemo.ReplaceThenEditCost` | NestedClassesDemo/MainWindow.xaml.cs:26-33 | Assuming the relay also passes on the new children's events: the sequence overflows exactly when the replace does, that is when the previous costs with the first one zeroed overflow, and never when every previous cost is 0, as after construction. Otherwise editing any one new child's `Cost` cannot overflow and sets `SumOfBCost` to exactly that cost |

## Left out

- Window plumbing: `InitializeComponent`, the DataGrid column-width handler, the `DataContext` cast and the routed-event arguments. The button handler takes the view model as a parameter.
- The subscription library (`WithNotifyOnDescendants`): its reflection-based walk of the object graph and its subscription bookkeeping are foreign code. Its effect is modelled as a direct call of `HandlePropertyChanged` with the raised event's property name.
- .NET event multicast: handler lists are not modelled; raised events go to a per-object log, whether or not anyone listens.
- `ObservableCollection` change events: the core never adds or removes items, so the collection is a constant sequence.
- `CallerMemberName`: each setter raises its property name as a literal.
- A null `ClassC.Name`: the property is a non-nullable `string`, and nothing in the core assigns null, so the model's names are never null. Only a missing child yields "Error".
- Culture-specific number formatting: names use invariant-culture digits and '-'.
- `string.Replace` with an empty pattern throws in .NET; the demo passes a constant pattern, so that case is excluded.
- Garbage collection, threading and the UI dispatcher.
- NestedClassesDemo.OnTestReplaceCObjects: states the view model's new events only as "SumOfBCost" events, at most one per processed item, not the exact list. The exact list depends on every intermediate sum, and `ReplaceChild` states it per iteration. The new children's own "Name" events are likewise stated per iteration by `ReplaceChild`, not restated for the whole loop. The sum after an overflow is left unstated.
- NestedClassesDemo.ReplaceChild, NestedClassesDemo.ReplaceNext, NestedClassesDemo.OnTestReplaceCObjects, NestedClassesDemo.ReplaceThenEditCost: require `MainWindowViewModel.Valid`, which fixes the collection at the constructor's three distinct items rather than any collection of distinct items. The core builds the collection once and never adds, removes or replaces an item. The overflow condition "only the first item can overflow" relies on there being three items.
- NestedClassesDemo.EditChildCost: promises the move by exactly b - a only when the stored sum was current beforehand and no other item holds the child. The sum can be stale after an overflow left it unchanged. With a shared child, the costs change at every item holding it.
