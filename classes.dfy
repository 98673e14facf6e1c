/** The two observable entities of the demo. Each property setter stores a
    new value only when it differs from the current one, and then raises
    exactly one PropertyChanged event naming the property. Raised events are
    recorded, in order, in the object's `notifications` log. */
module Classes {
  import opened DotNet

  /** A leaf entity with a name, a cost and a currency code. */
  class ClassC {
    var name: string
    var cost: int32
    var currency: int32
    var notifications: seq<Notification>

    /** `new ClassC()`: the field initialisers, and no event raised yet. */
    constructor ()
      ensures name == "" && cost == 0 && currency == 0
      ensures notifications == []
    {
      name, cost, currency := "", 0, 0;
      notifications := [];
    }

    /** Raises PropertyChanged with this object as the sender. */
    method OnPropertyChanged(propertyName: string)
      modifies this`notifications
      ensures notifications == old(notifications) + [Notification(this, propertyName)]
    {
      notifications := notifications + [Notification(this, propertyName)];
    }

    /** The `Name` setter (string equality). */
    method SetName(value: string)
      modifies this`name, this`notifications
      ensures name == value
      ensures cost == old(cost) && currency == old(currency)
      ensures notifications == old(notifications)
        + if old(name) == value then [] else [Notification(this, "Name")]
    {
      if name != value {
        name := value;
        OnPropertyChanged("Name");
      }
    }

    /** The `Cost` setter. */
    method SetCost(value: int32)
      modifies this`cost, this`notifications
      ensures cost == value
      ensures name == old(name) && currency == old(currency)
      ensures notifications == old(notifications)
        + if old(cost) == value then [] else [Notification(this, "Cost")]
    {
      if cost != value {
        cost := value;
        OnPropertyChanged("Cost");
      }
    }

    /** The `Currency` setter. */
    method SetCurrency(value: int32)
      modifies this`currency, this`notifications
      ensures currency == value
      ensures name == old(name) && cost == old(cost)
      ensures notifications == old(notifications)
        + if old(currency) == value then [] else [Notification(this, "Currency")]
    {
      if currency != value {
        currency := value;
        OnPropertyChanged("Currency");
      }
    }
  }

  /** Assigning each property the same value twice: the second assignment
      never raises anything, so the state is the one the first assignment
      produced and at most one event per property is raised. */
  method AssignTwice(c: ClassC, name: string, cost: int32, currency: int32)
    modifies c
    ensures c.name == name && c.cost == cost && c.currency == currency
    ensures c.notifications == old(c.notifications)
      + (if old(c.name) == name then [] else [Notification(c, "Name")])
      + (if old(c.cost) == cost then [] else [Notification(c, "Cost")])
      + (if old(c.currency) == currency then [] else [Notification(c, "Currency")])
  {
    c.SetName(name);
    c.SetName(name);
    c.SetCost(cost);
    c.SetCost(cost);
    c.SetCurrency(currency);
    c.SetCurrency(currency);
  }

  /** A parent entity holding an optional child. ClassC does not override
      Equals, so the setter's guard compares references. */
  class ClassB {
    var c: ClassC?
    var notifications: seq<Notification>

    /** `new ClassB()`: no child. */
    constructor ()
      ensures c == null && notifications == []
    {
      c := null;
      notifications := [];
    }

    /** Raises PropertyChanged with this object (not the child) as the sender. */
    method OnPropertyChanged(propertyName: string)
      modifies this`notifications
      ensures notifications == old(notifications) + [Notification(this, propertyName)]
    {
      notifications := notifications + [Notification(this, propertyName)];
    }

    /** The `C` setter: only the reference held here changes; neither the
        previous child nor the new one is modified. */
    method SetC(value: ClassC?)
      modifies this`c, this`notifications
      ensures c == value
      ensures notifications == old(notifications)
        + if old(c) == value then [] else [Notification(this, "C")]
      ensures old(c) != null ==> unchanged(old(c))
      ensures value != null ==> unchanged(value)
    {
      if c != value {
        c := value;
        OnPropertyChanged("C");
      }
    }
  }
}
