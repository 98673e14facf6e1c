/** The few .NET runtime notions the demo relies on: 32-bit `int`, the
    `++` operator (unchecked, so it wraps), `null`-able values, and the
    (sender, PropertyChangedEventArgs) pair that INotifyPropertyChanged raises. */
module DotNet {

  const MinInt32: int := -0x8000_0000
  const MaxInt32: int := 0x7FFF_FFFF

  predicate InInt32(x: int) {
    MinInt32 <= x <= MaxInt32
  }

  /** C#'s `int` (System.Int32). */
  type int32 = x: int | InInt32(x)

  /** `x++` on an `int` in an unchecked context: the successor modulo 2^32,
      read back as a signed 32-bit value. */
  function Increment(x: int32): (r: int32)
    ensures (r - x - 1) % 0x1_0000_0000 == 0
    ensures x < MaxInt32 ==> r > x
  {
    assert InInt32(x);
    if x == MaxInt32 then MinInt32 else x + 1
  }

  datatype Option<T> = None | Some(value: T)

  /** One raised PropertyChanged event: the object passed as `sender` and
      the `PropertyName` of the event arguments. */
  datatype Notification = Notification(sender: object, propertyName: string)
}
