/** `NeqAssign::neq_assign`: assign a new value only when it differs from
    the current one, and report whether it did. Components use the report as
    their `ShouldRender`. The `&mut self` receiver becomes the pair of the
    current value in and the next value out. */
module ChangeDetection {

  method NeqAssign<T(==)>(current: T, value: T) returns (next: T, changed: bool)
    ensures next == value
    ensures changed <==> current != value
    ensures !changed ==> next == current
  {
    if current != value {
      next, changed := value, true;
    } else {
      next, changed := current, false;
    }
  }

  /** Assigning the same value twice: the second assignment reports no change
      and leaves the value as the first one left it. */
  method NeqAssignTwice<T(==)>(current: T, value: T) returns (next: T, first: bool, second: bool)
    ensures next == value
    ensures first <==> current != value
    ensures !second
  {
    var mid;
    mid, first := NeqAssign(current, value);
    next, second := NeqAssign(mid, value);
  }
}
