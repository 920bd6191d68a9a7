/**
 * The vehicle inventory and the two option lists the wizard derives from it:
 * the vehicles offered on the "Type of vehicle" step and those offered on the
 * "Specific Model" step. Both are `vehicles.filter(...)`, so both keep the
 * inventory's order and its duplicates.
 */
module Vehicles {
  import opened Decimal

  /** One inventory entry; the booked-dates fields are display only and are not modelled. */
  datatype Vehicle = Vehicle(vehicleType: string, model: string, wheels: int)

  /** `Array.prototype.filter`: the elements satisfying `keep`, in their original order. */
  function Filter<T>(s: seq<T>, keep: T -> bool): (r: seq<T>)
    ensures |r| <= |s|
    ensures forall i :: 0 <= i < |r| ==> keep(r[i])
  {
    if s == [] then [] else (if keep(s[0]) then [s[0]] else []) + Filter(s[1..], keep)
  }

  /** An element is in the filtered list exactly when it is in `s` and satisfies `keep`. */
  lemma FilterMember<T>(s: seq<T>, keep: T -> bool, x: T)
    ensures x in Filter(s, keep) <==> x in s && keep(x)
  {
    FilterCount(s, keep, x);
    assert x in s <==> multiset(s)[x] > 0;
    assert x in Filter(s, keep) <==> multiset(Filter(s, keep))[x] > 0;
  }

  /** Nothing is merged or dropped: a kept element occurs as often as in `s`, any other not at all. */
  lemma {:induction false} FilterCount<T>(s: seq<T>, keep: T -> bool, x: T)
    ensures multiset(Filter(s, keep))[x] == if keep(x) then multiset(s)[x] else 0
    decreases |s|
  {
    if s != [] {
      assert s == [s[0]] + s[1..];
      FilterCount(s[1..], keep, x);
    }
  }

  /** Order is kept: filtering `a + b` gives the filtered `a` followed by the filtered `b`. */
  lemma {:induction false} FilterAppend<T>(a: seq<T>, b: seq<T>, keep: T -> bool)
    ensures Filter(a + b, keep) == Filter(a, keep) + Filter(b, keep)
    decreases |a|
  {
    if a == [] {
      assert a + b == b;
    } else {
      assert (a + b)[0] == a[0] && (a + b)[1..] == a[1..] + b;
      FilterAppend(a[1..], b, keep);
    }
  }

  /** Filtering twice is filtering once by both conditions. */
  lemma {:induction false} FilterTwice<T>(s: seq<T>, first: T -> bool, second: T -> bool, both: T -> bool)
    requires forall x :: both(x) == (first(x) && second(x))
    ensures Filter(Filter(s, first), second) == Filter(s, both)
    decreases |s|
  {
    if s != [] {
      FilterTwice(s[1..], first, second, both);
      if first(s[0]) {
        var f := Filter(s, first);
        assert f == [s[0]] + Filter(s[1..], first);
        assert f != [] && f[0] == s[0] && f[1..] == Filter(s[1..], first);
        assert both(s[0]) == second(s[0]);
        assert Filter(f, second) == (if second(s[0]) then [s[0]] else []) + Filter(f[1..], second);
      } else {
        assert !both(s[0]);
        assert Filter(s, first) == Filter(s[1..], first);
        assert Filter(s, both) == Filter(s[1..], both);
      }
    }
  }

  /** Nothing is kept when no element can satisfy the condition. */
  lemma {:induction false} FilterNone<T>(s: seq<T>, keep: T -> bool)
    requires forall x :: !keep(x)
    ensures Filter(s, keep) == []
    decreases |s|
  {
    if s != [] {
      FilterNone(s[1..], keep);
    }
  }

  /** `vehicle.wheels.toString() === wheels` */
  predicate ShowsWheels(v: Vehicle, wheels: string) {
    IntToString(v.wheels) == wheels
  }

  /** The step-3 filter condition. */
  function HasWheels(wheels: string): Vehicle -> bool {
    v => ShowsWheels(v, wheels)
  }

  /** The step-4 filter condition. */
  function HasWheelsAndType(wheels: string, vehicleType: string): Vehicle -> bool {
    (v: Vehicle) => ShowsWheels(v, wheels) && v.vehicleType == vehicleType
  }

  /** The type half of the step-4 condition. */
  function HasType(vehicleType: string): Vehicle -> bool {
    (v: Vehicle) => v.vehicleType == vehicleType
  }

  /** Step-3 list: the vehicles whose wheel count reads as the chosen `wheels`. */
  function TypeOptions(vs: seq<Vehicle>, wheels: string): (r: seq<Vehicle>)
    ensures forall v {:trigger v in r} :: v in r <==> v in vs && ShowsWheels(v, wheels)
  {
    forall v ensures v in Filter(vs, HasWheels(wheels)) <==> v in vs && ShowsWheels(v, wheels) {
      FilterMember(vs, HasWheels(wheels), v);
    }
    Filter(vs, HasWheels(wheels))
  }

  /** Step-4 list: the vehicles matching both the chosen `wheels` and the chosen type. */
  function ModelOptions(vs: seq<Vehicle>, wheels: string, vehicleType: string): (r: seq<Vehicle>)
    ensures forall v {:trigger v in r} :: v in r <==> v in vs && ShowsWheels(v, wheels) && v.vehicleType == vehicleType
  {
    forall v ensures v in Filter(vs, HasWheelsAndType(wheels, vehicleType))
                     <==> v in vs && ShowsWheels(v, wheels) && v.vehicleType == vehicleType {
      FilterMember(vs, HasWheelsAndType(wheels, vehicleType), v);
    }
    Filter(vs, HasWheelsAndType(wheels, vehicleType))
  }

  /**
   * Step 3 offers exactly the matching vehicles, each as often as the
   * inventory holds it, in inventory order.
   */
  lemma TypeOptionsSpec(vs: seq<Vehicle>, wheels: string, v: Vehicle, more: seq<Vehicle>)
    ensures forall i :: 0 <= i < |TypeOptions(vs, wheels)| ==> ShowsWheels(TypeOptions(vs, wheels)[i], wheels)
    ensures multiset(TypeOptions(vs, wheels))[v] == if ShowsWheels(v, wheels) then multiset(vs)[v] else 0
    ensures TypeOptions(vs + more, wheels) == TypeOptions(vs, wheels) + TypeOptions(more, wheels)
  {
    FilterCount(vs, HasWheels(wheels), v);
    FilterAppend(vs, more, HasWheels(wheels));
  }

  /** Step 4 offers exactly the vehicles matching both choices, with the same counting and order. */
  lemma ModelOptionsSpec(vs: seq<Vehicle>, wheels: string, vehicleType: string, v: Vehicle, more: seq<Vehicle>)
    ensures forall i :: 0 <= i < |ModelOptions(vs, wheels, vehicleType)| ==>
              ShowsWheels(ModelOptions(vs, wheels, vehicleType)[i], wheels)
              && ModelOptions(vs, wheels, vehicleType)[i].vehicleType == vehicleType
    ensures multiset(ModelOptions(vs, wheels, vehicleType))[v]
            == if ShowsWheels(v, wheels) && v.vehicleType == vehicleType then multiset(vs)[v] else 0
    ensures ModelOptions(vs + more, wheels, vehicleType)
            == ModelOptions(vs, wheels, vehicleType) + ModelOptions(more, wheels, vehicleType)
  {
    FilterCount(vs, HasWheelsAndType(wheels, vehicleType), v);
    FilterAppend(vs, more, HasWheelsAndType(wheels, vehicleType));
  }

  /** The step-4 list is the step-3 list narrowed to the chosen type. */
  lemma ModelOptionsWithinTypeOptions(vs: seq<Vehicle>, wheels: string, vehicleType: string)
    ensures Filter(TypeOptions(vs, wheels), HasType(vehicleType)) == ModelOptions(vs, wheels, vehicleType)
  {
    FilterTwice(vs, HasWheels(wheels), HasType(vehicleType), HasWheelsAndType(wheels, vehicleType));
  }

  /** With no wheel count chosen yet (`wheels` is `""`), step 3 offers nothing. */
  lemma NoTypeOptionsWithoutWheels(vs: seq<Vehicle>)
    ensures TypeOptions(vs, "") == []
  {
    FilterNone(vs, HasWheels(""));
  }

  /** The radio values `"2"` and `"4"` select exactly the vehicles with 2 and 4 wheels. */
  lemma ShowsWheelsRadioValue(v: Vehicle)
    ensures ShowsWheels(v, "2") <==> v.wheels == 2
    ensures ShowsWheels(v, "4") <==> v.wheels == 4
  {
  }
}
