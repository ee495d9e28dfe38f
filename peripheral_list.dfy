/** The list of Bluetooth printers offered for connection: only peripherals
    not advertised as unconnectable are shown, each as a row keyed by its id
    and titled by its name. */
module PeripheralList {
  import opened Values

  const UnknownDevice := "Unknown Device"

  datatype Advertising = Advertising(isConnectable: Option<bool>)

  datatype Peripheral = Peripheral(name: Option<string>, localName: Option<string>, rssi: int, id: string,
                                   advertising: Option<Advertising>)

  /** `p?.advertising?.isConnectable !== false`: a missing `advertising`
      record or a missing flag keeps the peripheral. */
  predicate Connectable(p: Peripheral) {
    !(p.advertising.Some? && p.advertising.value.isConnectable == Some(false))
  }

  /** The filtered list handed to the `FlatList`. */
  function Shown(ps: seq<Peripheral>): (r: seq<Peripheral>)
    ensures forall p :: p in r <==> p in ps && Connectable(p)
    ensures |r| <= |ps|
    decreases |ps|
  {
    if ps == [] then []
    else if Connectable(ps[0]) then [ps[0]] + Shown(ps[1..])
    else Shown(ps[1..])
  }

  /** `a` is `b` with some elements dropped, the rest in their order. */
  predicate IsSubsequence<T(==)>(a: seq<T>, b: seq<T>)
    decreases |b|
  {
    if a == [] then true
    else if b == [] then false
    else if a[0] == b[0] then IsSubsequence(a[1..], b[1..])
    else IsSubsequence(a, b[1..])
  }

  /** The filter keeps the input order. */
  lemma {:induction false} ShownIsSubsequence(ps: seq<Peripheral>)
    ensures IsSubsequence(Shown(ps), ps)
    decreases |ps|
  {
    if ps != [] {
      ShownIsSubsequence(ps[1..]);
      if !Connectable(ps[0]) {
        SubsequenceOfTail(Shown(ps[1..]), ps);
      }
    }
  }

  /** Dropping the first element of `b` keeps a subsequence a subsequence of `b`. */
  lemma {:induction false} SubsequenceOfTail<T>(a: seq<T>, b: seq<T>)
    requires b != [] && IsSubsequence(a, b[1..])
    ensures IsSubsequence(a, b)
    decreases |b|, 0
  {
    if a != [] && a[0] == b[0] {
      TailOfSubsequence(a, b[1..]);
    }
  }

  lemma {:induction false} TailOfSubsequence<T>(a: seq<T>, b: seq<T>)
    requires a != [] && IsSubsequence(a, b)
    ensures IsSubsequence(a[1..], b)
    decreases |b|, 1
  {
    if a[0] == b[0] {
      SubsequenceOfTail(a[1..], b);
    } else {
      TailOfSubsequence(a, b[1..]);
      SubsequenceOfTail(a[1..], b);
    }
  }

  /** Filtering the shown list again changes nothing. */
  lemma {:induction false} ShownIdempotent(ps: seq<Peripheral>)
    ensures Shown(Shown(ps)) == Shown(ps)
    decreases |ps|
  {
    if ps != [] {
      ShownIdempotent(ps[1..]);
      if Connectable(ps[0]) {
        assert Shown(ps)[1..] == Shown(ps[1..]);
      }
    }
  }

  /** Filtering a concatenation filters each part in place. */
  lemma {:induction false} ShownAppend(a: seq<Peripheral>, b: seq<Peripheral>)
    ensures Shown(a + b) == Shown(a) + Shown(b)
    decreases |a|
  {
    if a == [] {
      assert a + b == b;
    } else {
      assert (a + b)[1..] == a[1..] + b;
      ShownAppend(a[1..], b);
    }
  }

  /** `item.name || "Unknown Device"` */
  function DisplayName(p: Peripheral): (r: string)
    ensures Present(p.name) ==> r == p.name.value
    ensures !Present(p.name) ==> r == UnknownDevice
  {
    if p.name.Some? && p.name.value != "" then p.name.value else UnknownDevice
  }

  /** The advertised local name plays no part in the title. */
  lemma LocalNameIgnored(p: Peripheral, localName: Option<string>)
    ensures DisplayName(p.(localName := localName)) == DisplayName(p)
  {
  }

  /** One rendered card. */
  datatype Row = Row(key: string, title: string, rssi: int, id: string)

  function RowOf(p: Peripheral): Row {
    Row(p.id, DisplayName(p), p.rssi, p.id)
  }

  /** The rendered cards, one per shown peripheral and keyed by its id. */
  function Rows(ps: seq<Peripheral>): (r: seq<Row>)
    ensures |r| == |Shown(ps)|
    ensures forall i :: 0 <= i < |r| ==> r[i].key == r[i].id == Shown(ps)[i].id
    ensures forall i :: 0 <= i < |r| ==> r[i].title == DisplayName(Shown(ps)[i])
  {
    var shown := Shown(ps);
    seq(|shown|, i requires 0 <= i < |shown| => RowOf(shown[i]))
  }
}
