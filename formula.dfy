/**
 * `get_formula`: the display name of a structure, made of each atom label
 * followed by the number of atoms carrying it, labels in the order in which
 * they are first seen.
 */
module Formula {

  /** The distinct labels of `s`, in the order of their first occurrence. */
  function FirstSeen(s: seq<string>): seq<string>
  {
    if s == [] then []
    else
      var front := FirstSeen(s[..|s| - 1]);
      if s[|s| - 1] in front then front else front + [s[|s| - 1]]
  }

  /** The index of the first occurrence of `x` in `s`. */
  function FirstIndex(s: seq<string>, x: string): (i: nat)
    requires x in s
    ensures i < |s| && s[i] == x
    ensures forall j :: 0 <= j < i ==> s[j] != x
  {
    if x in s[..|s| - 1] then FirstIndex(s[..|s| - 1], x) else |s| - 1
  }

  /** The decimal text of a natural number, as JavaScript prints an integral number. */
  function Decimal(n: nat): string
  {
    if n < 10 then [Digit(n)] else Decimal(n / 10) + [Digit(n % 10)]
  }

  function Digit(d: nat): char
    requires d < 10
  {
    "0123456789"[d]
  }

  /** `label + count` for each label of `labels`, counted in `s`, concatenated in order. */
  function Render(labels: seq<string>, s: seq<string>): string
  {
    if labels == [] then ""
    else
      var last := labels[|labels| - 1];
      Render(labels[..|labels| - 1], s) + last + Decimal(multiset(s)[last])
  }

  /** The sum of the counts in `s` of the labels of `labels`. */
  function CountSum(labels: seq<string>, s: seq<string>): nat
  {
    if labels == [] then 0
    else CountSum(labels[..|labels| - 1], s) + multiset(s)[labels[|labels| - 1]]
  }

  /**
   * The formula loop: count the labels in a JavaScript object (whose keys keep
   * their insertion order, written out here as `order`), then concatenate
   * `label + count` for every key in that order.
   */
  method GetFormula(atomTypes: seq<string>) returns (name: string)
    ensures name == Render(FirstSeen(atomTypes), atomTypes)
  {
    var counts: map<string, nat> := map[];
    var order: seq<string> := [];
    var i := 0;
    while i < |atomTypes|
      invariant 0 <= i <= |atomTypes|
      invariant order == FirstSeen(atomTypes[..i])
      invariant forall l :: l in counts <==> l in order
      invariant forall l :: l in counts ==> counts[l] == multiset(atomTypes[..i])[l]
    {
      var x := atomTypes[i];
      assert atomTypes[..i + 1] == atomTypes[..i] + [x];
      assert multiset(atomTypes[..i + 1]) == multiset(atomTypes[..i]) + multiset{x};
      FirstSeenMembers(atomTypes[..i], x);
      if x !in counts {
        order := order + [x];
      }
      counts := counts[x := 1 + (if x in counts then counts[x] else 0)];
      i := i + 1;
    }
    assert atomTypes[..i] == atomTypes;
    name := "";
    var j := 0;
    while j < |order|
      invariant 0 <= j <= |order|
      invariant name == Render(order[..j], atomTypes)
    {
      assert order[..j + 1][..j] == order[..j];
      name := name + order[j] + Decimal(counts[order[j]]);
      j := j + 1;
    }
    assert order[..j] == order;
  }

  /** A label is listed exactly when it occurs. */
  lemma {:induction false} FirstSeenMembers(s: seq<string>, x: string)
    ensures x in FirstSeen(s) <==> x in s
  {
    if s != [] {
      var front := s[..|s| - 1];
      FirstSeenMembers(front, x);
      assert s == front + [s[|s| - 1]];
    }
  }

  /** No label is listed twice. */
  lemma {:induction false} FirstSeenDistinct(s: seq<string>)
    ensures forall i, j :: 0 <= i < j < |FirstSeen(s)| ==> FirstSeen(s)[i] != FirstSeen(s)[j]
  {
    if s != [] {
      FirstSeenDistinct(s[..|s| - 1]);
    }
  }

  /** Labels are listed in the order of their first occurrence in `s`. */
  lemma {:induction false} FirstSeenOrder(s: seq<string>)
    ensures forall l :: l in FirstSeen(s) ==> l in s
    ensures forall i, j :: 0 <= i < j < |FirstSeen(s)| ==>
              FirstIndex(s, FirstSeen(s)[i]) < FirstIndex(s, FirstSeen(s)[j])
  {
    if s != [] {
      var front := s[..|s| - 1];
      var x := s[|s| - 1];
      FirstSeenOrder(front);
      forall l | l in FirstSeen(s) ensures l in s {
        FirstSeenMembers(s, l);
      }
      forall l | l in FirstSeen(front)
        ensures FirstIndex(s, l) == FirstIndex(front, l)
      {
      }
      FirstSeenMembers(front, x);
    }
  }

  /** Appending `x` to `s` adds one to the count sum when `x` is listed in `labels`. */
  lemma {:induction false} CountSumAppend(labels: seq<string>, s: seq<string>, x: string)
    requires forall i, j :: 0 <= i < j < |labels| ==> labels[i] != labels[j]
    ensures CountSum(labels, s + [x]) == CountSum(labels, s) + (if x in labels then 1 else 0)
  {
    if labels != [] {
      var front := labels[..|labels| - 1];
      CountSumAppend(front, s, x);
      assert x in labels <==> x in front || x == labels[|labels| - 1];
      assert multiset(s + [x]) == multiset(s) + multiset{x};
    }
  }

  /** The counts in the formula add up to the number of atoms. */
  lemma {:induction false} CountsSumToAtoms(s: seq<string>)
    ensures CountSum(FirstSeen(s), s) == |s|
  {
    if s != [] {
      var front := s[..|s| - 1];
      var x := s[|s| - 1];
      assert s == front + [x];
      CountsSumToAtoms(front);
      FirstSeenDistinct(front);
      CountSumAppend(FirstSeen(front), front, x);
      FirstSeenMembers(front, x);
      if x !in FirstSeen(front) {
        assert multiset(front)[x] == 0;
        assert multiset(s)[x] == 1;
        assert FirstSeen(s)[..|FirstSeen(s)| - 1] == FirstSeen(front);
      }
    }
  }

  /** The example `["O", "H", "H"]` gives the name "O1H2". */
  lemma WaterFormula()
    ensures Render(FirstSeen(["O", "H", "H"]), ["O", "H", "H"]) == "O1H2"
  {
    var s := ["O", "H", "H"];
    assert FirstSeen(s) == ["O", "H"] by {
      assert s[..2] == ["O", "H"] && ["O", "H"][..1] == ["O"] && ["O"][..0] == [];
      assert FirstSeen(["O"]) == ["O"];
      assert FirstSeen(["O", "H"]) == ["O", "H"];
    }
    assert Render(["O", "H"], s) == "O1H2" by {
      assert multiset(s)["O"] == 1 && multiset(s)["H"] == 2 by {
        assert multiset(s) == multiset{"O", "H", "H"};
      }
      assert ["O", "H"][..1] == ["O"] && ["O"][..0] == [];
      assert Render(["O"], s) == "O1";
    }
  }
}
