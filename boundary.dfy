/**
 * Removal of the atoms that left the box after a step: the test `isOutside`, the
 * order-keeping filter it drives (`std::erase_if`) and the iterator loop of the older
 * world that erases in place.
 */
module Boundary {
  import opened Vectors
  import opened Atoms

  /** An atom is outside when it is on or beyond any of the four walls. */
  predicate Outside(a: Atom, width: real, height: real)
  {
    a.position.x <= 0.0 || a.position.x >= width || a.position.y <= 0.0 || a.position.y >= height
  }

  /** The atoms that are not outside, in their original order. */
  function KeepInside(atoms: seq<Atom>, width: real, height: real): (r: seq<Atom>)
    ensures |r| <= |atoms|
    decreases |atoms|
  {
    if atoms == [] then []
    else (if Outside(atoms[0], width, height) then [] else [atoms[0]]) + KeepInside(atoms[1..], width, height)
  }

  /** Every atom that survives was in the box before and is inside it. */
  lemma {:induction false} KeepInsideSound(atoms: seq<Atom>, width: real, height: real, a: Atom)
    requires a in KeepInside(atoms, width, height)
    ensures a in atoms && !Outside(a, width, height)
    decreases |atoms|
  {
    if atoms != [] && a in KeepInside(atoms[1..], width, height) {
      KeepInsideSound(atoms[1..], width, height, a);
    }
  }

  /** No atom of the sequence is outside the box, checked front to back. */
  predicate AllInside(atoms: seq<Atom>, width: real, height: real)
    decreases |atoms|
  {
    atoms == [] || (!Outside(atoms[0], width, height) && AllInside(atoms[1..], width, height))
  }

  /** The recursive test holds exactly when no index holds an outside atom. */
  lemma {:induction false} AllInsideEverywhere(atoms: seq<Atom>, width: real, height: real)
    ensures AllInside(atoms, width, height) <==> forall i :: 0 <= i < |atoms| ==> !Outside(atoms[i], width, height)
    decreases |atoms|
  {
    if atoms != [] {
      AllInsideEverywhere(atoms[1..], width, height);
      assert forall i :: 1 <= i < |atoms| ==> atoms[i] == atoms[1..][i - 1];
    }
  }

  /** No atom of the filtered sequence is outside. */
  lemma {:induction false} KeepInsideInside(atoms: seq<Atom>, width: real, height: real)
    ensures AllInside(KeepInside(atoms, width, height), width, height)
    decreases |atoms|
  {
    if atoms != [] {
      KeepInsideInside(atoms[1..], width, height);
      var rest := KeepInside(atoms[1..], width, height);
      if Outside(atoms[0], width, height) {
        assert KeepInside(atoms, width, height) == [] + rest;
        assert [] + rest == rest;
      } else {
        assert KeepInside(atoms, width, height) == [atoms[0]] + rest;
        assert ([atoms[0]] + rest)[1..] == rest;
      }
    }
  }

  /** Every atom that is inside survives. */
  lemma {:induction false} KeepInsideComplete(atoms: seq<Atom>, width: real, height: real, a: Atom)
    requires a in atoms && !Outside(a, width, height)
    ensures a in KeepInside(atoms, width, height)
    decreases |atoms|
  {
    if a != atoms[0] {
      KeepInsideComplete(atoms[1..], width, height, a);
    }
  }

  /** The filter keeps the relative order: filtering a concatenation filters each part. */
  lemma {:induction false} KeepInsideAppend(s: seq<Atom>, t: seq<Atom>, width: real, height: real)
    ensures KeepInside(s + t, width, height) == KeepInside(s, width, height) + KeepInside(t, width, height)
    decreases |s|
  {
    if s != [] {
      assert (s + t)[1..] == s[1..] + t;
      KeepInsideAppend(s[1..], t, width, height);
    } else {
      assert s + t == t;
    }
  }

  /** Filtering twice is filtering once. */
  lemma {:induction false} KeepInsideIdempotent(atoms: seq<Atom>, width: real, height: real)
    ensures KeepInside(KeepInside(atoms, width, height), width, height) == KeepInside(atoms, width, height)
    decreases |atoms|
  {
    if atoms != [] {
      var head := if Outside(atoms[0], width, height) then [] else [atoms[0]];
      KeepInsideAppend(head, KeepInside(atoms[1..], width, height), width, height);
      KeepInsideIdempotent(atoms[1..], width, height);
      if head != [] {
        assert head[1..] == [];
      }
    }
  }

  /** Nothing is removed exactly when no atom is outside. */
  lemma {:induction false} KeepInsideAll(atoms: seq<Atom>, width: real, height: real)
    ensures KeepInside(atoms, width, height) == atoms
        <==> forall i :: 0 <= i < |atoms| ==> !Outside(atoms[i], width, height)
    decreases |atoms|
  {
    if atoms != [] {
      KeepInsideAll(atoms[1..], width, height);
      var rest := KeepInside(atoms[1..], width, height);
      if Outside(atoms[0], width, height) {
        assert |KeepInside(atoms, width, height)| < |atoms|;
      } else {
        assert KeepInside(atoms, width, height) == [atoms[0]] + rest;
        if rest == atoms[1..] {
          assert atoms == [atoms[0]] + atoms[1..];
        } else {
          assert KeepInside(atoms, width, height)[1..] == rest;
        }
        assert forall i :: 1 <= i < |atoms| ==> atoms[i] == atoms[1..][i - 1];
      }
    }
  }

  /**
   * The older world's erase loop: an iterator walks the vector, erasing the atom it
   * points at when it is outside and stepping past it otherwise. The result is the
   * order-keeping filter.
   */
  method EraseOutside(atoms: seq<Atom>, width: real, height: real) returns (r: seq<Atom>)
    ensures r == KeepInside(atoms, width, height)
    ensures AllInside(r, width, height)
  {
    r := atoms;
    var i := 0;
    while i < |r|
      invariant 0 <= i <= |r|
      invariant r[..i] + KeepInside(r[i..], width, height) == KeepInside(atoms, width, height)
      decreases |r| - i
    {
      if Outside(r[i], width, height) {
        EraseKeepsFilter(r, i, width, height);
        r := r[..i] + r[i + 1..];
      } else {
        StepKeepsFilter(r, i, width, height);
        i := i + 1;
      }
    }
    assert r[..i] == r;
    KeepInsideInside(atoms, width, height);
  }

  /** Erasing an outside atom under the iterator leaves the filtered whole unchanged. */
  lemma EraseKeepsFilter(r: seq<Atom>, i: nat, width: real, height: real)
    requires i < |r| && Outside(r[i], width, height)
    ensures var erased := r[..i] + r[i + 1..];
      erased[..i] + KeepInside(erased[i..], width, height) == r[..i] + KeepInside(r[i..], width, height)
  {
    var erased := r[..i] + r[i + 1..];
    assert erased[..i] == r[..i] && erased[i..] == r[i..][1..];
  }

  /** Stepping past an inside atom moves it from the unfiltered tail to the kept prefix. */
  lemma StepKeepsFilter(r: seq<Atom>, i: nat, width: real, height: real)
    requires i < |r| && !Outside(r[i], width, height)
    ensures r[..i + 1] + KeepInside(r[i + 1..], width, height) == r[..i] + KeepInside(r[i..], width, height)
  {
    assert r[i..][1..] == r[i + 1..];
    assert r[..i + 1] == r[..i] + [r[i]];
  }
}
