/** Conversion between Go's multi-valued `http.Header` and the single-valued
    header map that both envelopes carry on the wire.

    Collapsing keeps the first value of every name and is lossy for names
    that carry several values; rebuilding gives every name exactly one value.
    Header names are taken to be in canonical form already, so `Header.Set`
    stores under the name it is given. */
module Headers {
  import opened Common

  /** A Go `http.Header`: every name carries a list of values. */
  type Header = map<string, seq<string>>

  /** The envelopes' `map[string]string`: one value per name. */
  type FlatHeader = map<string, string>

  /** Some name carries an empty value list, so `values[0]` is out of range. */
  predicate HasEmptyList(h: Header)
  {
    exists k :: k in h && h[k] == []
  }

  /** Every name carries exactly one value. */
  predicate IsSingleValued(h: Header)
  {
    forall k :: k in h ==> |h[k]| == 1
  }

  /** The collapsed header: every name mapped to its first value. */
  function FirstValues(h: Header): FlatHeader
    requires !HasEmptyList(h)
  {
    map k | k in h :: h[k][0]
  }

  /** The rebuilt header: every name carries its one envelope value. */
  function SingleValued(flat: FlatHeader): Header
  {
    map k | k in flat :: [flat[k]]
  }

  /** The loop that copies the first value of every name into a new map,
      visiting the names in an arbitrary order and panicking on the first
      empty value list it meets. */
  method Collapse(h: Header) returns (r: Result<FlatHeader, Panic>)
    ensures r.Failure? <==> HasEmptyList(h)
    ensures r.Failure? ==> r.error == IndexOutOfRange
    ensures r.Success? ==> r.value.Keys == h.Keys
    ensures r.Success? ==> forall k :: k in h ==> r.value[k] == h[k][0]
    ensures r.Success? ==> r.value == FirstValues(h)
  {
    var flat: FlatHeader := map[];
    var todo := h.Keys;
    while todo != {}
      invariant todo <= h.Keys
      invariant flat.Keys == h.Keys - todo
      invariant forall k :: k in flat ==> h[k] != [] && flat[k] == h[k][0]
      decreases todo
    {
      var k :| k in todo;
      if h[k] == [] {
        return Failure(IndexOutOfRange);
      }
      flat := flat[k := h[k][0]];
      todo := todo - {k};
    }
    return Success(flat);
  }

  /** The loop that calls `Set` for every name of an envelope header on a
      fresh, empty header. `Set` replaces whatever the name held, so every
      name ends up with exactly one value. */
  method Rebuild(flat: FlatHeader) returns (h: Header)
    ensures h.Keys == flat.Keys
    ensures IsSingleValued(h)
    ensures forall k :: k in flat ==> h[k][0] == flat[k]
    ensures h == SingleValued(flat)
  {
    h := map[];
    var todo := flat.Keys;
    while todo != {}
      invariant todo <= flat.Keys
      invariant h.Keys == flat.Keys - todo
      invariant forall k :: k in h ==> h[k] == [flat[k]]
      decreases todo
    {
      var k :| k in todo;
      h := h[k := [flat[k]]];
      todo := todo - {k};
    }
  }

  /** Collapsing a single-valued header and rebuilding it gives the header
      back: on that domain nothing is lost. */
  lemma CollapseThenRebuild(h: Header)
    requires IsSingleValued(h)
    ensures !HasEmptyList(h)
    ensures SingleValued(FirstValues(h)) == h
  {
    forall k | k in h
      ensures SingleValued(FirstValues(h))[k] == h[k]
    {
      assert |h[k]| == 1;
      assert h[k] == [h[k][0]];
    }
  }

  /** Rebuilding an envelope header and collapsing it again gives the
      envelope header back. */
  lemma RebuildThenCollapse(flat: FlatHeader)
    ensures !HasEmptyList(SingleValued(flat))
    ensures FirstValues(SingleValued(flat)) == flat
  {
  }

  /** Two headers collapse alike exactly when they have the same names and
      the same first value under each name. */
  lemma CollapseSeesOnlyFirstValues(h1: Header, h2: Header)
    requires !HasEmptyList(h1) && !HasEmptyList(h2)
    ensures FirstValues(h1) == FirstValues(h2) <==>
              h1.Keys == h2.Keys && forall k :: k in h1 ==> h1[k][0] == h2[k][0]
  {
    if FirstValues(h1) == FirstValues(h2) {
      assert h1.Keys == FirstValues(h1).Keys;
      forall k | k in h1 ensures h1[k][0] == h2[k][0] {
        assert FirstValues(h1)[k] == FirstValues(h2)[k];
      }
    }
  }

  /** A name with values `[a, b]` comes back with `a` alone: collapsing is
      one-way for multi-valued headers. */
  lemma CollapseIsLossy()
    ensures var h := map["X" := ["a", "b"]];
            !HasEmptyList(h) &&
            FirstValues(h) == map["X" := "a"] &&
            SingleValued(FirstValues(h)) != h
  {
    var h := map["X" := ["a", "b"]];
    assert h["X"] != [];
    assert SingleValued(FirstValues(h))["X"] == ["a"];
    assert h["X"] != ["a"] by { assert |h["X"]| == 2; }
  }

  /** In general: a header with a name that carries two or more values does
      not survive collapsing and rebuilding. */
  lemma CollapseLosesExtraValues(h: Header, k: string)
    requires !HasEmptyList(h)
    requires k in h && |h[k]| >= 2
    ensures SingleValued(FirstValues(h)) != h
  {
    assert |SingleValued(FirstValues(h))[k]| == 1;
  }

  /** Rebuilding loses nothing: different envelope headers rebuild into
      different headers. */
  lemma RebuildIsInjective(a: FlatHeader, b: FlatHeader)
    ensures SingleValued(a) == SingleValued(b) <==> a == b
  {
    if SingleValued(a) == SingleValued(b) {
      RebuildThenCollapse(a);
      RebuildThenCollapse(b);
    }
  }
}
