/** `_ground_requirements` of `src/app/agents/resume_generation.py`: every extracted requirement
    quotes the job text literally, at a position that is exact. */
module ResumeGrounding {
  import opened Options

  datatype Kind = Explicit | Preferred | Inferred

  /** A basis is absent, blank or stated. */
  datatype Basis = NoBasis | BlankBasis | Stated(text: string)

  /** The contract makes `start` non-negative, `end` positive and the quote non-empty. */
  datatype Requirement = Requirement(kind: Kind, start: nat, end: nat, quote: string, basis: Basis)

  // ---- Text -----------------------------------------------------------------

  function Least(a: nat, b: nat): nat { if a < b then a else b }

  /** The slice `text[start:end]`, which is cut at the ends of the text. */
  function Slice(text: string, start: nat, end: nat): string
  {
    var from, to := Least(start, |text|), Least(end, |text|);
    if to < from then "" else text[from..to]
  }

  predicate Occurs(text: string, quote: string, i: nat) { i + |quote| <= |text| && text[i..i + |quote|] == quote }

  /** `text.find(quote, from)`. */
  function Find(text: string, quote: string, from: nat): (r: Option<nat>)
    ensures r.Some? ==> from <= r.value && Occurs(text, quote, r.value)
    ensures r.Some? ==> forall i: nat :: from <= i < r.value ==> !Occurs(text, quote, i)
    ensures r.None? ==> forall i: nat :: from <= i ==> !Occurs(text, quote, i)
    decreases |text| - from
  {
    if from + |quote| > |text| then None
    else if text[from..from + |quote|] == quote then
      assert Occurs(text, quote, from);
      Some(from)
    else
      assert !Occurs(text, quote, from);
      if from < |text| then Find(text, quote, from + 1) else None
  }

  ghost predicate OccursOnce(text: string, quote: string)
  {
    exists i: nat :: Occurs(text, quote, i) && forall j: nat :: Occurs(text, quote, j) ==> j == i
  }

  // ---- Grounding ------------------------------------------------------------

  /** A blank basis of a requirement that is not inferred counts as none. */
  function Normalized(r: Requirement): Requirement
  {
    if r.kind != Inferred && r.basis == BlankBasis then r.(basis := NoBasis) else r
  }

  /** One requirement: exact as it is, or moved to the one place of its quote. */
  function Located(text: string, r: Requirement): Option<Requirement>
  {
    if Slice(text, r.start, r.end) == r.quote then Some(r)
    else
      var start := Find(text, r.quote, 0);
      if start.None? || Find(text, r.quote, start.value + 1).Some? then None
      else Some(r.(start := start.value, end := start.value + |r.quote|))
  }

  /** `validate_requirement_positions` on one requirement. */
  predicate Valid(text: string, r: Requirement)
  {
    && r.start < r.end <= |text| && text[r.start..r.end] == r.quote
    && (r.kind == Inferred ==> r.basis.Stated?) && (r.kind != Inferred ==> r.basis == NoBasis)
  }

  function Ground(text: string, rs: seq<Requirement>): Option<seq<Requirement>>
  {
    if rs == [] then Some([]) else
    var n := |rs| - 1;
    var before, last := Ground(text, rs[..n]), Located(text, Normalized(rs[n]));
    if before.None? || last.None? || !Valid(text, last.value) then None else Some(before.value + [last.value])
  }

  /** The loop, and then the validation of all positions. */
  method GroundRequirements(text: string, rs: seq<Requirement>) returns (r: Option<seq<Requirement>>)
    ensures r == Ground(text, rs)
  {
    var requirements: seq<Requirement> := [];
    for i := 0 to |rs|
      invariant |requirements| == i
      invariant forall k :: 0 <= k < i ==> Located(text, Normalized(rs[k])) == Some(requirements[k])
    {
      var item := Normalized(rs[i]);
      if Slice(text, item.start, item.end) != item.quote {
        var start := Find(text, item.quote, 0);
        if start.None? || Find(text, item.quote, start.value + 1).Some? {
          Unlocated(text, rs, i);
          return None;
        }
        item := item.(start := start.value, end := start.value + |item.quote|);
      }
      requirements := requirements + [item];
    }
    for i := 0 to |requirements|
      invariant forall k :: 0 <= k < i ==> Valid(text, requirements[k])
    {
      if !Valid(text, requirements[i]) {
        Unlocated(text, rs, i);
        return None;
      }
    }
    AllLocated(text, rs, requirements);
    return Some(requirements);
  }

  lemma {:induction false} Unlocated(text: string, rs: seq<Requirement>, i: nat)
    requires i < |rs|
    requires var l := Located(text, Normalized(rs[i])); l.None? || !Valid(text, l.value)
    ensures Ground(text, rs).None?
  {
    if i < |rs| - 1 { Unlocated(text, rs[..|rs| - 1], i); }
  }

  lemma {:induction false} AllLocated(text: string, rs: seq<Requirement>, found: seq<Requirement>)
    requires |found| == |rs|
    requires forall k :: 0 <= k < |rs| ==> Located(text, Normalized(rs[k])) == Some(found[k]) && Valid(text, found[k])
    ensures Ground(text, rs) == Some(found)
  {
    hide Located, Valid, Normalized;
    if rs != [] {
      var n := |rs| - 1;
      assert forall k :: 0 <= k < n ==> rs[..n][k] == rs[k] && found[..n][k] == found[k];
      AllLocated(text, rs[..n], found[..n]);
      assert found == found[..n] + [found[n]];
    }
  }

  // ---- What grounding means -------------------------------------------------

  predicate BasisFits(r: Requirement)
  {
    if r.kind == Inferred then r.basis.Stated? else !r.basis.Stated?
  }

  /** What the model may write: a quote at its place, or a quote that occurs once. */
  ghost predicate Groundable(text: string, r: Requirement)
  {
    && BasisFits(r)
    && (if Slice(text, r.start, r.end) == r.quote then r.end <= |text| else OccursOnce(text, r.quote))
  }

  lemma SliceIsPlace(text: string, r: Requirement)
    requires r.quote != "" && Slice(text, r.start, r.end) == r.quote
    ensures r.end <= |text| <==> r.start < r.end <= |text| && text[r.start..r.end] == r.quote
  {
  }

  /** Two searches decide whether a quote occurs exactly once. */
  lemma FindsOnce(text: string, quote: string)
    ensures
      var first := Find(text, quote, 0);
      OccursOnce(text, quote) <==> first.Some? && Find(text, quote, first.value + 1).None?
  {
    hide Occurs;
    var first := Find(text, quote, 0);
    if first.Some? {
      var second := Find(text, quote, first.value + 1);
      if second.Some? {
        assert second.value != first.value;
      } else {
        assert forall j: nat :: Occurs(text, quote, j) ==> j == first.value;
      }
    }
  }

  lemma LocatedMeans(text: string, r: Requirement)
    requires r.quote != ""
    ensures
      var l := Located(text, Normalized(r));
      l.Some? && Valid(text, l.value) <==> Groundable(text, r)
  {
    hide Find, Slice, OccursOnce;
    if Slice(text, r.start, r.end) == r.quote {
      SliceIsPlace(text, r);
    } else {
      FindsOnce(text, r.quote);
    }
  }

  lemma GroundNothing(text: string)
    ensures Ground(text, []) == Some([])
  {
  }

  lemma GroundLast(text: string, rs: seq<Requirement>)
    requires rs != []
    ensures
      var n := |rs| - 1;
      var last := Located(text, Normalized(rs[n]));
      Ground(text, rs).Some? <==> Ground(text, rs[..n]).Some? && last.Some? && Valid(text, last.value)
  {
    hide Located, Valid, Normalized;
  }

  /** Grounding accepts exactly extractions whose every requirement quotes the text at its place
      or only once in it, with a basis exactly where it is inferred. */
  lemma {:induction false} GroundAccepts(text: string, rs: seq<Requirement>)
    requires forall k :: 0 <= k < |rs| ==> rs[k].quote != ""
    ensures Ground(text, rs).Some? <==> forall k :: 0 <= k < |rs| ==> Groundable(text, rs[k])
  {
    hide Groundable, Located, Valid, Normalized, Ground;
    if rs == [] {
      GroundNothing(text);
    } else {
      var n := |rs| - 1;
      GroundAccepts(text, rs[..n]);
      GroundLast(text, rs);
      LocatedMeans(text, rs[n]);
      assert forall k :: 0 <= k < n ==> rs[..n][k] == rs[k];
    }
  }

  lemma LocatedIsFixed(text: string, r: Requirement)
    requires Located(text, Normalized(r)).Some? && Valid(text, Located(text, Normalized(r)).value)
    ensures
      var l := Located(text, Normalized(r)).value;
      Located(text, Normalized(l)) == Some(l) && l.quote == r.quote && l.kind == r.kind
  {
  }

  /** What it returns quotes the text literally, in the order and with the quotes it was given,
      and grounding it again changes nothing. */
  lemma {:induction false} GroundIsExact(text: string, rs: seq<Requirement>)
    requires Ground(text, rs).Some?
    ensures
      var found := Ground(text, rs).value;
      && |found| == |rs| && Ground(text, found) == Some(found)
      && forall k :: 0 <= k < |rs| ==>
           Valid(text, found[k]) && found[k].quote == rs[k].quote && found[k].kind == rs[k].kind
  {
    hide Located, Valid, Normalized;
    if rs != [] {
      var n := |rs| - 1;
      GroundIsExact(text, rs[..n]);
      var found := Ground(text, rs).value;
      assert found[..n] == Ground(text, rs[..n]).value;
      LocatedIsFixed(text, rs[n]);
    }
  }
}
