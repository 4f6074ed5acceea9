/** Lists that a loop reads one element at a time, for the two chunked image formats. */
module ChunkLists {
  import opened Bytes

  predicate Any<C(==)>(cs: seq<C>, p: C -> bool) {
    exists i :: 0 <= i < |cs| && p(cs[i])
  }

  lemma AnyExtends<C>(cs: seq<C>, c: C, p: C -> bool)
    ensures Any(cs + [c], p) <==> Any(cs, p) || p(c)
  {
    var t := cs + [c];
    if Any(cs, p) {
      var i :| 0 <= i < |cs| && p(cs[i]);
      assert t[i] == cs[i];
    }
    if p(c) {
      assert t[|cs|] == c;
    }
  }

  function Prepend<C>(cs: seq<C>, rest: Option<seq<C>>): Option<seq<C>> {
    if rest.None? then None else Some(cs + rest.value)
  }

  /** Reading the whole is having read cs and then reading the rest. */
  ghost predicate ReadSoFar<C>(whole: Option<seq<C>>, cs: seq<C>, rest: Option<seq<C>>) {
    whole == Prepend(cs, rest)
  }

  lemma ReadNothingYet<C>(whole: Option<seq<C>>)
    ensures ReadSoFar(whole, [], whole)
  {
    if whole.Some? {
      assert [] + whole.value == whole.value;
    }
  }

  lemma ReadOneMore<C>(whole: Option<seq<C>>, cs: seq<C>, c: C, rest: Option<seq<C>>)
    requires ReadSoFar(whole, cs, Prepend([c], rest))
    ensures ReadSoFar(whole, cs + [c], rest)
  {
    if rest.Some? {
      assert cs + ([c] + rest.value) == cs + [c] + rest.value;
    }
  }

  lemma ReadAll<C>(whole: Option<seq<C>>, cs: seq<C>)
    requires ReadSoFar(whole, cs, Some([]))
    ensures whole == Some(cs)
  {
    assert cs + [] == cs;
  }
}
