/**
 * The greeting's cycling name: an index into the list of names, advanced
 * modulo the list's length by an interval callback that is only started
 * when there are at least two names, and the name split into letters for
 * rendering. The timer is modelled as explicit calls of `Tick`.
 */
module NameMorpher {
  import opened Wrappers

  const DefaultNames: seq<string> := ["Jaya  Surya"]

  /** The index after one interval callback; with fewer than two names no interval runs. */
  function Next(index: nat, count: nat): (r: nat)
    ensures count >= 1 && index < count ==> r < count
    ensures count <= 1 ==> r == index
  {
    if count <= 1 then index else (index + 1) % count
  }

  /** The index after `k` callbacks: it stays a valid index, and never moves with fewer than two names. */
  function Steps(index: nat, count: nat, k: nat): (r: nat)
    ensures count >= 1 && index < count ==> r < count
    ensures count <= 1 ==> r == index
  {
    if k == 0 then index else Next(Steps(index, count, k - 1), count)
  }

  class NameMorpher {
    const names: seq<string>
    var index: nat

    /** The index stays within the list whenever the list is non-empty. */
    predicate Valid()
      reads this
    {
      |names| >= 1 ==> index < |names|
    }

    constructor (names: seq<string>)
      ensures this.names == names && index == 0 && Valid()
    {
      this.names := names;
      index := 0;
    }

    /** `names[currentNameIndex]`: undefined (None) only for an empty list. */
    function CurrentName(): (r: Option<string>)
      reads this
      requires Valid()
      ensures r.Some? <==> |names| >= 1
      ensures r.Some? ==> r.value == names[index]
    {
      if |names| >= 1 then Some(names[index]) else None
    }

    /** One interval callback: `(prev + 1) % names.length`, when the interval exists at all. */
    method Tick()
      requires Valid()
      modifies this
      ensures Valid()
      ensures index == Next(old(index), |names|)
    {
      if |names| > 1 {
        index := (index + 1) % |names|;
      }
    }
  }

  /** `split("")`: one single-character string per character. */
  function Letters(name: string): (r: seq<string>)
    ensures |r| == |name|
    ensures forall i :: 0 <= i < |name| ==> r[i] == [name[i]]
  {
    seq(|name|, i requires 0 <= i < |name| => [name[i]])
  }

  function Concat(parts: seq<string>): string {
    if parts == [] then "" else parts[0] + Concat(parts[1..])
  }

  // ---------------------------------------------------------------- lemmas

  /** One callback on a list of two or more: the next index, wrapping from the last to the first. */
  lemma NextWraps(index: nat, count: nat)
    requires count >= 2 && index < count
    ensures Next(index, count) == if index + 1 < count then index + 1 else 0
  {
  }

  /** Up to a full round, k callbacks move the index forward by k, wrapping once past the end. */
  lemma {:induction false} StepsWithinRound(index: nat, count: nat, k: nat)
    requires count >= 2 && index < count && k <= count
    ensures Steps(index, count, k) == if index + k < count then index + k else index + k - count
  {
    if k > 0 {
      StepsWithinRound(index, count, k - 1);
      NextWraps(Steps(index, count, k - 1), count);
    }
  }

  /** After as many callbacks as there are names, the original name is back. */
  lemma FullCycleReturns(index: nat, count: nat)
    requires count >= 2 && index < count
    ensures Steps(index, count, count) == index
  {
    StepsWithinRound(index, count, count);
  }

  /** The rendered letters, read in order, spell the current name. */
  lemma {:induction false} LettersSpellName(name: string)
    ensures Concat(Letters(name)) == name
  {
    if name != [] {
      LettersSpellName(name[1..]);
      assert Letters(name)[1..] == Letters(name[1..]);
      assert name == [name[0]] + name[1..];
    }
  }
}
