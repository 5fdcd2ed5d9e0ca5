/**
 * The seed id backfill: every record keeps a truthy id and every other
 * record receives a freshly generated one. The generator is abstract:
 * `gen(k)` is what the k-th call to uuid v4 returns, and the records are
 * visited in order, so the generator is called once per record lacking an id.
 */
module Backfill {
  import opened Students

  /** The generator calls numbered `from` to `from + count - 1` return pairwise different identifiers. */
  ghost predicate DistinctCalls(gen: nat -> Uuid, from: nat, count: nat) {
    forall a: nat, b: nat :: from <= a < b < from + count ==> gen(a) != gen(b)
  }

  /** How many records of `s` have a falsy id, that is, how many ids backfilling `s` generates. */
  function Missing(s: seq<Student>): (n: nat)
    ensures n <= |s|
  {
    if s == [] then 0 else (if Truthy(s[0].id) then 0 else 1) + Missing(s[1..])
  }

  /**
   * Copies every record of `s` in order, replacing a falsy id by the next
   * generated one; `next` is the number of generator calls made before.
   */
  function Backfilled(s: seq<Student>, gen: nat -> Uuid, next: nat): (r: seq<Student>)
    ensures |r| == |s|
  {
    if s == [] then []
    else if Truthy(s[0].id) then [s[0]] + Backfilled(s[1..], gen, next)
    else [s[0].(id := gen(next))] + Backfilled(s[1..], gen, next + 1)
  }

  lemma {:induction false} MissingAppend(a: seq<Student>, b: seq<Student>)
    ensures Missing(a + b) == Missing(a) + Missing(b)
  {
    if a == [] {
      assert a + b == b;
    } else {
      assert (a + b)[0] == a[0];
      assert (a + b)[1..] == a[1..] + b;
      MissingAppend(a[1..], b);
    }
  }

  /**
   * A record with a falsy id at position i uses a call number that no later
   * record lacking an id uses, and one below the total number of calls.
   */
  lemma MissingPrefixGrows(s: seq<Student>, i: nat, j: nat)
    requires i < j <= |s| && !Truthy(s[i].id)
    ensures Missing(s[..i]) < Missing(s[..j])
    ensures Missing(s[..i]) < Missing(s)
  {
    assert s[..j] == s[..i] + s[i..j];
    MissingAppend(s[..i], s[i..j]);
    assert s[i..j][0] == s[i];
    assert s == s[..i] + s[i..];
    MissingAppend(s[..i], s[i..]);
    assert s[i..][0] == s[i];
  }

  /**
   * Record i of the backfilled list: the input record itself when its id
   * is truthy, otherwise the input record with the id from the generator
   * call numbered by the falsy ids before it.
   */
  lemma {:induction false} BackfillAt(s: seq<Student>, gen: nat -> Uuid, next: nat, i: nat)
    requires i < |s|
    ensures Backfilled(s, gen, next)[i] ==
      if Truthy(s[i].id) then s[i] else s[i].(id := gen(next + Missing(s[..i])))
  {
    if i == 0 {
      assert s[..0] == [];
    } else {
      var step := if Truthy(s[0].id) then 0 else 1;
      BackfillAt(s[1..], gen, next + step, i - 1);
      assert s[..i][0] == s[0];
      assert s[..i][1..] == s[1..][..i - 1];
    }
  }

  /**
   * The backfill keeps the length and order of the input, keeps every
   * truthy id, leaves every field other than the id as it was, and leaves
   * no record with a falsy id.
   */
  lemma BackfillSound(s: seq<Student>, gen: nat -> Uuid, next: nat)
    ensures |Backfilled(s, gen, next)| == |s|
    ensures forall i :: 0 <= i < |s| ==> Truthy(Backfilled(s, gen, next)[i].id)
    ensures forall i :: 0 <= i < |s| && Truthy(s[i].id) ==> Backfilled(s, gen, next)[i] == s[i]
    ensures forall i :: 0 <= i < |s| ==> Backfilled(s, gen, next)[i].(id := s[i].id) == s[i]
  {
    forall i | 0 <= i < |s|
      ensures Truthy(Backfilled(s, gen, next)[i].id)
      ensures Truthy(s[i].id) ==> Backfilled(s, gen, next)[i] == s[i]
      ensures Backfilled(s, gen, next)[i].(id := s[i].id) == s[i]
    {
      BackfillAt(s, gen, next, i);
    }
  }

  /**
   * When the generator does not repeat within one backfill, two records that
   * both lacked an id receive different ids.
   */
  lemma GeneratedIdsDistinct(s: seq<Student>, gen: nat -> Uuid, next: nat, i: nat, j: nat)
    requires DistinctCalls(gen, next, Missing(s))
    requires i < j < |s| && !Truthy(s[i].id) && !Truthy(s[j].id)
    ensures Backfilled(s, gen, next)[i].id != Backfilled(s, gen, next)[j].id
  {
    BackfillAt(s, gen, next, i);
    BackfillAt(s, gen, next, j);
    MissingPrefixGrows(s, i, j);
    MissingPrefixGrows(s, j, |s|);
  }

  /** A list whose ids are all truthy is its own backfill: the generator is never called. */
  lemma {:induction false} BackfillFixpoint(s: seq<Student>, gen: nat -> Uuid, next: nat)
    requires forall i :: 0 <= i < |s| ==> Truthy(s[i].id)
    ensures Backfilled(s, gen, next) == s
    ensures Missing(s) == 0
  {
    if s != [] {
      assert Truthy(s[0].id);
      assert forall i :: 0 <= i < |s[1..]| ==> s[1..][i] == s[i + 1];
      BackfillFixpoint(s[1..], gen, next);
      assert [s[0]] + s[1..] == s;
    }
  }

  /** Backfilling twice is backfilling once, whatever the second generator would return. */
  lemma BackfillIdempotent(s: seq<Student>, gen: nat -> Uuid, next: nat, gen2: nat -> Uuid, next2: nat)
    ensures Backfilled(Backfilled(s, gen, next), gen2, next2) == Backfilled(s, gen, next)
  {
    BackfillSound(s, gen, next);
    BackfillFixpoint(Backfilled(s, gen, next), gen2, next2);
  }
}
