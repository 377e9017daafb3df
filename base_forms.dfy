/**
 * The part of the form framework's base constructor this model relies on:
 * building the name-to-field mapping from the ordered (name, field) pairs.
 * The framework's own code is not part of this model; the stand-in below
 * assigns the pairs in order, and only facts that do not depend on how the
 * framework treats two pairs with the same name are stated about it.
 */
module BaseForms {

  /** The names of the pairs. */
  ghost function Names<F>(entries: seq<(string, F)>): set<string>
  {
    set e | e in entries :: e.0
  }

  /**
   * The name-to-field mapping the base constructor builds from `entries`,
   * assigning them in order: no pairs give the empty mapping, and there are
   * never more names than pairs.
   */
  function FieldMap<F>(entries: seq<(string, F)>): (m: map<string, F>)
    ensures entries == [] ==> m == map[]
    ensures |m| <= |entries|
  {
    if entries == [] then map[]
    else
      var n := |entries| - 1;
      FieldMap(entries[..n])[entries[n].0 := entries[n].1]
  }

  /**
   * The mapping has exactly the pairs' names as keys, and each name maps to
   * the field of some pair with that name.
   */
  lemma {:induction false} FieldMapSound<F>(entries: seq<(string, F)>)
    ensures FieldMap(entries).Keys == Names(entries)
    ensures forall name | name in FieldMap(entries) :: (name, FieldMap(entries)[name]) in entries
  {
    if entries != [] {
      var n := |entries| - 1;
      assert entries == entries[..n] + [entries[n]];
      FieldMapSound(entries[..n]);
    }
  }

  /**
   * Assignment in order: a pair whose name no later pair repeats is the one
   * its name maps to.
   */
  lemma {:induction false} FieldMapLastWins<F>(entries: seq<(string, F)>, i: nat)
    requires i < |entries|
    requires forall j | i < j < |entries| :: entries[j].0 != entries[i].0
    ensures entries[i].0 in FieldMap(entries) && FieldMap(entries)[entries[i].0] == entries[i].1
  {
    var n := |entries| - 1;
    if i < n {
      assert entries[..n][i] == entries[i];
      FieldMapLastWins(entries[..n], i);
    }
  }

  /** When the names are pairwise distinct, every pair's name maps to that pair's field. */
  lemma {:induction false} FieldMapDistinct<F>(entries: seq<(string, F)>)
    requires forall i, j | 0 <= i < j < |entries| :: entries[i].0 != entries[j].0
    ensures forall i | 0 <= i < |entries| ::
      entries[i].0 in FieldMap(entries) && FieldMap(entries)[entries[i].0] == entries[i].1
  {
    if entries != [] {
      var n := |entries| - 1;
      FieldMapDistinct(entries[..n]);
      forall i | 0 <= i < |entries|
        ensures entries[i].0 in FieldMap(entries) && FieldMap(entries)[entries[i].0] == entries[i].1
      {
        if i < n {
          assert entries[..n][i] == entries[i];
        }
      }
    }
  }
}
