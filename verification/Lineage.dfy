/**
 Tickets that each go back to a beginning, one at most for each, and beginnings that have ended, each at
 most once and with no ticket left: what keeps them so, whatever tickets and beginnings say.
 */
module Lineage {
  import opened Wrappers

  /** Every ticket goes back to a beginning of its own that it fits. */
  ghost predicate Lines<T, B>(tickets: map<Name, T>, lineage: map<Name, nat>, begins: seq<B>, fits: (T, B) -> bool) {
    && lineage.Keys == tickets.Keys
    && (forall d | d in lineage :: lineage[d] < |begins| && fits(tickets[d], begins[lineage[d]]))
    && (forall d, e | d in lineage && e in lineage && lineage[d] == lineage[e] :: d == e)
  }

  /** Every end follows a beginning of its own, to which no ticket goes back any more. */
  ghost predicate Ends<E, B>(lineage: map<Name, nat>, ends: seq<E>, begins: seq<B>, beginOf: E -> nat,
      follows: (E, B) -> bool)
  {
    && (forall i | 0 <= i < |ends| :: beginOf(ends[i]) < |begins| && follows(ends[i], begins[beginOf(ends[i])]))
    && (forall i, j | 0 <= i < j < |ends| :: beginOf(ends[i]) != beginOf(ends[j]))
    && (forall i, d | 0 <= i < |ends| && d in lineage :: lineage[d] != beginOf(ends[i]))
  }

  ghost predicate IsLineage<T, B, E>(tickets: map<Name, T>, lineage: map<Name, nat>, begins: seq<B>, ends: seq<E>,
      fits: (T, B) -> bool, beginOf: E -> nat, follows: (E, B) -> bool)
  {
    && Lines(tickets, lineage, begins, fits) && Ends(lineage, ends, begins, beginOf, follows)
    && |tickets| + |ends| <= |begins|
  }

  lemma RemoveOne<K, V>(m: map<K, V>, k: K)
    requires k in m
    ensures |m - {k}| == |m| - 1
  {
    assert (m - {k})[k := m[k]] == m;
  }

  lemma Begin<T, B, E>(tickets: map<Name, T>, lineage: map<Name, nat>, begins: seq<B>, ends: seq<E>,
      fits: (T, B) -> bool, beginOf: E -> nat, follows: (E, B) -> bool, d: Name, t: T, b: B)
    requires IsLineage(tickets, lineage, begins, ends, fits, beginOf, follows) && d !in tickets && fits(t, b)
    ensures IsLineage(tickets[d := t], lineage[d := |begins|], begins + [b], ends, fits, beginOf, follows)
  {
    assert d !in lineage;
  }

  /** A ticket is replaced by another that fits what is known of its beginning by then. */
  lemma Replace<T, B, E>(tickets: map<Name, T>, lineage: map<Name, nat>, begins: seq<B>, ends: seq<E>,
      fits: (T, B) -> bool, beginOf: E -> nat, follows: (E, B) -> bool, d: Name, t: T, b: B)
    requires IsLineage(tickets, lineage, begins, ends, fits, beginOf, follows) && d in lineage && fits(t, b)
    ensures IsLineage(tickets[d := t], lineage, begins[lineage[d] := b], ends, fits, beginOf, follows)
  {
    assert tickets[d := t].Keys == tickets.Keys;
  }

  lemma MoveLine<T, B>(tickets: map<Name, T>, lineage: map<Name, nat>, begins: seq<B>, fits: (T, B) -> bool, d: Name,
      next: Name, t: T, b: B)
    requires Lines(tickets, lineage, begins, fits) && d in lineage && next !in tickets && fits(t, b)
    ensures Lines((tickets - {d})[next := t], (lineage - {d})[next := lineage[d]], begins[lineage[d] := b], fits)
  {
    var left := lineage - {d};
    assert forall e | e in left :: left[e] != lineage[d];
  }

  /** A ticket is given up for one under a new name. */
  lemma Move<T, B, E>(tickets: map<Name, T>, lineage: map<Name, nat>, begins: seq<B>, ends: seq<E>,
      fits: (T, B) -> bool, beginOf: E -> nat, follows: (E, B) -> bool, d: Name, next: Name, t: T, b: B)
    requires IsLineage(tickets, lineage, begins, ends, fits, beginOf, follows) && d in lineage && next !in tickets
    requires fits(t, b)
    ensures IsLineage((tickets - {d})[next := t], (lineage - {d})[next := lineage[d]], begins[lineage[d] := b], ends,
        fits, beginOf, follows)
  {
    RemoveOne(tickets, d);
    MoveLine(tickets, lineage, begins, fits, d, next, t, b);
  }

  /** A ticket is given up for an end. */
  lemma End<T, B, E>(tickets: map<Name, T>, lineage: map<Name, nat>, begins: seq<B>, ends: seq<E>,
      fits: (T, B) -> bool, beginOf: E -> nat, follows: (E, B) -> bool, d: Name, e: E)
    requires IsLineage(tickets, lineage, begins, ends, fits, beginOf, follows) && d in lineage
    requires beginOf(e) == lineage[d] && follows(e, begins[lineage[d]])
    ensures IsLineage(tickets - {d}, lineage - {d}, begins, ends + [e], fits, beginOf, follows)
  {
    RemoveOne(tickets, d);
    var left := lineage - {d};
    assert forall x | x in left :: left[x] != lineage[d];
  }
}
