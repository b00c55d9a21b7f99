/** Loops that visit the keys of a map in an arbitrary order and rewrite each
    entry by itself end in the same map, whatever the order. */
module MapLoops {

  /** The entries in `todo` are still as in `before`, the others as in `after`. */
  ghost predicate Partway<V(!new)>(
      before: map<string, V>, after: map<string, V>, now: map<string, V>, todo: set<string>)
  {
    && now.Keys == before.Keys == after.Keys
    && todo <= before.Keys
    && forall id | id in before :: now[id] == if id in todo then before[id] else after[id]
  }

  lemma Begin<V(!new)>(before: map<string, V>, after: map<string, V>)
    requires before.Keys == after.Keys
    ensures Partway(before, after, before, before.Keys)
  {}

  lemma Visit<V(!new)>(
      before: map<string, V>, after: map<string, V>, now: map<string, V>, todo: set<string>, id: string,
      next: map<string, V>)
    requires Partway(before, after, now, todo) && id in todo
    requires next == now[id := after[id]] || (next == now && after[id] == before[id])
    ensures Partway(before, after, next, todo - {id})
    ensures now[id] == before[id]
  {}

  lemma Complete<V(!new)>(before: map<string, V>, after: map<string, V>, now: map<string, V>)
    requires Partway(before, after, now, {})
    ensures now == after
  {}
}
