/** The per-resource ListerWatcher override table.

A caller may name, per API group and resource, a ListerWatcher that
replaces the one normally backed by the API server (authentication and
authorization kinds, for instance, read straight from storage). The
table is read-only: the only operation is a lookup that answers either
the configured ListerWatcher or nil.
 */
module ListerWatcherOverrides {

  /** The identity of a resource: its API group and its plural resource name. */
  datatype GroupResource = GroupResource(group: string, resource: string)

  /** A ListerWatcher interface value: either nil or a concrete source,
      kept opaque as `W`. A stored entry may itself be nil. */
  datatype ListerWatcher<W> = Nil | Watcher(source: W)

  /** The default override table. A nil Go map reads like the empty map. */
  type Overrides<W> = map<GroupResource, ListerWatcher<W>>

  /** The ListerWatcher configured for `resource`, or nil when the table
      has no entry for it (the zero value of a Go map read). */
  function GetListerWatcher<W>(o: Overrides<W>, resource: GroupResource): (lw: ListerWatcher<W>)
    ensures resource in o ==> lw == o[resource]
    ensures resource !in o ==> lw == Nil
  {
    if resource in o then o[resource] else Nil
  }

  /** An override is in effect exactly when the table holds a non-nil
      entry for the resource; and then it is that entry's source. */
  lemma OverriddenIff<W>(o: Overrides<W>, resource: GroupResource)
    ensures GetListerWatcher(o, resource).Watcher?
            <==> resource in o && o[resource].Watcher?
    ensures GetListerWatcher(o, resource).Watcher? ==>
              o[resource] == Watcher(GetListerWatcher(o, resource).source)
  {
  }

  /** The lookup behaves as a store: the empty table overrides nothing,
      an entry answers for its own resource, and an entry for one
      resource leaves every other resource's answer alone. */
  lemma LookupLaws<W>(o: Overrides<W>, r: GroupResource, r': GroupResource, lw: ListerWatcher<W>)
    ensures GetListerWatcher<W>(map[], r) == Nil
    ensures GetListerWatcher(o[r := lw], r) == lw
    ensures r' != r ==> GetListerWatcher(o[r' := lw], r) == GetListerWatcher(o, r)
  {
  }
}
