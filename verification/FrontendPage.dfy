/** The session object itself, updated in place under its lock. */
module FrontendPage {
  import opened Wrappers
  import opened FrontendSnapshots

  class FrontendSession {
    var snapshotId: Option<SnapshotId>
    var documentToken: Token
    var registry: map<ElementId, Node>
    var reverseRegistry: map<Node, ElementId>
    var nextElement: ElementId
    var acts: seq<Act>
    ghost var issued: set<SnapshotId>
    ghost var effects: multiset<SnapshotId>

    ghost function State(): FrontendSnapshots.State
      reads this
    {
      FrontendSnapshots.State(snapshotId, documentToken, RegistryNow(), acts, issued, effects)
    }

    ghost function RegistryNow(): Registry
      reads this`registry, this`reverseRegistry, this`nextElement
    {
      Registry(registry, reverseRegistry, nextElement)
    }

    constructor ()
      ensures State() == Initial()
    {
      snapshotId, documentToken := None, "";
      registry, reverseRegistry, nextElement := map[], map[], 1;
      acts, issued, effects := [], {}, multiset{};
    }

    method Register(node: Node)
      modifies this`registry, this`reverseRegistry, this`nextElement
      ensures RegistryNow() == Registered(old(RegistryNow()), node)
    {
      if node !in reverseRegistry {
        registry := registry[nextElement := node];
        reverseRegistry := reverseRegistry[node := nextElement];
        nextElement := nextElement + 1;
      }
    }

    /** A new capture: new ids for its nodes, then its elements by those ids. */
    method Snapshot(id: SnapshotId, token: Token, items: seq<Item>) returns (elements: seq<Element>)
      modifies this
      ensures State() == AfterSnapshot(old(State()), id, token, items)
      ensures elements == Elements(RegistryNow(), items)
    {
      snapshotId, documentToken := Some(id), token;
      registry, reverseRegistry, nextElement := map[], map[], 1;
      issued := issued + {id};
      for k := 0 to |items|
        invariant RegistryNow() == RegisterAll(items[..k])
        invariant snapshotId == Some(id) && documentToken == token && acts == old(acts)
        invariant issued == old(issued) + {id} && effects == old(effects)
      {
        assert items[..k + 1][..k] == items[..k];
        if items[k].node.Some? {
          Register(items[k].node.value);
        }
      }
      assert items[..|items|] == items;
      elements := [];
      for k := 0 to |items|
        invariant elements == Elements(RegistryNow(), items[..k])
      {
        assert items[..k + 1][..k] == items[..k];
        var item := items[k];
        if item.node.Some? && item.node.value in reverseRegistry {
          var parent := if item.parent.Some? && item.parent.value in reverseRegistry
            then Some(reverseRegistry[item.parent.value]) else None;
          elements := elements + [Element(reverseRegistry[item.node.value], parent)];
        }
      }
    }

    method InvalidateSnapshot()
      modifies this`snapshotId, this`registry, this`reverseRegistry
      ensures State() == Invalidated(old(State()))
    {
      snapshotId := None;
      registry, reverseRegistry := map[], map[];
    }

    /** The snapshot has to be the last one, of the document as it is now. */
    method RequireSnapshot(id: SnapshotId, token: Token) returns (ok: bool)
      modifies this`snapshotId, this`registry, this`reverseRegistry
      ensures ok == Fresh(old(State()), id, token)
      ensures State() == Required(old(State()), id, token)
    {
      if snapshotId != Some(id) {
        return false;
      }
      if documentToken != token {
        InvalidateSnapshot();
        return false;
      }
      return true;
    }

    /** Which element was inspected: the one named, or the one found at the
      coordinates, which is registered if it is new. */
    method Inspect(id: SnapshotId, element: Option<ElementId>, inside: bool, token: Token, found: Option<Node>,
                   during: Token)
      returns (shown: Option<ElementId>)
      modifies this`snapshotId, this`registry, this`reverseRegistry, this`nextElement
      ensures State() == AfterInspect(old(State()), id, element, inside, token, found, during)
      ensures shown.Some? <==>
        && Fresh(old(State()), id, token) && Fresh(old(State()), id, during) && found.Some?
        && (if element.Some? then element.value in old(registry) else inside)
      ensures shown.Some? && element.Some? ==> shown == element
      ensures shown.Some? && element.None? ==> found.value in reverseRegistry && shown.value == reverseRegistry[found.value]
    {
      var ok := RequireSnapshot(id, token);
      if !ok || (element.Some? && element.value !in registry) || (element.None? && !inside) {
        return None;
      }
      ok := RequireSnapshot(id, during);
      if !ok || found.None? {
        return None;
      }
      if element.Some? {
        return element;
      }
      Register(found.value);
      return Some(reverseRegistry[found.value]);
    }

    /** Carry an action out once; afterwards the snapshot is spent. */
    method Perform(r: ActRequest, token: Token, outcome: Outcome) returns (reply: Reply)
      modifies this
      ensures reply == ReplyToAct(old(State()), r, token, outcome)
      ensures State() == AfterAct(old(State()), r, token, outcome)
    {
      hide Find;
      var prior := Find(acts, r.key);
      if prior.Some? {
        return if prior.value.request != r then Conflict else if prior.value.done then Completed else OutcomeUnknown;
      }
      var ok := RequireSnapshot(r.snapshot, token);
      if !ok {
        return Stale;
      }
      if r.element !in registry {
        return NotFound;
      }
      if outcome.NoEffect? {
        return Failed;
      }
      acts := acts + [Act(r, outcome.Done?)];
      if |acts| > MAX_ACTS {
        acts := acts[1..];
      }
      effects := effects + multiset{r.snapshot};
      InvalidateSnapshot();
      return if outcome.Done? then Completed else OutcomeUnknown;
    }
  }
}
