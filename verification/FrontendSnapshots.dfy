/** The element registry of one frontend session, and the actions it lets through.
  Operations of a session run one at a time under its lock; between two of them,
  and while the browser works, the page may navigate, so every check reads the
  page's document token afresh. */
module FrontendSnapshots {
  import opened Wrappers

  const MAX_ACTS := 128

  type SnapshotId = string
  type Node = int
  /** The `n` of element `e<n>`. */
  type ElementId = nat
  type Token = string

  /** A captured element; the browser may not have resolved its node. */
  datatype Item = Item(node: Option<Node>, parent: Option<Node>)

  datatype Element = Element(id: ElementId, parent: Option<ElementId>)

  /** An action request, identified by its whole content. */
  datatype ActRequest = ActRequest(key: string, snapshot: SnapshotId, element: ElementId, action: string)

  /** What the journal of actions remembers: done, or of unknown outcome. */
  datatype Act = Act(request: ActRequest, done: bool)

  /** What the browser says about an action. */
  datatype Outcome = NoEffect | Done | Unknown

  datatype Reply = Completed | Conflict | OutcomeUnknown | Stale | NotFound | Failed

  /** Ids and nodes, both ways, and the next id. */
  datatype Registry = Registry(nodes: map<ElementId, Node>, ids: map<Node, ElementId>, next: ElementId)

  const EMPTY := Registry(map[], map[], 1)

  function Registered(r: Registry, node: Node): Registry {
    if node in r.ids then r
    else Registry(r.nodes[r.next := node], r.ids[node := r.next], r.next + 1)
  }

  function RegisterAll(items: seq<Item>): Registry {
    if items == [] then EMPTY
    else
      var r, item := RegisterAll(items[..|items| - 1]), items[|items| - 1];
      if item.node.None? then r else Registered(r, item.node.value)
  }

  function IdOf(r: Registry, node: Option<Node>): Option<ElementId> {
    if node.Some? && node.value in r.ids then Some(r.ids[node.value]) else None
  }

  function Elements(r: Registry, items: seq<Item>): seq<Element> {
    if items == [] then []
    else
      var before, item := Elements(r, items[..|items| - 1]), items[|items| - 1];
      if IdOf(r, item.node).Some? then before + [Element(IdOf(r, item.node).value, IdOf(r, item.parent))] else before
  }

  /** The session, and two histories: the snapshots issued, and how often an
    action on each of them may have changed the page. */
  datatype State = State(snapshot: Option<SnapshotId>, token: Token, registry: Registry, acts: seq<Act>,
                         issued: set<SnapshotId>, effects: multiset<SnapshotId>)

  function Initial(): State {
    State(None, "", EMPTY, [], {}, multiset{})
  }

  function Invalidated(s: State): State {
    s.(snapshot := None, registry := Registry(map[], map[], s.registry.next))
  }

  function AfterSnapshot(s: State, id: SnapshotId, token: Token, items: seq<Item>): State {
    s.(snapshot := Some(id), token := token, registry := RegisterAll(items), issued := s.issued + {id})
  }

  predicate Fresh(s: State, id: SnapshotId, token: Token) {
    s.snapshot == Some(id) && s.token == token
  }

  /** A snapshot that the page has left is forgotten. */
  function Required(s: State, id: SnapshotId, token: Token): State {
    if s.snapshot == Some(id) && s.token != token then Invalidated(s) else s
  }

  /** Inspecting by element, or by coordinates; `found` is the browser's answer,
    `during` the document token once it has answered. */
  function AfterInspect(s: State, id: SnapshotId, element: Option<ElementId>, inside: bool, token: Token,
                        found: Option<Node>, during: Token): State
  {
    if !Fresh(s, id, token) then Required(s, id, token)
    else if element.Some? && element.value !in s.registry.nodes then s
    else if element.None? && !inside then s
    else if !Fresh(s, id, during) then Required(s, id, during)
    else if found.None? || element.Some? then s
    else s.(registry := Registered(s.registry, found.value))
  }

  function Find(acts: seq<Act>, key: string): Option<Act> {
    if acts == [] then None
    else if acts[0].request.key == key then Some(acts[0]) else Find(acts[1..], key)
  }

  function Bounded(acts: seq<Act>): seq<Act> {
    if |acts| > MAX_ACTS then acts[1..] else acts
  }

  /** Whether the request reaches the browser, and what is answered if not. */
  function Screened(s: State, r: ActRequest, token: Token): Option<Reply> {
    var prior := Find(s.acts, r.key);
    if prior.Some? then
      Some(if prior.value.request != r then Conflict else if prior.value.done then Completed else OutcomeUnknown)
    else if !Fresh(s, r.snapshot, token) then Some(Stale)
    else if r.element !in s.registry.nodes then Some(NotFound)
    else None
  }

  function AfterAct(s: State, r: ActRequest, token: Token, outcome: Outcome): State {
    if Screened(s, r, token).Some? then
      if Find(s.acts, r.key).Some? then s else Required(s, r.snapshot, token)
    else if outcome.NoEffect? then s
    else
      Invalidated(s.(acts := Bounded(s.acts + [Act(r, outcome.Done?)]), effects := s.effects + multiset{r.snapshot}))
  }

  function ReplyToAct(s: State, r: ActRequest, token: Token, outcome: Outcome): Reply {
    match Screened(s, r, token)
    case Some(reply) => reply
    case None => if outcome.Done? then Completed else if outcome.Unknown? then OutcomeUnknown else Failed
  }

  datatype Event =
    | Snapshot(id: SnapshotId, token: Token, items: seq<Item>)
    | Inspect(id: SnapshotId, element: Option<ElementId>, inside: bool, token: Token, found: Option<Node>, during: Token)
    | Perform(request: ActRequest, token: Token, outcome: Outcome)

  function Next(s: State, e: Event): State {
    match e
    case Snapshot(id, token, items) => if id in s.issued then s else AfterSnapshot(s, id, token, items)
    case Inspect(id, element, inside, token, found, during) => AfterInspect(s, id, element, inside, token, found, during)
    case Perform(r, token, outcome) => AfterAct(s, r, token, outcome)
  }

  function Run(s: State, events: seq<Event>): State {
    if events == [] then s else Next(Run(s, events[..|events| - 1]), events[|events| - 1])
  }

  /** Ids and nodes are mutual inverses, and every id was handed out. */
  ghost predicate Inverse(r: Registry) {
    && (forall e :: e in r.nodes ==> 1 <= e < r.next && r.nodes[e] in r.ids && r.ids[r.nodes[e]] == e)
    && (forall n :: n in r.ids ==> r.ids[n] in r.nodes && r.nodes[r.ids[n]] == n)
    && 1 <= r.next
  }

  /** A snapshot is spent by its first effect, and every remembered action spent one. */
  ghost predicate Spent(s: State) {
    && (forall id :: s.effects[id] <= 1)
    && (s.snapshot.Some? ==> s.snapshot.value in s.issued && s.effects[s.snapshot.value] == 0)
    && (forall id :: s.effects[id] > 0 ==> id in s.issued)
    && (forall i :: 0 <= i < |s.acts| ==> s.effects[s.acts[i].request.snapshot] == 1)
    && |s.acts| <= MAX_ACTS
  }

  ghost predicate Orderly(s: State) {
    Inverse(s.registry) && Spent(s)
  }

  lemma RegisteredKeepsInverse(r: Registry, node: Node)
    requires Inverse(r)
    ensures Inverse(Registered(r, node)) && node in Registered(r, node).ids
    ensures forall e :: e in r.nodes ==> e in Registered(r, node).nodes && Registered(r, node).nodes[e] == r.nodes[e]
  {
  }

  /** A capture registers exactly the nodes it resolved, each under one new id. */
  lemma {:induction false} RegisterAllCovers(items: seq<Item>)
    ensures Inverse(RegisterAll(items))
    ensures forall i :: 0 <= i < |items| && items[i].node.Some? ==> items[i].node.value in RegisterAll(items).ids
    ensures forall n :: n in RegisterAll(items).ids ==> exists i :: 0 <= i < |items| && items[i].node == Some(n)
  {
    if items != [] {
      var last := |items| - 1;
      var before, item := items[..last], items[last];
      RegisterAllCovers(before);
      var r := RegisterAll(before);
      if item.node.Some? {
        RegisteredKeepsInverse(r, item.node.value);
      }
      forall n | n in RegisterAll(items).ids ensures exists i :: 0 <= i < |items| && items[i].node == Some(n) {
        if n in r.ids {
          var i :| 0 <= i < last && before[i].node == Some(n);
          assert items[i].node == Some(n);
        } else {
          assert items[last].node == Some(n);
        }
      }
    }
  }

  predicate Names(r: Registry, element: Element, item: Item) {
    element.id in r.nodes && item.node == Some(r.nodes[element.id]) && element.parent == IdOf(r, item.parent)
  }

  /** The elements of a capture, in its order, name the nodes they came from. */
  lemma {:induction false} ElementsName(r: Registry, items: seq<Item>, k: nat)
    requires Inverse(r) && k < |Elements(r, items)|
    ensures Elements(r, items)[k].id in r.nodes
    ensures exists i :: 0 <= i < |items| && Names(r, Elements(r, items)[k], items[i])
  {
    var last := |items| - 1;
    if k < |Elements(r, items[..last])| {
      ElementsName(r, items[..last], k);
      var i :| 0 <= i < last && Names(r, Elements(r, items[..last])[k], items[..last][i]);
      assert items[i] == items[..last][i];
    } else {
      var n := items[last].node.value;
      assert k == |Elements(r, items[..last])| && n in r.ids;
      assert Elements(r, items)[k] == Element(r.ids[n], IdOf(r, items[last].parent));
      assert Names(r, Elements(r, items)[k], items[last]);
    }
  }

  lemma {:induction false} FoundActSpent(s: State, acts: seq<Act>, key: string)
    requires forall i :: 0 <= i < |acts| ==> s.effects[acts[i].request.snapshot] == 1
    ensures Find(acts, key).Some? ==>
      Find(acts, key).value.request.key == key && s.effects[Find(acts, key).value.request.snapshot] == 1
  {
    if acts != [] && acts[0].request.key != key {
      FoundActSpent(s, acts[1..], key);
    }
  }

  lemma InvalidatedKeepsOrderly(s: State)
    requires Orderly(s)
    ensures Orderly(Invalidated(s))
  {
  }

  lemma ActKeepsOrderly(s: State, r: ActRequest, token: Token, outcome: Outcome)
    requires Orderly(s)
    ensures Orderly(AfterAct(s, r, token, outcome))
  {
    hide Inverse, Find;
    assert Inverse(Invalidated(s).registry) by { InvalidatedKeepsOrderly(s); }
    if Screened(s, r, token).None? && !outcome.NoEffect? {
      var acts := s.acts + [Act(r, outcome.Done?)];
      assert forall i :: 0 <= i < |acts| ==> s.effects[acts[i].request.snapshot] == 1 || acts[i].request.snapshot == r.snapshot;
    }
  }

  lemma NextKeepsOrderly(s: State, e: Event)
    requires Orderly(s)
    ensures Orderly(Next(s, e))
  {
    hide Spent, Inverse, AfterAct, RegisterAll, Registered;
    InvalidatedKeepsOrderly(s);
    match e
    case Snapshot(id, token, items) =>
      if id !in s.issued {
        RegisterAllCovers(items);
        SnapshotSpendsNothing(s, id, token, items);
      }
    case Inspect(id, element, inside, token, found, during) =>
      if found.Some? {
        RegisteredKeepsInverse(s.registry, found.value);
        RegistrySpendsNothing(s, Registered(s.registry, found.value));
      }
    case Perform(r, token, outcome) => ActKeepsOrderly(s, r, token, outcome);
  }

  lemma SnapshotSpendsNothing(s: State, id: SnapshotId, token: Token, items: seq<Item>)
    requires Spent(s) && id !in s.issued
    ensures Spent(AfterSnapshot(s, id, token, items))
  {
  }

  lemma RegistrySpendsNothing(s: State, r: Registry)
    requires Spent(s)
    ensures Spent(s.(registry := r))
  {
  }

  /** Over every run, each snapshot lets at most one action change the page, and
    element ids and nodes stay mutual inverses. */
  lemma {:induction false} EveryRunIsOrderly(events: seq<Event>)
    ensures Orderly(Run(Initial(), events))
  {
    hide Next;
    if events != [] {
      EveryRunIsOrderly(events[..|events| - 1]);
      NextKeepsOrderly(Run(Initial(), events[..|events| - 1]), events[|events| - 1]);
    }
  }

  /** Effects are never forgotten. */
  lemma {:induction false} EffectsStay(s: State, events: seq<Event>, id: SnapshotId)
    ensures Run(s, events).effects[id] >= s.effects[id]
  {
    if events != [] {
      EffectsStay(s, events[..|events| - 1], id);
    }
  }

  /** A request that took effect once is never carried out again, however late it
    is repeated and whether or not the journal of actions still remembers it; once
    forgotten, it is refused as stale. */
  lemma RepeatedRequestIsRefused(events: seq<Event>, later: seq<Event>, r: ActRequest, token: Token, outcome: Outcome,
                                 again: Token, whatever: Outcome)
    requires var s := Run(Initial(), events); Screened(s, r, token).None? && !outcome.NoEffect?
    ensures var s := Run(AfterAct(Run(Initial(), events), r, token, outcome), later);
      && Screened(s, r, again).Some?
      && AfterAct(s, r, again, whatever).effects == s.effects
      && (Find(s.acts, r.key).None? ==> ReplyToAct(s, r, again, whatever) == Stale)
  {
    hide Run, Inverse, Find, Initial;
    var before := Run(Initial(), events);
    var first := AfterAct(before, r, token, outcome);
    EveryRunIsOrderly(events);
    ActKeepsOrderly(before, r, token, outcome);
    assert first.effects[r.snapshot] > 0;
    EffectsStay(first, later, r.snapshot);
    RunKeepsOrderly(first, later);
  }

  lemma {:induction false} RunKeepsOrderly(s: State, events: seq<Event>)
    requires Orderly(s)
    ensures Orderly(Run(s, events))
  {
    hide Next, Orderly;
    if events != [] {
      RunKeepsOrderly(s, events[..|events| - 1]);
      NextKeepsOrderly(Run(s, events[..|events| - 1]), events[|events| - 1]);
    }
  }

  lemma StepKeepsNode(s: State, e: Event, id: SnapshotId, element: ElementId)
    requires Orderly(s) && s.snapshot == Some(id) && element in s.registry.nodes
    requires Next(s, e).snapshot == Some(id)
    ensures element in Next(s, e).registry.nodes && Next(s, e).registry.nodes[element] == s.registry.nodes[element]
  {
    hide RegisterAll, Find, Inverse, Registered;
    if e.Inspect? && e.found.Some? {
      RegisteredKeepsInverse(s.registry, e.found.value);
    }
  }

  /** A snapshot id is issued once: when the session has left it, it stays left. */
  lemma StepIssuesAnew(s: State, e: Event, id: SnapshotId)
    requires id in s.issued
    ensures id in Next(s, e).issued && (Next(s, e).snapshot == Some(id) ==> s.snapshot == Some(id))
  {
    hide RegisterAll, Find, Registered;
  }

  lemma {:induction false} IssuedStays(s: State, events: seq<Event>, id: SnapshotId)
    requires id in s.issued
    ensures id in Run(s, events).issued
  {
    hide Next;
    if events != [] {
      IssuedStays(s, events[..|events| - 1], id);
      StepIssuesAnew(Run(s, events[..|events| - 1]), events[|events| - 1], id);
    }
  }

  /** However long a session goes on: while it still is at the snapshot that gave
    an element id, the id names the node it was given for. */
  lemma {:induction false} IdsKeepTheirNode(s: State, events: seq<Event>, id: SnapshotId, element: ElementId)
    requires Orderly(s) && s.snapshot == Some(id) && element in s.registry.nodes
    requires Run(s, events).snapshot == Some(id)
    ensures element in Run(s, events).registry.nodes
    ensures Run(s, events).registry.nodes[element] == s.registry.nodes[element]
  {
    hide Next, Inverse;
    if events != [] {
      var u, e := Run(s, events[..|events| - 1]), events[|events| - 1];
      IssuedStays(s, events[..|events| - 1], id);
      StepIssuesAnew(u, e, id);
      RunKeepsOrderly(s, events[..|events| - 1]);
      IdsKeepTheirNode(s, events[..|events| - 1], id, element);
      StepKeepsNode(u, e, id, element);
    }
  }
}
