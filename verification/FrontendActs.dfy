/** What a capture shows and how an action is answered, told by the captured
  nodes and by the actions of the run. */
module FrontendActs {
  import opened Wrappers
  import opened FrontendSnapshots
  import opened Sequences

  // Captures

  /** The browser resolved the node, and the registry has it. */
  predicate Shown(r: Registry, item: Item) {
    item.node.Some? && item.node.value in r.ids
  }

  predicate Skipped(r: Registry, items: seq<Item>, f: seq<nat>, i: nat) {
    i < |items| && Shown(r, items[i]) && i !in f
  }

  predicate NamesAt(r: Registry, elements: seq<Element>, items: seq<Item>, f: seq<nat>, k: nat) {
    k < |f| == |elements| ==> f[k] < |items| && Names(r, elements[k], items[f[k]])
  }

  /** The elements are, in order, the shown items, each by the id of its node. */
  ghost predicate Lists(r: Registry, elements: seq<Element>, items: seq<Item>, f: seq<nat>) {
    && |f| == |elements| && Increasing(f)
    && (forall k :: NamesAt(r, elements, items, f, k))
    && forall i :: !Skipped(r, items, f, i)
  }

  lemma ShownIsNamed(r: Registry, item: Item)
    requires Inverse(r) && Shown(r, item)
    ensures Names(r, Element(r.ids[item.node.value], IdOf(r, item.parent)), item)
  {
    var n := item.node.value;
    assert n in r.ids;
    assert r.ids[n] in r.nodes && r.nodes[r.ids[n]] == n;
    assert item.node == Some(n);
  }

  lemma SkippedElement(r: Registry, earlier: seq<Element>, items: seq<Item>, g: seq<nat>, item: Item)
    requires Lists(r, earlier, items, g) && !Shown(r, item)
    ensures Lists(r, earlier, items + [item], g)
  {
    hide Names;
    forall k: nat ensures NamesAt(r, earlier, items + [item], g, k) {
      assert NamesAt(r, earlier, items, g, k);
    }
    forall i: nat ensures !Skipped(r, items + [item], g, i) {
      assert !Skipped(r, items, g, i);
    }
  }

  lemma NextElement(r: Registry, earlier: seq<Element>, items: seq<Item>, g: seq<nat>, item: Item, element: Element)
    requires Lists(r, earlier, items, g) && Names(r, element, item)
    requires forall k :: 0 <= k < |g| ==> g[k] < |items|
    ensures Lists(r, earlier + [element], items + [item], g + [|items|])
  {
    hide Names, Shown;
    var f, all, elements := g + [|items|], items + [item], earlier + [element];
    forall k: nat ensures NamesAt(r, elements, all, f, k) {
      assert NamesAt(r, earlier, items, g, k);
    }
    forall i: nat ensures !Skipped(r, all, f, i) {
      assert !Skipped(r, items, g, i);
      if i in g {
        var k :| 0 <= k < |g| && g[k] == i;
        assert f[k] == i;
      }
      assert f[|g|] == |items|;
    }
  }

  lemma {:induction false} ElementsAreShown(r: Registry, items: seq<Item>) returns (f: seq<nat>)
    requires Inverse(r)
    ensures Lists(r, Elements(r, items), items, f)
    ensures forall k :: 0 <= k < |f| ==> f[k] < |items|
  {
    hide Inverse, Lists, Names;
    if items == [] {
      f := [];
      assert Lists(r, [], [], []) by { NothingListed(r); }
    } else {
      var last := |items| - 1;
      var before, item := items[..last], items[last];
      var g := ElementsAreShown(r, before);
      assert items == before + [item];
      if Shown(r, item) {
        ShownIsNamed(r, item);
        f := g + [last];
        NextElement(r, Elements(r, before), before, g, item, Element(r.ids[item.node.value], IdOf(r, item.parent)));
      } else {
        f := g;
        SkippedElement(r, Elements(r, before), before, g, item);
      }
    }
  }

  lemma NothingListed(r: Registry)
    ensures Lists(r, [], [], [])
  {
  }

  /** An id is that of its node, and a node without an id is not registered. */
  lemma IdOfMeans(r: Registry, node: Option<Node>, id: ElementId)
    requires Inverse(r)
    ensures IdOf(r, node) == Some(id) <==> node.Some? && id in r.nodes && r.nodes[id] == node.value
  {
  }

  /** A capture returns every element whose node the browser resolved, in order,
    and nothing else; two of them have the same id only for the same node. */
  lemma CaptureIsComplete(items: seq<Item>) returns (f: seq<nat>)
    ensures var r := RegisterAll(items);
      Inverse(r) && Lists(r, Elements(r, items), items, f) && forall i :: 0 <= i < |items| ==> (i in f <==> items[i].node.Some?)
  {
    var r := RegisterAll(items);
    RegisterAllCovers(items);
    f := ElementsAreShown(r, items);
    forall i: nat | i < |items| ensures i in f <==> items[i].node.Some? {
      assert !Skipped(r, items, f, i);
      if i in f {
        var k :| 0 <= k < |f| && f[k] == i;
        assert NamesAt(r, Elements(r, items), items, f, k);
      }
    }
  }

  // Actions

  /** An action gets to the browser when its key is new, the snapshot is the last
    one, of the document as it is, and has the element. */
  predicate Reaches(s: State, r: ActRequest, token: Token) {
    && (forall i :: 0 <= i < |s.acts| ==> s.acts[i].request.key != r.key)
    && s.snapshot == Some(r.snapshot) && s.token == token && r.element in s.registry.nodes
  }

  /** No key is remembered twice. */
  ghost predicate KeysOnce(acts: seq<Act>) {
    forall i, j :: 0 <= i < j < |acts| ==> acts[i].request.key != acts[j].request.key
  }

  /** What an action is answered, from what is remembered and what the browser says. */
  ghost predicate Answered(s: State, r: ActRequest, token: Token, outcome: Outcome, reply: Reply) {
    if Reaches(s, r, token) then
      match outcome
      case Done => reply == Completed
      case Unknown => reply == OutcomeUnknown
      case NoEffect => reply == Failed
    else
      match reply
      case Completed => Act(r, true) in s.acts
      case OutcomeUnknown => Act(r, false) in s.acts
      case Conflict => exists a :: a in s.acts && a.request.key == r.key && a.request != r
      case Stale =>
        (forall a :: a in s.acts ==> a.request.key != r.key) && (s.snapshot != Some(r.snapshot) || s.token != token)
      case NotFound =>
        && (forall a :: a in s.acts ==> a.request.key != r.key)
        && s.snapshot == Some(r.snapshot) && s.token == token && r.element !in s.registry.nodes
      case Failed => false
  }

  lemma {:induction false} FindMeans(acts: seq<Act>, key: string)
    ensures Find(acts, key).None? <==> forall i :: 0 <= i < |acts| ==> acts[i].request.key != key
    ensures Find(acts, key).Some? ==> Find(acts, key).value in acts && Find(acts, key).value.request.key == key
    ensures KeysOnce(acts) ==> forall a :: a in acts && a.request.key == key ==> Find(acts, key) == Some(a)
  {
    if acts != [] {
      FindMeans(acts[1..], key);
      assert forall i :: 0 < i < |acts| ==> acts[i] == acts[1..][i - 1];
      assert KeysOnce(acts) ==> KeysOnce(acts[1..]);
    }
  }

  lemma AnswerMeans(s: State, r: ActRequest, token: Token, outcome: Outcome)
    ensures Answered(s, r, token, outcome, ReplyToAct(s, r, token, outcome))
    ensures Screened(s, r, token).None? <==> Reaches(s, r, token)
  {
    hide Find;
    FindMeans(s.acts, r.key);
  }

  lemma StepRemembersOnce(s: State, e: Event)
    requires KeysOnce(s.acts)
    ensures KeysOnce(Next(s, e).acts)
  {
    hide Find, RegisterAll, Registered, Inverse;
    if e.Perform? { FindMeans(s.acts, e.request.key); }
  }

  lemma {:induction false} EveryRunRemembersOnce(s: State, events: seq<Event>)
    requires KeysOnce(s.acts)
    ensures KeysOnce(Run(s, events).acts)
  {
    hide Next, KeysOnce;
    if events != [] {
      EveryRunRemembersOnce(s, events[..|events| - 1]);
      StepRemembersOnce(Run(s, events[..|events| - 1]), events[|events| - 1]);
    }
  }

  /** How many actions have taken effect since. */
  function Since(s: State, u: State): int {
    |u.effects| - |s.effects|
  }

  /** The act is still in its place, counted from the last one. */
  ghost predicate Remembered(s: State, u: State, a: Act) {
    && Since(s, u) >= 0
    && (Since(s, u) < MAX_ACTS ==> |u.acts| > Since(s, u) && u.acts[|u.acts| - 1 - Since(s, u)] == a)
  }

  lemma StepRemembers(s: State, u: State, e: Event, a: Act)
    requires Remembered(s, u, a) && |u.acts| <= MAX_ACTS
    ensures Remembered(s, Next(u, e), a) && |Next(u, e).acts| <= MAX_ACTS
  {
    hide Find, RegisterAll, Registered, Inverse, Screened;
  }

  lemma {:induction false} RunRemembers(s: State, events: seq<Event>, a: Act)
    requires s.acts != [] && s.acts[|s.acts| - 1] == a && |s.acts| <= MAX_ACTS
    ensures Remembered(s, Run(s, events), a) && |Run(s, events).acts| <= MAX_ACTS
  {
    hide Next;
    if events != [] {
      RunRemembers(s, events[..|events| - 1], a);
      StepRemembers(s, Run(s, events[..|events| - 1]), events[|events| - 1], a);
    }
  }

  /** Repeated within the next 127 effects, however the page has changed, an
    action that took effect is answered as the first time and nothing happens; its
    key used for another action is a conflict. */
  lemma RepeatIsAnsweredAlike(events: seq<Event>, later: seq<Event>, r: ActRequest, token: Token, outcome: Outcome,
                              other: ActRequest, again: Token, whatever: Outcome)
    requires Reaches(Run(Initial(), events), r, token) && !outcome.NoEffect?
    requires var first := AfterAct(Run(Initial(), events), r, token, outcome);
      Since(first, Run(first, later)) < MAX_ACTS
    ensures var before := Run(Initial(), events);
      var s := Run(AfterAct(before, r, token, outcome), later);
      && ReplyToAct(s, r, again, whatever) == ReplyToAct(before, r, token, outcome)
      && AfterAct(s, r, again, whatever) == s
      && (other.key == r.key && other != r ==> ReplyToAct(s, other, again, whatever) == Conflict)
  {
    hide Run, Inverse, Find, Initial, Bounded;
    var before := Run(Initial(), events);
    AnswerMeans(before, r, token, outcome);
    EveryRunIsOrderly(events);
    ActKeepsOrderly(before, r, token, outcome);
    EveryRunRemembersOnce(Initial(), events) by { NothingRemembered(); }
    StepRemembersOnce(before, Perform(r, token, outcome));
    var first, a := AfterAct(before, r, token, outcome), Act(r, outcome.Done?);
    LastAct(before.acts, a);
    var s := Run(first, later);
    EveryRunRemembersOnce(first, later);
    RunRemembers(first, later, a);
    assert a in s.acts;
    FindMeans(s.acts, r.key);
  }

  lemma NothingRemembered()
    ensures KeysOnce(Initial().acts)
  {
  }

  lemma LastAct(acts: seq<Act>, a: Act)
    ensures var all := Bounded(acts + [a]); all != [] && all[|all| - 1] == a
  {
  }

  /** A fresh capture lets an action on one of its elements through: it reaches
    the browser, and what the browser says is the answer. */
  lemma CaptureLetsActThrough(events: seq<Event>, id: SnapshotId, token: Token, items: seq<Item>, k: nat,
                              r: ActRequest, outcome: Outcome)
    requires id !in Run(Initial(), events).issued && k < |Elements(RegisterAll(items), items)|
    requires r.snapshot == id && r.element == Elements(RegisterAll(items), items)[k].id
    requires forall a :: a in Run(Initial(), events).acts ==> a.request.key != r.key
    ensures var s := Next(Run(Initial(), events), Snapshot(id, token, items));
      && Reaches(s, r, token)
      && ReplyToAct(s, r, token, outcome)
         == (if outcome.Done? then Completed else if outcome.Unknown? then OutcomeUnknown else Failed)
      && AfterAct(s, r, token, outcome).effects == (if outcome.NoEffect? then s.effects else s.effects + multiset{id})
      && (!outcome.NoEffect? ==> AfterAct(s, r, token, outcome).snapshot == None)
  {
    hide Run, Inverse, Find, Initial, Bounded, Elements, RegisterAll;
    RegisterAllCovers(items);
    ElementsName(RegisterAll(items), items, k);
    AnswerMeans(Next(Run(Initial(), events), Snapshot(id, token, items)), r, token, outcome);
  }
}
