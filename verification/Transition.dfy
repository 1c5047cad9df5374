/**
 * Withdrawing everything that rests on a set of bindings: the closed form, and
 * the loops that do it binding by binding in an arbitrary order.
 */
module Transition {
  import opened Errors
  import opened Graphs
  import opened Records
  import opened Snapshots

  datatype Objects = Objects(bindings: Bindings, links: Links, services: Services, capabilities: Capabilities)

  /** Bindings to transition, each with the evidence to add to its identity link. */
  type Affected = map<Id, set<Id>>

  function ToState(b: Versioned<Binding>, to: BindingState): Versioned<Binding> {
    if b.body.state != to then Versioned(b.body.(state := to), b.revision + 1) else b
  }

  predicate BasisFits(l: Versioned<Link>, evidence: set<Id>) {
    1 <= |l.body.basis + evidence| <= MAX_EVIDENCE
  }

  function WithdrawLink(l: Versioned<Link>, evidence: set<Id>): Versioned<Link> {
    var basis := l.body.basis + evidence;
    if l.body.state != LinkWithdrawn || basis != l.body.basis
    then Versioned(l.body.(state := LinkWithdrawn, basis := basis), l.revision + 1) else l
  }

  function WithdrawService(s: Versioned<Service>): Versioned<Service> {
    if s.body.availability != Withdrawn then Versioned(s.body.(availability := Withdrawn), s.revision + 1) else s
  }

  function WithdrawCapability(c: Versioned<Capability>): Versioned<Capability> {
    if c.body.availability != Withdrawn then Versioned(c.body.(availability := Withdrawn), c.revision + 1) else c
  }

  /** The binding is affected and its link, if any, can take the evidence. */
  predicate Completes(links: Links, hit: Affected, id: Id) {
    id in hit && (id in links ==> BasisFits(links[id], hit[id]))
  }

  function HitBindings(bindings: Bindings, to: BindingState, hit: Affected): Bindings {
    map id | id in bindings :: if id in hit then ToState(bindings[id], to) else bindings[id]
  }

  function HitLinks(links: Links, hit: Affected): Links {
    map id | id in links :: if Completes(links, hit, id) then WithdrawLink(links[id], hit[id]) else links[id]
  }

  function HitServices(services: Services, links: Links, hit: Affected): Services {
    map id | id in services ::
      if Completes(links, hit, services[id].body.binding) then WithdrawService(services[id]) else services[id]
  }

  function HitCapabilities(capabilities: Capabilities, links: Links, hit: Affected): Capabilities {
    map id | id in capabilities ::
      if Completes(links, hit, capabilities[id].body.binding) then WithdrawCapability(capabilities[id]) else capabilities[id]
  }

  function Transitioned(o: Objects, to: BindingState, hit: Affected): Objects {
    Objects(HitBindings(o.bindings, to, hit), HitLinks(o.links, hit),
            HitServices(o.services, o.links, hit), HitCapabilities(o.capabilities, o.links, hit))
  }

  function TransitionErrors(o: Objects, hit: Affected): set<Err> {
    When(exists id :: id in hit && !Completes(o.links, hit, id), BoundsExceeded)
  }

  /** Withdraw the services of one binding, in any order. */
  method WithdrawServicesOf(services: Services, id: Id) returns (r: Services)
    ensures r == map s | s in services :: if services[s].body.binding == id then WithdrawService(services[s]) else services[s]
  {
    r := services;
    var todo := services.Keys;
    while todo != {}
      invariant todo <= services.Keys == r.Keys
      invariant forall s :: s in todo ==> r[s] == services[s]
      invariant forall s :: s in services && s !in todo ==>
                  r[s] == if services[s].body.binding == id then WithdrawService(services[s]) else services[s]
      decreases |todo|
    {
      var s :| s in todo;
      todo := todo - {s};
      if r[s].body.binding == id && r[s].body.availability != Withdrawn {
        r := r[s := Versioned(r[s].body.(availability := Withdrawn), r[s].revision + 1)];
      }
    }
  }

  method WithdrawCapabilitiesOf(capabilities: Capabilities, id: Id) returns (r: Capabilities)
    ensures r == map c | c in capabilities :: if capabilities[c].body.binding == id then WithdrawCapability(capabilities[c]) else capabilities[c]
  {
    r := capabilities;
    var todo := capabilities.Keys;
    while todo != {}
      invariant todo <= capabilities.Keys == r.Keys
      invariant forall c :: c in todo ==> r[c] == capabilities[c]
      invariant forall c :: c in capabilities && c !in todo ==>
                  r[c] == if capabilities[c].body.binding == id then WithdrawCapability(capabilities[c]) else capabilities[c]
      decreases |todo|
    {
      var c :| c in todo;
      todo := todo - {c};
      if r[c].body.binding == id && r[c].body.availability != Withdrawn {
        r := r[c := Versioned(r[c].body.(availability := Withdrawn), r[c].revision + 1)];
      }
    }
  }

  /** One binding: its state, its link, then everything that rests on it. */
  method TransitionBinding(o: Objects, id: Id, to: BindingState, evidence: set<Id>) returns (r: Objects, failed: bool)
    requires id in o.bindings
    ensures r == Transitioned(o, to, map[id := evidence])
    ensures failed <==> TransitionErrors(o, map[id := evidence]) != {}
  {
    hide HitBindings, HitLinks, HitServices, HitCapabilities, TransitionErrors;
    OneError(o, id, evidence);
    var bindings, links := o.bindings, o.links;
    if bindings[id].body.state != to {
      bindings := bindings[id := Versioned(bindings[id].body.(state := to), bindings[id].revision + 1)];
    }
    OneBinding(o.bindings, id, to, evidence);
    if id in links {
      var basis := links[id].body.basis + evidence;
      if !(1 <= |basis| <= MAX_EVIDENCE) {
        NoneComplete(o, id, evidence);
        return Objects(bindings, links, o.services, o.capabilities), true;
      }
      if links[id].body.state != LinkWithdrawn || links[id].body.basis != basis {
        links := links[id := Versioned(links[id].body.(state := LinkWithdrawn, basis := basis), links[id].revision + 1)];
      }
    }
    OneLink(o.links, id, evidence);
    var services := WithdrawServicesOf(o.services, id);
    var capabilities := WithdrawCapabilitiesOf(o.capabilities, id);
    OneDependents(o, id, evidence);
    return Objects(bindings, links, services, capabilities), false;
  }

  lemma OneError(o: Objects, id: Id, evidence: set<Id>)
    ensures TransitionErrors(o, map[id := evidence]) != {} <==> !Completes(o.links, map[id := evidence], id)
  {}

  lemma OneBinding(bindings: Bindings, id: Id, to: BindingState, evidence: set<Id>)
    requires id in bindings
    ensures HitBindings(bindings, to, map[id := evidence]) == bindings[id := ToState(bindings[id], to)]
  {
    hide ToState;
  }

  lemma OneLink(links: Links, id: Id, evidence: set<Id>)
    requires Completes(links, map[id := evidence], id)
    ensures HitLinks(links, map[id := evidence]) == if id in links then links[id := WithdrawLink(links[id], evidence)] else links
  {
    hide WithdrawLink, BasisFits;
  }

  lemma OneDependents(o: Objects, id: Id, evidence: set<Id>)
    requires Completes(o.links, map[id := evidence], id)
    ensures HitServices(o.services, o.links, map[id := evidence]) ==
            map s | s in o.services :: if o.services[s].body.binding == id then WithdrawService(o.services[s]) else o.services[s]
    ensures HitCapabilities(o.capabilities, o.links, map[id := evidence]) ==
            map c | c in o.capabilities :: if o.capabilities[c].body.binding == id then WithdrawCapability(o.capabilities[c]) else o.capabilities[c]
  {
    hide WithdrawService, WithdrawCapability, BasisFits;
  }

  lemma NoneComplete(o: Objects, id: Id, evidence: set<Id>)
    requires !Completes(o.links, map[id := evidence], id)
    ensures HitLinks(o.links, map[id := evidence]) == o.links
    ensures HitServices(o.services, o.links, map[id := evidence]) == o.services
    ensures HitCapabilities(o.capabilities, o.links, map[id := evidence]) == o.capabilities
  {
    hide WithdrawService, WithdrawCapability, WithdrawLink, BasisFits;
  }

  lemma CompletesMore(links: Links, hit: Affected, id: Id, evidence: set<Id>, x: Id)
    requires id !in hit
    ensures Completes(HitLinks(links, hit), map[id := evidence], id) <==> Completes(links, hit[id := evidence], id)
    ensures x != id ==> (Completes(links, hit[id := evidence], x) <==> Completes(links, hit, x))
    ensures x != id ==> !Completes(HitLinks(links, hit), map[id := evidence], x)
  {
    hide WithdrawLink, BasisFits;
  }

  lemma LinksMore(links: Links, hit: Affected, id: Id, evidence: set<Id>)
    requires id !in hit
    ensures HitLinks(HitLinks(links, hit), map[id := evidence]) == HitLinks(links, hit[id := evidence])
  {
    hide WithdrawLink, Completes;
    forall x ensures Completes(links, hit, x) ==> x in hit { NotCompletes(links, hit, x); }
    forall x ensures Completes(HitLinks(links, hit), map[id := evidence], x) ==> x == id {
      CompletesMore(links, hit, id, evidence, x);
    }
    CompletesMore(links, hit, id, evidence, id);
    forall x | x != id ensures Completes(links, hit[id := evidence], x) <==> Completes(links, hit, x) {
      CompletesMore(links, hit, id, evidence, x);
    }
  }

  lemma NotCompletes(links: Links, hit: Affected, x: Id)
    ensures Completes(links, hit, x) ==> x in hit
  {}

  lemma ServicesMore(services: Services, links: Links, hit: Affected, id: Id, evidence: set<Id>)
    requires id !in hit
    ensures HitServices(HitServices(services, links, hit), HitLinks(links, hit), map[id := evidence]) ==
            HitServices(services, links, hit[id := evidence])
  {
    hide Completes, HitLinks;
    forall x
      ensures Completes(links, hit[id := evidence], x) <==>
              Completes(links, hit, x) || Completes(HitLinks(links, hit), map[id := evidence], x)
    {
      CompletesMore(links, hit, id, evidence, x);
      NotCompletes(links, hit, x);
    }
    forall x ensures !(Completes(links, hit, x) && Completes(HitLinks(links, hit), map[id := evidence], x)) {
      CompletesMore(links, hit, id, evidence, x);
      NotCompletes(links, hit, x);
    }
  }

  lemma CapabilitiesMore(capabilities: Capabilities, links: Links, hit: Affected, id: Id, evidence: set<Id>)
    requires id !in hit
    ensures HitCapabilities(HitCapabilities(capabilities, links, hit), HitLinks(links, hit), map[id := evidence]) ==
            HitCapabilities(capabilities, links, hit[id := evidence])
  {
    hide Completes, HitLinks;
    forall x
      ensures Completes(links, hit[id := evidence], x) <==>
              Completes(links, hit, x) || Completes(HitLinks(links, hit), map[id := evidence], x)
    {
      CompletesMore(links, hit, id, evidence, x);
      NotCompletes(links, hit, x);
    }
    forall x ensures !(Completes(links, hit, x) && Completes(HitLinks(links, hit), map[id := evidence], x)) {
      CompletesMore(links, hit, id, evidence, x);
      NotCompletes(links, hit, x);
    }
  }

  lemma BindingsMore(bindings: Bindings, to: BindingState, hit: Affected, id: Id, evidence: set<Id>)
    requires id !in hit
    ensures HitBindings(HitBindings(bindings, to, hit), to, map[id := evidence]) == HitBindings(bindings, to, hit[id := evidence])
  {
    hide ToState;
  }

  lemma ErrorsMore(o: Objects, to: BindingState, hit: Affected, id: Id, evidence: set<Id>)
    requires id !in hit
    ensures TransitionErrors(o, hit[id := evidence]) ==
            TransitionErrors(o, hit) + TransitionErrors(Transitioned(o, to, hit), map[id := evidence])
  {
    hide Completes, HitBindings, HitLinks, HitServices, HitCapabilities;
    CompletesMore(o.links, hit, id, evidence, id);
    forall x | x != id ensures Completes(o.links, hit[id := evidence], x) <==> Completes(o.links, hit, x) {
      CompletesMore(o.links, hit, id, evidence, x);
    }
  }

  /** Transitions of different bindings commute: one more binding extends the closed form. */
  lemma TransitionMore(o: Objects, to: BindingState, hit: Affected, id: Id, evidence: set<Id>)
    requires id !in hit && id in o.bindings
    ensures Transitioned(Transitioned(o, to, hit), to, map[id := evidence]) == Transitioned(o, to, hit[id := evidence])
    ensures TransitionErrors(o, hit[id := evidence]) ==
            TransitionErrors(o, hit) + TransitionErrors(Transitioned(o, to, hit), map[id := evidence])
  {
    hide HitBindings, HitLinks, HitServices, HitCapabilities, TransitionErrors;
    BindingsMore(o.bindings, to, hit, id, evidence);
    ErrorsMore(o, to, hit, id, evidence);
    LinksMore(o.links, hit, id, evidence);
    ServicesMore(o.services, o.links, hit, id, evidence);
    CapabilitiesMore(o.capabilities, o.links, hit, id, evidence);
  }

  /** All affected bindings, in whatever order they are visited: the closed form. */
  method TransitionAll(o: Objects, to: BindingState, hit: Affected) returns (r: Objects, failed: bool)
    requires hit.Keys <= o.bindings.Keys
    ensures r == Transitioned(o, to, hit)
    ensures failed <==> TransitionErrors(o, hit) != {}
  {
    hide Completes, Transitioned, TransitionErrors, HitBindings, HitLinks, HitServices, HitCapabilities;
    r, failed := o, false;
    var todo := hit.Keys;
    TransitionNone(o, to);
    DoneEnds(hit);
    while todo != {}
      invariant todo <= hit.Keys && r == Transitioned(o, to, Done(hit, todo)) && (failed <==> TransitionErrors(o, Done(hit, todo)) != {})
      decreases |todo|
    {
      hide Done;
      var id :| id in todo;
      DoneNext(hit, todo, id);
      TransitionKeys(o, to, Done(hit, todo));
      TransitionMore(o, to, Done(hit, todo), id, hit[id]);
      var bad;
      r, bad := TransitionBinding(r, id, to, hit[id]);
      failed := failed || bad;
      todo := todo - {id};
    }
  }

  /** The affected bindings already visited. */
  ghost function Done(hit: Affected, todo: set<Id>): Affected { map id | id in hit && id !in todo :: hit[id] }

  lemma DoneNext(hit: Affected, todo: set<Id>, id: Id)
    requires id in hit && id in todo
    ensures id !in Done(hit, todo) && Done(hit, todo - {id}) == Done(hit, todo)[id := hit[id]]
  {}

  lemma DoneEnds(hit: Affected)
    ensures Done(hit, hit.Keys) == map[] && Done(hit, {}) == hit
  {}

  lemma TransitionKeys(o: Objects, to: BindingState, hit: Affected)
    ensures Transitioned(o, to, hit).bindings.Keys == o.bindings.Keys
  {}

  lemma TransitionNone(o: Objects, to: BindingState)
    ensures Transitioned(o, to, map[]) == o && TransitionErrors(o, map[]) == {}
  {
    var p := Transitioned(o, to, map[]);
    assert p.bindings == o.bindings && p.links == o.links && p.services == o.services && p.capabilities == o.capabilities;
  }
}
