/** Managed share names under the platform domain, and moving them all to another one.

    Names are given trimmed and in lower case. The columns a move resets are not part of the rows here. */
module PlatformDomains {
  import opened Tables
  import Sets

  datatype Kind = Managed | Custom
  datatype Domain = Domain(name: string, kind: Kind, service: string, environment: string)
  datatype Endpoint = Endpoint(hostname: string, absent: bool)

  /** The rows the control plane's domain operations read and write. Endpoints are keyed by engine. */
  datatype Platform = Platform(
    domain: string, domains: map<Id, Domain>, endpoints: map<string, Endpoint>,
    liveConnections: nat, pendingOperations: nat)

  const DOT: string := ['.']

  // ----- names ------------------------------------------------------------

  /** Everything before the first dot. */
  function Label(name: string): (r: string)
    ensures |r| <= |name| && '.' !in r
  {
    if name == [] || name[0] == '.' then [] else [name[0]] + Label(name[1..])
  }

  lemma {:induction false} LabelOf(head: string, domain: string)
    requires '.' !in head
    ensures Label(head + DOT + domain) == head
  {
    var name := head + DOT + domain;
    if head == [] {
      assert name[0] == '.';
    } else {
      assert name[0] == head[0] && name[1..] == head[1..] + DOT + domain;
      LabelOf(head[1..], domain);
    }
  }

  predicate EndsWith(s: string, suffix: string) {
    |s| >= |suffix| && s[|s| - |suffix|..] == suffix
  }

  /** hostname = d OR hostname LIKE '%.' || d */
  predicate Under(name: string, d: string) { name == d || EndsWith(name, DOT + d) }

  /** substr(name, 1, length(name) - length(current)) || next */
  function Renamed(name: string, current: string, next: string): string
    requires |current| <= |name|
  {
    name[..|name| - |current|] + next
  }

  /** One label and the platform domain. */
  predicate Owned(name: string, domain: string) {
    name == Label(name) + DOT + domain
  }

  lemma OwnedEndsWith(name: string, domain: string)
    requires Owned(name, domain)
    ensures EndsWith(name, DOT + domain)
  {
    hide Label;
    assert name == Label(name) + (DOT + domain);
  }

  lemma RenamedOwned(name: string, current: string, next: string)
    requires Owned(name, current)
    ensures |current| <= |name| && Renamed(name, current, next) == Label(name) + DOT + next
    ensures Label(Renamed(name, current, next)) == Label(name) && Owned(Renamed(name, current, next), next)
  {
    hide Label;
    var head := Label(name) + DOT;
    assert name == head + current && |name| - |current| == |head|;
    assert name[..|head|] == head;
    LabelOf(Label(name), next);
  }

  lemma RenamedUnder(name: string, current: string, next: string)
    requires Under(name, current)
    ensures |current| <= |name| && Under(Renamed(name, current, next), next)
    ensures Renamed(Renamed(name, current, next), next, current) == name
  {
    var head := name[..|name| - |current|];
    assert head + current == name;
    assert (head + next)[..|head + next| - |next|] == head;
    if name != current {
      assert head[|head| - 1] == '.';
      assert head + next == head[..|head| - 1] + (DOT + next);
    }
  }

  // ----- what holds between operations ------------------------------------

  /** UNIQUE(domain_name), and at most one managed row for a service environment. */
  ghost predicate Unique(domains: map<Id, Domain>) {
    && (forall a, b | a in domains && b in domains && a != b :: domains[a].name != domains[b].name)
    && (forall a, b | a in domains && b in domains && a != b && domains[a].kind == Managed
       && domains[b].kind == Managed ::
          domains[a].service != domains[b].service || domains[a].environment != domains[b].environment)
  }

  ghost predicate AllOwned(domains: map<Id, Domain>, domain: string) {
    forall id | id in domains && domains[id].kind == Managed :: Owned(domains[id].name, domain)
  }

  /** UNIQUE(hostname, port), all endpoints listening on the one gateway port. */
  ghost predicate UniqueHosts(endpoints: map<string, Endpoint>) {
    forall a, b | a in endpoints && b in endpoints && a != b :: endpoints[a].hostname != endpoints[b].hostname
  }

  ghost predicate Sound(p: Platform) { Unique(p.domains) && AllOwned(p.domains, p.domain) && UniqueHosts(p.endpoints) }

  predicate Taken(domains: map<Id, Domain>, name: string) { exists id | id in domains :: domains[id].name == name }

  predicate HasManaged(domains: map<Id, Domain>, service: string, environment: string) {
    exists id | id in domains ::
      domains[id].kind == Managed && domains[id].service == service && domains[id].environment == environment
  }

  // ----- the move ---------------------------------------------------------

  predicate GatewaysQuiet(p: Platform) {
    p.liveConnections == 0 && p.pendingOperations == 0 && forall e | e in p.endpoints :: p.endpoints[e].absent
  }

  function Moved(domains: map<Id, Domain>, next: string): map<Id, Domain> {
    map id | id in domains ::
      if domains[id].kind == Managed then domains[id].(name := Label(domains[id].name) + DOT + next) else domains[id]
  }

  function EndpointsMoved(endpoints: map<string, Endpoint>, current: string, next: string): map<string, Endpoint> {
    map e | e in endpoints ::
      if Under(endpoints[e].hostname, current)
      then endpoints[e].(hostname := Renamed(endpoints[e].hostname, current, next)) else endpoints[e]
  }

  /** A custom domain already has the name some managed row would move to. */
  ghost predicate Collides(domains: map<Id, Domain>, next: string) {
    exists a, b :: a in domains && b in domains && domains[a].kind == Managed && domains[b].kind == Custom
      && domains[b].name == Label(domains[a].name) + DOT + next
  }

  /** No endpoint moves to a hostname that another one has now. */
  ghost predicate HostsFree(endpoints: map<string, Endpoint>, current: string, next: string) {
    forall a, b | a in endpoints && b in endpoints && a != b && Under(endpoints[a].hostname, current) ::
      endpoints[b].hostname != Renamed(endpoints[a].hostname, current, next)
  }

  ghost predicate MoveAllowed(p: Platform, current: string, next: string) {
    current != "" && next != "" && current == p.domain && GatewaysQuiet(p) && !Collides(p.domains, next)
  }

  ghost function AfterMove(p: Platform, next: string): Platform {
    p.(domain := next, domains := Moved(p.domains, next), endpoints := EndpointsMoved(p.endpoints, p.domain, next))
  }

  /** Every managed name is under the new domain with its label unchanged, and names stay unique. */
  lemma MoveKeepsNames(p: Platform, next: string)
    requires Unique(p.domains) && AllOwned(p.domains, p.domain) && !Collides(p.domains, next)
    ensures Unique(AfterMove(p, next).domains) && AllOwned(AfterMove(p, next).domains, next)
    ensures forall id | id in p.domains && p.domains[id].kind == Managed ::
      Label(AfterMove(p, next).domains[id].name) == Label(p.domains[id].name)
  {
    var domains' := Moved(p.domains, next);
    forall id | id in p.domains && p.domains[id].kind == Managed
      ensures Label(domains'[id].name) == Label(p.domains[id].name) && Owned(domains'[id].name, next)
    {
      LabelOf(Label(p.domains[id].name), next);
    }
    forall a, b | a in domains' && b in domains' && a != b ensures domains'[a].name != domains'[b].name {
      assert p.domains[a].name != p.domains[b].name;
      assert !(p.domains[a].kind == Managed && p.domains[b].kind == Custom
          && p.domains[b].name == Label(p.domains[a].name) + DOT + next);
      assert !(p.domains[b].kind == Managed && p.domains[a].kind == Custom
          && p.domains[a].name == Label(p.domains[b].name) + DOT + next);
    }
  }

  lemma OldNamesAreFree(domains: map<Id, Domain>, domain: string, next: string)
    requires Unique(domains) && AllOwned(domains, domain)
    ensures !Collides(Moved(domains, next), domain)
  {
    forall a, b | a in domains && b in domains && domains[a].kind == Managed && domains[b].kind == Custom
      ensures domains[b].name != Label(Moved(domains, next)[a].name) + DOT + domain
    {
      LabelOf(Label(domains[a].name), next);
      assert domains[a].name != domains[b].name;
    }
  }

  /** An endpoint that lies only under the new domain does not come back. */
  lemma MovingBackCanCarryAlong(engine: string)
    ensures var endpoints := map[engine := Endpoint("b", true)];
      EndpointsMoved(EndpointsMoved(endpoints, "a", "b"), "b", "a") != endpoints
  {
    var endpoints := map[engine := Endpoint("b", true)];
    assert Under(endpoints[engine].hostname, "b") && !Under(endpoints[engine].hostname, "a");
    EndpointsThereAndBack(endpoints, "a", "b");
  }

  /** The endpoint the program creates always lies under the current domain: it comes back, and it moves the
      same way by whatever domains it passes. */
  lemma EndpointUnderDomainFollows(endpoints: map<string, Endpoint>, domain: string, via: string, next: string)
    requires domain != via && via != next
    requires forall e | e in endpoints :: Under(endpoints[e].hostname, domain)
    ensures forall e | e in endpoints :: Under(EndpointsMoved(endpoints, domain, via)[e].hostname, via)
    ensures EndpointsMoved(EndpointsMoved(endpoints, domain, via), via, domain) == endpoints
    ensures EndpointsMoved(EndpointsMoved(endpoints, domain, via), via, next) == EndpointsMoved(endpoints, domain, next)
  {
    hide Under, Renamed;
    forall e | e in endpoints { RenamedUnder(endpoints[e].hostname, domain, via); }
    EndpointsThereAndBack(endpoints, domain, via);
    EndpointMovesComposeIff(endpoints, domain, via, next);
  }

  lemma BackToOldNames(domains: map<Id, Domain>, domain: string, next: string)
    requires AllOwned(domains, domain)
    ensures Moved(Moved(domains, next), domain) == domains
  {
    forall id | id in domains
        && domains[id].kind == Managed ensures Moved(Moved(domains, next), domain)[id] == domains[id] {
      LabelOf(Label(domains[id].name), next);
    }
  }

  /** Moving back is allowed and restores every domain row. It restores every endpoint as well exactly
      when no endpoint lay under the new domain without lying under the old one. */
  lemma MovingBackRestores(p: Platform, next: string)
    requires Sound(p) && MoveAllowed(p, p.domain, next) && next != p.domain
    ensures var q := AfterMove(p, next);
      && MoveAllowed(q, next, p.domain)
      && AfterMove(q, p.domain).domains == p.domains
      && (AfterMove(q, p.domain) == p <==>
            forall e | e in p.endpoints ::
              Under(p.endpoints[e].hostname, next) ==> Under(p.endpoints[e].hostname, p.domain))
  {
    hide Under, Renamed, Label;
    var q := AfterMove(p, next);
    MoveKeepsNames(p, next);
    BackToOldNames(p.domains, p.domain, next);
    assert Moved(q.domains, p.domain) == p.domains;
    OldNamesAreFree(p.domains, p.domain, next);
    EndpointsThereAndBack(p.endpoints, p.domain, next);
  }

  lemma EndpointsThereAndBack(endpoints: map<string, Endpoint>, current: string, next: string)
    requires current != next
    ensures EndpointsMoved(EndpointsMoved(endpoints, current, next), next, current) == endpoints
       <==> forall e | e in endpoints :: Under(endpoints[e].hostname, next) ==> Under(endpoints[e].hostname, current)
  {
    hide Under, Renamed;
    var back := EndpointsMoved(EndpointsMoved(endpoints, current, next), next, current);
    forall e | e in endpoints
      ensures back[e] == endpoints[e] <==>
        (Under(endpoints[e].hostname, next) ==> Under(endpoints[e].hostname, current))
    {
      EndpointThereAndBack(endpoints[e].hostname, current, next);
    }
  }

  lemma EndpointThereAndBack(hostname: string, current: string, next: string)
    requires current != next
    ensures var there := if Under(hostname, current) then Renamed(hostname, current, next) else hostname;
      var back := if Under(there, next) then Renamed(there, next, current) else there;
      back == hostname <==> (Under(hostname, next) ==> Under(hostname, current))
  {
    if Under(hostname, current) {
      RenamedUnder(hostname, current, next);
    } else if Under(hostname, next) {
      RenamedUnder(hostname, next, current);
    }
  }

  /** Managed names do not depend on the way there: moving twice is moving once. */
  lemma MovesCompose(p: Platform, via: string, next: string)
    ensures Moved(Moved(p.domains, via), next) == Moved(p.domains, next)
  {
    forall id | id in p.domains && p.domains[id].kind == Managed
      ensures Label(Moved(p.domains, via)[id].name) == Label(p.domains[id].name)
    {
      LabelOf(Label(p.domains[id].name), via);
    }
  }

  /** Endpoints can: moving through a third domain is the direct move exactly if no endpoint lies under
      that domain without lying under the first one. */
  lemma EndpointMovesComposeIff(endpoints: map<string, Endpoint>, first: string, via: string, next: string)
    requires via != next
    ensures EndpointsMoved(EndpointsMoved(endpoints, first, via), via, next) == EndpointsMoved(endpoints, first, next)
       <==> forall e | e in endpoints :: Under(endpoints[e].hostname, via) ==> Under(endpoints[e].hostname, first)
  {
    hide Under, Renamed;
    var twice, once := EndpointsMoved(EndpointsMoved(endpoints, first, via), via, next),
        EndpointsMoved(endpoints, first, next);
    forall e | e in endpoints
      ensures twice[e] == once[e] <==> (Under(endpoints[e].hostname, via) ==> Under(endpoints[e].hostname, first))
    {
      HostnameTwiceMoved(endpoints[e].hostname, first, via, next);
    }
  }

  lemma HostnameTwiceMoved(hostname: string, first: string, via: string, next: string)
    requires via != next
    ensures var there := if Under(hostname, first) then Renamed(hostname, first, via) else hostname;
      var twice := if Under(there, via) then Renamed(there, via, next) else there;
      var once := if Under(hostname, first) then Renamed(hostname, first, next) else hostname;
      twice == once <==> (Under(hostname, via) ==> Under(hostname, first))
  {
    if Under(hostname, first) {
      RenamedUnder(hostname, first, via);
      var head := hostname[..|hostname| - |first|];
      assert Renamed(hostname, first, via)[..|head|] == head;
    } else if Under(hostname, via) {
      RenamedUnder(hostname, via, next);
      var head := hostname[..|hostname| - |via|];
      assert hostname == head + via && Renamed(hostname, via, next) == head + next;
      assert (head + via)[|head|..] == via && (head + next)[|head|..] == next;
    }
  }

  /** An endpoint that lies under the domain passed through is carried along. */
  lemma EndpointsDependOnTheWay(engine: string)
    ensures var endpoints := map[engine := Endpoint("b", true)];
      EndpointsMoved(EndpointsMoved(endpoints, "a", "b"), "b", "c") != EndpointsMoved(endpoints, "a", "c")
  {
    var endpoints := map[engine := Endpoint("b", true)];
    assert Under(endpoints[engine].hostname, "b") && !Under(endpoints[engine].hostname, "a");
    EndpointMovesComposeIff(endpoints, "a", "b", "c");
  }

  // ----- row by row, as the database does it ------------------------------

  ghost predicate Movable(domains: map<Id, Domain>, current: string, next: string) {
    Unique(domains) && AllOwned(domains, current) && current != next
  }

  /** UPDATE domains ... WHERE kind = 'platform', the UNIQUE check made at every row in whatever order
      they come: it fails exactly if a custom domain is in the way, never because of rows not yet moved. */
  method MoveManagedRows(domains: map<Id, Domain>, current: string, next: string)
    returns (ok: bool, moved: map<Id, Domain>)
    requires forall id | id in domains && domains[id].kind == Managed :: EndsWith(domains[id].name, DOT + current)
    ensures Movable(domains, current, next) ==> (ok <==> !Collides(domains, next))
    ensures Movable(domains, current, next) && ok ==> moved == Moved(domains, next)
  {
    hide Label, Renamed, Owned, Unique, AllOwned, Clear, Moved;
    moved := domains;
    var todo := set id | id in domains && domains[id].kind == Managed;
    ghost var movable := Movable(domains, current, next);
    NothingMoved(domains, next);
    while todo != {}
      invariant moved.Keys == domains.Keys
      invariant forall id | id in todo :: id in domains && domains[id].kind == Managed && moved[id] == domains[id]
      invariant movable ==> PartlyMoved(domains, next, moved, todo)
    {
      var id :| id in todo;
      var name := Renamed(moved[id].name, current, next);
      if movable { RowMoves(domains, current, next, moved, todo, id, name); }
      if exists other | other in moved :: other != id && moved[other].name == name { return false, domains; }
      moved, todo := moved[id := moved[id].(name := name)], todo - {id};
    }
    ok := true;
    if movable { AllMoved(domains, next, moved); }
  }

  lemma NothingMoved(domains: map<Id, Domain>, next: string)
    ensures PartlyMoved(domains, next, domains, set id | id in domains && domains[id].kind == Managed)
  {}

  lemma AllMoved(domains: map<Id, Domain>, next: string, moved: map<Id, Domain>)
    requires PartlyMoved(domains, next, moved, {})
    ensures moved == Moved(domains, next) && !Collides(domains, next)
  {
    assert moved == Moved(domains, next);
    assert forall a | a in domains && domains[a].kind == Managed :: Clear(domains, next, a);
  }

  /** UPDATE database_gateway_endpoints ..., with the rows in the order the database visits them: each row
      needs its new hostname free at that moment. */
  function MoveInOrder(endpoints: map<string, Endpoint>, order: seq<string>, current: string,
      next: string): Option<map<string, Endpoint>>
    requires AllMoving(endpoints, order, current)
  {
    if order == [] then Some(endpoints)
    else
      var n := |order| - 1;
      assert AllMoving(endpoints, order[..n], current);
      match MoveInOrder(endpoints, order[..n], current, next)
      case None => None
      case Some(moved) =>
        var hostname := NewHostname(endpoints, order[n], current, next);
        if exists other | other in moved :: other != order[n] && moved[other].hostname == hostname then None
        else Some(moved[order[n] := endpoints[order[n]].(hostname := hostname)])
  }

  predicate Moving(endpoints: map<string, Endpoint>, e: string, current: string) {
    e in endpoints && Under(endpoints[e].hostname, current)
  }

  predicate AllMoving(endpoints: map<string, Endpoint>, order: seq<string>, current: string) {
    forall k | 0 <= k < |order| :: Moving(endpoints, order[k], current)
  }

  function NewHostname(endpoints: map<string, Endpoint>, e: string, current: string, next: string): string
    requires Moving(endpoints, e, current)
  {
    Renamed(endpoints[e].hostname, current, next)
  }

  /** `order` visits every row that moves, each once. */
  ghost predicate Visits(endpoints: map<string, Endpoint>, order: seq<string>, current: string) {
    && AllMoving(endpoints, order, current)
    && (forall e | Moving(endpoints, e, current) :: e in order)
    && (forall j, k | 0 <= j < k < |order| :: order[j] != order[k])
  }

  /** No row takes a hostname that a row not yet visited, or not moving at all, still has. */
  ghost predicate FreeInOrder(endpoints: map<string, Endpoint>, order: seq<string>, current: string, next: string)
    requires AllMoving(endpoints, order, current)
  {
    forall k, other | 0 <= k < |order| && other in endpoints && other !in order[..k + 1] ::
      endpoints[other].hostname != NewHostname(endpoints, order[k], current, next)
  }

  /** What the rows hold after those in `order` have moved. */
  ghost predicate MovedUpTo(endpoints: map<string, Endpoint>, order: seq<string>, current: string, next: string,
      moved: map<string, Endpoint>)
    requires AllMoving(endpoints, order, current)
  {
    && moved.Keys == endpoints.Keys
    && forall e | e in endpoints ::
      moved[e] == if e in order then endpoints[e].(hostname := NewHostname(endpoints, e, current, next))
          else endpoints[e]
  }

  lemma NewHostnamesDiffer(endpoints: map<string, Endpoint>, a: string, b: string, current: string, next: string)
    requires UniqueHosts(endpoints) && Moving(endpoints, a, current) && Moving(endpoints, b, current) && a != b
    ensures NewHostname(endpoints, a, current, next) != NewHostname(endpoints, b, current, next)
  {
    RenamedUnder(endpoints[a].hostname, current, next);
    RenamedUnder(endpoints[b].hostname, current, next);
    assert endpoints[a].hostname != endpoints[b].hostname;
  }

  /** For a given order the update succeeds exactly if every new hostname is free in its turn. */
  lemma {:induction false} MoveInOrderIff(endpoints: map<string, Endpoint>, order: seq<string>, current: string,
      next: string)
    requires UniqueHosts(endpoints) && AllMoving(endpoints, order, current)
    requires forall j, k | 0 <= j < k < |order| :: order[j] != order[k]
    ensures MoveInOrder(endpoints, order, current, next).Some? <==> FreeInOrder(endpoints, order, current, next)
    ensures MoveInOrder(endpoints, order, current, next).Some?
      ==> MovedUpTo(endpoints, order, current, next, MoveInOrder(endpoints, order, current, next).value)
  {
    hide Under, Renamed, UniqueHosts, NewHostname, FreeInOrder, MovedUpTo;
    if order == [] {
      NothingInTheWay(endpoints, current, next);
    } else {
      var front, e := order[..|order| - 1], order[|order| - 1];
      assert AllMoving(endpoints, front, current);
      MoveInOrderIff(endpoints, front, current, next);
      FreeInOrderStep(endpoints, order, current, next);
      if MoveInOrder(endpoints, front, current, next).Some? {
        var moved := MoveInOrder(endpoints, front, current, next).value;
        LastInOrder(endpoints, order, current, next, moved);
        MovedUpToStep(endpoints, order, current, next, moved);
      }
    }
  }

  lemma NothingInTheWay(endpoints: map<string, Endpoint>, current: string, next: string)
    ensures FreeInOrder(endpoints, [], current, next) && MovedUpTo(endpoints, [], current, next, endpoints)
  {}

  /** The last row's new hostname is free in its turn. */
  ghost predicate LastFree(endpoints: map<string, Endpoint>, order: seq<string>, current: string, next: string)
    requires order != [] && AllMoving(endpoints, order, current)
  {
    forall other | other in endpoints && other !in order ::
      endpoints[other].hostname != NewHostname(endpoints, order[|order| - 1], current, next)
  }

  lemma FreeInOrderStep(endpoints: map<string, Endpoint>, order: seq<string>, current: string, next: string)
    requires order != [] && AllMoving(endpoints, order, current) && AllMoving(endpoints, order[..|order| - 1], current)
    ensures FreeInOrder(endpoints, order, current, next)
       <==> FreeInOrder(endpoints, order[..|order| - 1], current, next) && LastFree(endpoints, order, current, next)
  {
    hide Moving, NewHostname;
    var n := |order| - 1;
    assert order[..n + 1] == order;
    forall k | 0 <= k < n ensures order[..n][..k + 1] == order[..k + 1] && order[..n][k] == order[k] {}
  }

  lemma MovedUpToStep(endpoints: map<string, Endpoint>, order: seq<string>, current: string, next: string,
      moved: map<string, Endpoint>)
    requires order != [] && AllMoving(endpoints, order, current) && AllMoving(endpoints, order[..|order| - 1], current)
    requires MovedUpTo(endpoints, order[..|order| - 1], current, next, moved)
    ensures var e := order[|order| - 1];
      MovedUpTo(endpoints, order, current, next,
          moved[e := endpoints[e].(hostname := NewHostname(endpoints, e, current, next))])
  {
    hide Under, Renamed;
    assert order == order[..|order| - 1] + [order[|order| - 1]];
  }

  lemma LastInOrder(endpoints: map<string, Endpoint>, order: seq<string>, current: string, next: string,
      moved: map<string, Endpoint>)
    requires UniqueHosts(endpoints) && order != [] && AllMoving(endpoints, order, current)
        && AllMoving(endpoints, order[..|order| - 1], current)
    requires forall j, k | 0 <= j < k < |order| :: order[j] != order[k]
    requires MovedUpTo(endpoints, order[..|order| - 1], current, next, moved)
    ensures var e := order[|order| - 1];
      (exists other | other in moved :: other != e && moved[other].hostname == NewHostname(endpoints, e, current, next))
        <==> !LastFree(endpoints, order, current, next)
  {
    hide Under, Renamed, UniqueHosts;
    var front, e := order[..|order| - 1], order[|order| - 1];
    assert order == front + [e];
    forall other | other in endpoints
        && other in front ensures moved[other].hostname != NewHostname(endpoints, e, current, next) {
      NewHostnamesDiffer(endpoints, other, e, current, next);
    }
    forall other | other in endpoints && other !in order ensures other in moved && moved[other] == endpoints[other] {}
  }

  /** Every order succeeds exactly if no row moves to a hostname that any other row has. */
  lemma EveryOrderIff(endpoints: map<string, Endpoint>, current: string, next: string)
    requires UniqueHosts(endpoints)
    ensures (forall order | Visits(endpoints, order, current) :: MoveInOrder(endpoints, order, current, next).Some?)
       <==> HostsFree(endpoints, current, next)
  {
    if HostsFree(endpoints, current, next) {
      forall order | Visits(endpoints, order, current) ensures MoveInOrder(endpoints, order, current, next).Some? {
        MoveInOrderIff(endpoints, order, current, next);
      }
    } else {
      var a, b :| a in endpoints && b in endpoints && a != b && Under(endpoints[a].hostname, current)
        && endpoints[b].hostname == Renamed(endpoints[a].hostname, current, next);
      var order := OrderStartingWith(endpoints, current, a);
      MoveInOrderIff(endpoints, order, current, next);
      assert order[..0 + 1] == [a];
      assert NewHostname(endpoints, order[0], current, next) == endpoints[b].hostname;
    }
  }

  lemma OrderStartingWith(endpoints: map<string, Endpoint>, current: string, a: string) returns (order: seq<string>)
    requires Moving(endpoints, a, current)
    ensures Visits(endpoints, order, current) && order != [] && order[0] == a
  {
    var rest := OrderOf(set e | e in endpoints && Moving(endpoints, e, current) && e != a);
    order := [a] + rest;
    forall k | 0 < k < |order| ensures Moving(endpoints, order[k], current) && order[k] != a
        && order[k] == rest[k - 1] {
      assert rest[k - 1] in rest;
    }
    assert forall j, k | 0 <= j < k < |order| :: order[j] != order[k];
    forall e | Moving(endpoints, e, current) ensures e in order { if e != a { assert e in rest; } }
  }

  lemma {:induction false} OrderOf(rows: set<string>) returns (order: seq<string>)
    ensures forall e :: e in order <==> e in rows
    ensures forall j, k | 0 <= j < k < |order| :: order[j] != order[k]
  {
    if rows == {} {
      order := [];
    } else {
      var e :| e in rows;
      var rest := OrderOf(rows - {e});
      order := [e] + rest;
    }
  }

  /** With a single endpoint, as the program creates them, the order cannot matter and the move cannot fail. */
  lemma SingleEndpointMoves(endpoints: map<string, Endpoint>, current: string, next: string)
    requires |endpoints| <= 1
    ensures UniqueHosts(endpoints) && HostsFree(endpoints, current, next)
  {
    forall a, b | a in endpoints && b in endpoints ensures a == b {
      if a != b {
        assert {a, b} <= endpoints.Keys;
        Sets.Included({a, b}, endpoints.Keys);
      }
    }
  }

  /** Two endpoints, one under the domain moved to: the move fails or succeeds with the order of the rows. */
  lemma OrderCanMatter(one: string, two: string)
    requires one != two
    ensures var endpoints := map[one := Endpoint("a", true), two := Endpoint("b.a", true)];
      && Visits(endpoints, [one, two], "a") && MoveInOrder(endpoints, [one, two], "a", "b.a") == None
      && Visits(endpoints, [two, one], "a") && MoveInOrder(endpoints, [two, one], "a", "b.a").Some?
  {
    hide Under, Renamed;
    var endpoints := map[one := Endpoint("a", true), two := Endpoint("b.a", true)];
    NestedNames();
    assert "b.a" != "a";
    MoveInOrderIff(endpoints, [one, two], "a", "b.a");
    MoveInOrderIff(endpoints, [two, one], "a", "b.a");
    assert [one, two][..0 + 1] == [one];
    assert [two, one][..0 + 1] == [two] && [two, one][..1 + 1] == [two, one];
    assert NewHostname(endpoints, one, "a", "b.a") == endpoints[two].hostname;
    assert NewHostname(endpoints, two, "a", "b.a") != endpoints[one].hostname;
  }

  lemma NestedNames()
    ensures Under("a", "a") && Renamed("a", "a", "b.a") == "b.a"
    ensures Under("b.a", "a") && Renamed("b.a", "a", "b.a") == "b.b.a"
  {
    assert EndsWith("b.a", DOT + "a");
  }

  lemma NothingVisited(endpoints: map<string, Endpoint>, current: string, next: string)
    ensures MoveInOrder(endpoints, [], current, next) == Some(endpoints)
  {}

  lemma RenamedLength(endpoints: map<string, Endpoint>, e: string, current: string, next: string)
    requires Moving(endpoints, e, current)
    ensures |current| <= |endpoints[e].hostname|
    ensures NewHostname(endpoints, e, current, next) == Renamed(endpoints[e].hostname, current, next)
  {}

  lemma NextVisited(endpoints: map<string, Endpoint>, order: seq<string>, k: nat, current: string, next: string)
    requires AllMoving(endpoints, order, current) && k < |order|
        && MoveInOrder(endpoints, order[..k], current, next).Some?
    ensures var moved, hostname := MoveInOrder(endpoints, order[..k], current, next).value,
        NewHostname(endpoints, order[k], current, next);
      MoveInOrder(endpoints, order[..k + 1], current, next)
        == if exists other | other in moved :: other != order[k] && moved[other].hostname == hostname then None
           else Some(moved[order[k] := endpoints[order[k]].(hostname := hostname)])
  {
    hide Moving, NewHostname;
    assert order[..k + 1][..k] == order[..k];
  }

  lemma {:induction false} FailedAlready(endpoints: map<string, Endpoint>, order: seq<string>, k: nat,
      current: string, next: string)
    requires AllMoving(endpoints, order, current) && k <= |order|
    requires MoveInOrder(endpoints, order[..k], current, next) == None
    ensures MoveInOrder(endpoints, order, current, next) == None
  {
    hide Moving, NewHostname;
    if k == |order| {
      assert order[..k] == order;
    } else {
      assert order[..|order| - 1][..k] == order[..k];
      FailedAlready(endpoints, order[..|order| - 1], k, current, next);
    }
  }

  lemma AllVisited(endpoints: map<string, Endpoint>, order: seq<string>, current: string, next: string,
      moved: map<string, Endpoint>)
    requires UniqueHosts(endpoints) && Visits(endpoints, order, current)
    requires FreeInOrder(endpoints, order, current, next) && MovedUpTo(endpoints, order, current, next, moved)
    ensures moved == EndpointsMoved(endpoints, current, next) && UniqueHosts(moved)
  {
    hide Under, Renamed;
    forall e | e in endpoints ensures moved[e] == EndpointsMoved(endpoints, current, next)[e] {
      assert e in order <==> Moving(endpoints, e, current);
    }
    forall a, b | a in endpoints && b in endpoints && a != b
        && a in order ensures moved[a].hostname != moved[b].hostname {
      if b in order {
        NewHostnamesDiffer(endpoints, a, b, current, next);
      } else {
        var k :| 0 <= k < |order| && order[k] == a;
        assert b !in order[..k + 1];
      }
    }
  }

  /** The statement itself. */
  method MoveEndpointRows(endpoints: map<string, Endpoint>, order: seq<string>, current: string, next: string)
    returns (ok: bool, moved: map<string, Endpoint>)
    requires UniqueHosts(endpoints) && Visits(endpoints, order, current)
    ensures ok <==> FreeInOrder(endpoints, order, current, next)
    ensures ok ==> moved == EndpointsMoved(endpoints, current, next) && UniqueHosts(moved)
    ensures MoveInOrder(endpoints, order, current, next) == if ok then Some(moved) else None
  {
    hide Under, Renamed, UniqueHosts, FreeInOrder, MoveInOrder, NewHostname;
    moved := endpoints;
    NothingVisited(endpoints, current, next);
    for k := 0 to |order|
      invariant AllMoving(endpoints, order[..k], current)
      invariant MoveInOrder(endpoints, order[..k], current, next) == Some(moved)
    {
      MoveInOrderIff(endpoints, order[..k], current, next);
      var e := order[k];
      assert Moving(endpoints, e, current) && e !in order[..k] && moved[e] == endpoints[e];
      RenamedLength(endpoints, e, current, next);
      var hostname := Renamed(moved[e].hostname, current, next);
      NextVisited(endpoints, order, k, current, next);
      if exists other | other in moved :: other != e && moved[other].hostname == hostname {
        FailedAlready(endpoints, order, k + 1, current, next);
        MoveInOrderIff(endpoints, order, current, next);
        return false, endpoints;
      }
      moved := moved[e := moved[e].(hostname := hostname)];
    }
    assert order[..|order|] == order;
    MoveInOrderIff(endpoints, order, current, next);
    AllVisited(endpoints, order, current, next, moved);
    ok := true;
  }

  /** A managed row, moved or not, never has the name another managed row moves to. */
  lemma TakenByCustom(domains: map<Id, Domain>, current: string, next: string, id: Id, other: Id, pending: bool)
    requires Unique(domains) && AllOwned(domains, current) && current != next
    requires id in domains && domains[id].kind == Managed && other in domains && other != id
    requires Label(domains[id].name) + DOT + next == if pending then domains[other].name
        else Moved(domains, next)[other].name
    ensures Collides(domains, next)
  {
    LabelOf(Label(domains[id].name), next);
    LabelOf(Label(domains[other].name), next);
    assert domains[id].name != domains[other].name;
  }

  /** No custom domain is in the way of this row. */
  ghost predicate Clear(domains: map<Id, Domain>, next: string, id: Id)
    requires id in domains
  {
    forall b | b in domains && domains[b].kind == Custom :: domains[b].name != Label(domains[id].name) + DOT + next
  }

  /** Part-way through: the rows in `todo` are as they were, the others as they will be. */
  ghost predicate PartlyMoved(domains: map<Id, Domain>, next: string, moved: map<Id, Domain>, todo: set<Id>) {
    && moved.Keys == domains.Keys
    && (forall id | id in domains :: moved[id] == if id in todo then domains[id] else Moved(domains, next)[id])
    && (forall id | id in domains && domains[id].kind == Managed && id !in todo :: Clear(domains, next, id))
  }

  lemma RowMoves(domains: map<Id, Domain>, current: string, next: string, moved: map<Id, Domain>, todo: set<Id>,
      id: Id, name: string)
    requires Movable(domains, current, next) && PartlyMoved(domains, next, moved, todo)
    requires id in todo && id in domains && domains[id].kind == Managed && |current| <= |domains[id].name|
        && name == Renamed(domains[id].name, current, next)
    ensures (exists other | other in moved :: other != id && moved[other].name == name) ==> Collides(domains, next)
    ensures (forall other | other in moved :: other != id ==> moved[other].name != name)
      ==> PartlyMoved(domains, next, moved[id := moved[id].(name := name)], todo - {id})
  {
    hide Label, Renamed, Owned, Unique;
    RenamedOwned(domains[id].name, current, next);
    if other :| other in moved && other != id && moved[other].name == name {
      TakenByCustom(domains, current, next, id, other, other in todo);
    } else {
      assert Clear(domains, next, id) by {
        forall b | b in domains && domains[b].kind == Custom ensures domains[b].name != name {
          assert moved[b] == domains[b];
        }
      }
    }
  }

  lemma SuffixesMatch(domains: map<Id, Domain>, current: string)
    requires AllOwned(domains, current)
    ensures forall id | id in domains && domains[id].kind == Managed :: EndsWith(domains[id].name, DOT + current)
  {
    forall id | id in domains && domains[id].kind == Managed ensures EndsWith(domains[id].name, DOT + current) {
      OwnedEndsWith(domains[id].name, current);
    }
  }

  // ----- the store --------------------------------------------------------

  datatype MoveResult =
    | MoveDone | DomainsRequired | DomainChanged | HasActiveConnections | TeardownRequired
    | Mismatched | NameTaken | HostTaken

  class DomainStore {
    var platformDomain: string
    var domains: map<Id, Domain>
    var endpoints: map<string, Endpoint>
    var liveConnections: nat
    var pendingOperations: nat

    ghost function State(): Platform
      reads this
    {
      Platform(platformDomain, domains, endpoints, liveConnections, pendingOperations)
    }

    constructor (platformDomain: string)
      ensures State() == Platform(platformDomain, map[], map[], 0, 0) && Sound(State())
    {
      this.platformDomain, domains, endpoints := platformDomain, map[], map[];
      liveConnections, pendingOperations := 0, 0;
    }

    method CheckDatabaseGatewayDomainChangeAllowed() returns (r: MoveResult)
      ensures r.MoveDone? <==> GatewaysQuiet(State())
      ensures r.MoveDone? || r == if liveConnections > 0 then HasActiveConnections else TeardownRequired
    {
      if liveConnections > 0 { return HasActiveConnections; }
      if pendingOperations > 0 || exists e | e in endpoints :: !endpoints[e].absent { return TeardownRequired; }
      r := MoveDone;
    }

    /** Moves every managed name and every gateway endpoint, or nothing. `order` is the order in which the
        database visits the endpoint rows. */
    method UpdatePlatformDomain(current: string, next: string, order: seq<string>) returns (r: MoveResult)
      requires UniqueHosts(endpoints) && Visits(endpoints, order, current)
      modifies this
      ensures r.MoveDone? || State() == old(State())
      ensures r.DomainChanged? <==> current != "" && next != "" && current != next && current != old(platformDomain)
      ensures old(Sound(State())) ==>
        && Sound(State())
        && (r.MoveDone? <==>
              current == next != "" || (MoveAllowed(old(State()), current, next)
                  && FreeInOrder(old(endpoints), order, current, next)))
        && State() == (if r.MoveDone? && current != next then AfterMove(old(State()), next) else old(State()))
        && !r.Mismatched? && (r.NameTaken? ==> Collides(old(domains), next))
    {
      hide HostsFree, UniqueHosts, FreeInOrder, Visits;
      ghost var sound := Sound(State());
      if sound { SuffixesMatch(domains, platformDomain); }
      if current == "" || next == "" { return DomainsRequired; }
      if current == next { return MoveDone; }
      if platformDomain != current { return DomainChanged; }
      r := CheckDatabaseGatewayDomainChangeAllowed();
      if !r.MoveDone? { return; }
      if exists id | id in domains :: domains[id].kind == Managed && !EndsWith(domains[id].name, DOT + current) {
        return Mismatched;
      }
      var ok, moved := MoveManagedRows(domains, current, next);
      if !ok { return NameTaken; }
      var hostsOk, movedEndpoints := MoveEndpointRows(endpoints, order, current, next);
      if !hostsOk { return HostTaken; }
      if sound { MoveKeepsNames(State(), next); }
      domains, endpoints, platformDomain := moved, movedEndpoints, next;
    }

    /** The managed name of a service environment: the existing one, or a new one with the first of the
        drawn labels that is not taken. Does nothing before a platform domain is set. */
    method EnsurePlatformServiceDomain(service: string, environment: string, known: bool, ids: seq<Id>,
        labels: seq<string>)
      returns (r: Result<Option<Id>>)
      requires Sound(State())
      requires |labels| == |ids| == 12 && (forall k | 0 <= k < 12 :: '.' !in labels[k])
      requires forall k | 0 <= k < 12 :: ids[k] !in domains
      modifies this`domains
      ensures Sound(State())
      ensures r.Ok? && r.value.Some? ==>
        r.value.value in domains && domains[r.value.value].kind == Managed
        && domains[r.value.value].service == service && domains[r.value.value].environment == environment
      ensures domains == old(domains)
        || (exists k :: 0 <= k < 12 && r == Ok(Some(ids[k]))
             && (forall j | 0 <= j < k :: Taken(old(domains), labels[j] + DOT + platformDomain))
             && domains == old(domains)[ids[k] := Domain(labels[k] + DOT + platformDomain, Managed, service,
                environment)])
      ensures r == Ok(None) <==> !HasManaged(old(domains), service, environment) && platformDomain == ""
      ensures HasManaged(old(domains), service, environment) ==> r.Ok? && domains == old(domains)
      ensures !r.Ok? && known ==> forall k | 0 <= k < 12 :: Taken(domains, labels[k] + DOT + platformDomain)
    {
      var mine := set id | id in domains && domains[id].kind == Managed && domains[id].service == service
          && domains[id].environment == environment;
      assert HasManaged(domains, service, environment) ==> mine != {} by {
        assert forall id | id in domains && domains[id].kind == Managed ::
          domains[id].service == service && domains[id].environment == environment ==> id in mine;
      }
      if mine != {} {
        var id :| id in mine;
        return Ok(Some(id));
      }
      if platformDomain == "" { return Ok(None); }
      if !known { return Rejected; }
      for attempt := 0 to 12
        invariant domains == old(domains)
        invariant forall k | 0 <= k < attempt :: Taken(domains, labels[k] + DOT + platformDomain)
      {
        var name := labels[attempt] + DOT + platformDomain;
        if !Taken(domains, name) {
          LabelOf(labels[attempt], platformDomain);
          forall id | id in domains && domains[id].kind == Managed
            ensures domains[id].service != service || domains[id].environment != environment { assert id !in mine; }
          domains := domains[ids[attempt] := Domain(name, Managed, service, environment)];
          return Ok(Some(ids[attempt]));
        }
      }
      r := Rejected;
    }

    method CreateServiceDomain(id: Id, name: string, service: string, environment: string, known: bool)
      returns (r: Result<()>)
      requires Sound(State()) && id !in domains
      modifies this`domains
      ensures Sound(State())
      ensures r.Ok? <==> known && !Taken(old(domains), name)
      ensures domains == if r.Ok? then old(domains)[id := Domain(name, Custom, service, environment)] else old(domains)
    {
      if !known { return Rejected; }
      if Taken(domains, name) { return Rejected; }
      domains := domains[id := Domain(name, Custom, service, environment)];
      r := Ok(());
    }

    /** Puts back a row read earlier. A managed one is sound only if the platform domain is still its own. */
    method RestoreServiceDomain(id: Id, item: Domain) returns (r: Result<()>)
      requires Sound(State())
      modifies this`domains
      ensures r.Ok? <==> (
        && id !in old(domains) && !Taken(old(domains), item.name)
        && (item.kind == Managed ==> !HasManaged(old(domains), item.service, item.environment)))
      ensures domains == if r.Ok? then old(domains)[id := item] else old(domains)
      ensures r.Ok? ==> (Sound(State()) <==> item.kind == Custom || Owned(item.name, platformDomain))
    {
      if id in domains || Taken(domains, item.name) { return Rejected; }
      if item.kind == Managed && HasManaged(domains, item.service, item.environment) { return Rejected; }
      domains := domains[id := item];
      assert AllOwned(domains, platformDomain) ==>
        domains[id].kind == Managed ==> Owned(domains[id].name, platformDomain);
      r := Ok(());
    }

    /** Managed rows cannot be renamed by hand. */
    method UpdateServiceDomain(id: Id, name: string, service: string, known: bool) returns (r: Result<()>)
      requires Sound(State())
      modifies this`domains
      ensures Sound(State())
      ensures id in old(domains) && old(domains)[id].kind == Managed ==> r == Rejected
      ensures r.Ok? ==> id in old(domains)
      ensures r.Ok? ==>
        var row := old(domains)[id];
        domains == old(domains)[id := row.(name := name, service := if service == "" then row.service else service)]
      ensures !r.Ok? ==> domains == old(domains)
    {
      if id !in domains { return NoRows; }
      if domains[id].kind == Managed { return Rejected; }
      if !known { return Rejected; }
      if exists other | other in domains :: other != id && domains[other].name == name { return Rejected; }
      var row := domains[id];
      domains := domains[id := row.(name := name, service := if service == "" then row.service else service)];
      r := Ok(());
    }

    /** Nor deleted: once made, a managed row stays. */
    method DeleteServiceDomain(id: Id) returns (r: Result<()>)
      requires Sound(State())
      modifies this`domains
      ensures Sound(State())
      ensures r.Ok? <==> id in old(domains) && old(domains)[id].kind == Custom
      ensures domains == if r.Ok? then old(domains) - {id} else old(domains)
    {
      if id !in domains { return NoRows; }
      if domains[id].kind == Managed { return Rejected; }
      domains := domains - {id};
      r := Ok(());
    }
  }
}
