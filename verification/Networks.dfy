/** Connections between boxes: identity, selectors, and the reconciliation of a
    connection with its network (internal/connection/identity.go and
    internal/sandbox/connections.go). */
module Networks {
  import opened Ordering
  import opened PortForward
  import opened Records

  // ---- identity -------------------------------------------------------------

  predicate HexDigit(c: char) { 'a' <= c <= 'f' || '0' <= c <= '9' }

  predicate ValidBoxId(id: string)
  {
    |id| == 12 && forall i | 0 <= i < 12 :: HexDigit(id[i])
  }

  /** Identifiers are twelve lower-case hexadecimal digits. */
  lemma ValidBoxIdSays(id: string)
    ensures ValidBoxId(id) <==> |id| == 12 && forall c | c in id :: c in "0123456789abcdef"
  {
    forall i | 0 <= i < |id| { HexDigitsSay(id[i]); }
    hide HexDigit;
  }

  lemma HexDigitsSay(c: char)
    ensures HexDigit(c) <==> c in "0123456789abcdef"
  {
  }

  ghost predicate Identifiable(ids: seq<string>)
  {
    && |ids| >= 2
    && (forall i | 0 <= i < |ids| :: ValidBoxId(ids[i]))
    && forall i, j | 0 <= i < j < |ids| :: ids[i] != ids[j]
  }

  /** Sorts a copy of the members and hashes it; at least two valid and
      distinct members are required. */
  method ID(hash: seq<string> -> string, ids: seq<string>) returns (r: Option<string>, sorted: seq<string>)
    ensures r.Some? <==> Identifiable(ids)
    ensures r.Some? ==> r.value == hash(sorted) && StrictlySorted(sorted) && multiset(sorted) == multiset(ids)
  {
    hide ValidBoxId, Identifiable, StringLe, SortedBy;
    sorted := ids;
    if |ids| < 2 {
      TooFew(ids);
      return None, sorted;
    }
    sorted := Sort(StringLe, ids);
    StringsSort(ids);
    for k := 0 to |sorted|
      invariant forall i | 0 <= i < k :: ValidBoxId(sorted[i])
      invariant forall i | 0 < i < k :: sorted[i] != sorted[i - 1]
    {
      if !ValidBoxId(sorted[k]) || (k > 0 && sorted[k] == sorted[k - 1]) {
        Unidentifiable(ids, sorted, k);
        return None, sorted;
      }
    }
    Rising(sorted);
    AllIdentifiable(ids, sorted);
    return Some(hash(sorted)), sorted;
  }

  lemma TooFew(ids: seq<string>)
    requires |ids| < 2
    ensures !Identifiable(ids)
  {
  }

  lemma StringsSort(ids: seq<string>)
    ensures SortOf(StringLe, Sort(StringLe, ids), ids)
  {
    var all := set x | x in ids;
    StringOrderOn(all);
    SortSorted(StringLe, ids, all);
  }

  lemma Rising(sorted: seq<string>)
    requires SortedBy(StringLe, sorted) && forall i | 0 < i < |sorted| :: sorted[i] != sorted[i - 1]
    ensures StrictlySorted(sorted)
  {
    forall i, j | 0 <= i < j < |sorted| ensures StringLess(sorted[i], sorted[j]) {
      if sorted[i] == sorted[j] {
        assert StringLe(sorted[i], sorted[i + 1]);
        if i + 1 < j { assert StringLe(sorted[i + 1], sorted[j]); }
        StringLeTotal(sorted[i], sorted[i + 1]);
      }
    }
  }

  lemma Unidentifiable(ids: seq<string>, sorted: seq<string>, k: nat)
    requires multiset(sorted) == multiset(ids) && k < |sorted|
    requires !ValidBoxId(sorted[k]) || (k > 0 && sorted[k] == sorted[k - 1])
    ensures !Identifiable(ids)
  {
    hide ValidBoxId;
    assert sorted[k] in multiset(ids);
    var p :| 0 <= p < |ids| && ids[p] == sorted[k];
    if Identifiable(ids) {
      CountOnce(ids, p);
      CountTwice(sorted, k - 1, k);
    }
  }

  lemma AllIdentifiable(ids: seq<string>, sorted: seq<string>)
    requires multiset(sorted) == multiset(ids) && |ids| >= 2 && StrictlySorted(sorted)
    requires forall i | 0 <= i < |sorted| :: ValidBoxId(sorted[i])
    ensures Identifiable(ids)
  {
    hide ValidBoxId;
    forall i | 0 <= i < |ids| ensures ValidBoxId(ids[i]) {
      assert ids[i] in multiset(sorted);
      assert ids[i] in sorted;
    }
    StrictNoDuplicates(sorted);
    forall i, j | 0 <= i < j < |ids| ensures ids[i] != ids[j] {
      if ids[i] == ids[j] { CountTwice(ids, i, j); }
    }
  }

  /** The identity of a group of boxes does not depend on the order in which
      they are named. */
  lemma IdIgnoresOrder(a: seq<string>, b: seq<string>, sortedA: seq<string>, sortedB: seq<string>)
    requires multiset(a) == multiset(b)
    requires StrictlySorted(sortedA) && multiset(sortedA) == multiset(a)
    requires StrictlySorted(sortedB) && multiset(sortedB) == multiset(b)
    ensures sortedA == sortedB
    ensures Identifiable(a) <==> Identifiable(b)
  {
    assert forall x :: x in sortedA <==> x in multiset(sortedA);
    assert forall x :: x in sortedB <==> x in multiset(sortedB);
    StrictlySortedUnique(sortedA, sortedB);
    SameLength(a, b);
    assert forall x :: x in a <==> x in multiset(a);
    assert forall x :: x in b <==> x in multiset(b);
    if Identifiable(a) { IdentifiableMoves(a, b); }
    if Identifiable(b) { IdentifiableMoves(b, a); }
  }

  lemma IdentifiableMoves(a: seq<string>, b: seq<string>)
    requires multiset(a) == multiset(b) && Identifiable(a)
    ensures Identifiable(b)
  {
    hide ValidBoxId;
    SameLength(a, b);
    forall i | 0 <= i < |b| ensures ValidBoxId(b[i]) {
      assert b[i] in multiset(a);
      assert b[i] in a;
    }
    forall i, j | 0 <= i < j < |b| ensures b[i] != b[j] {
      if b[i] == b[j] {
        CountTwice(b, i, j);
        assert b[i] in multiset(a);
        var p :| 0 <= p < |a| && a[p] == b[i];
        CountOnce(a, p);
      }
    }
  }

  // ---- selectors ------------------------------------------------------------

  datatype Selected = Found(id: string) | NotFound | Ambiguous

  predicate Prefix(s: string, t: string) { |s| <= |t| && t[..|s|] == s }

  /** A selector matches an identifier it is a long enough prefix of, or a name. */
  predicate Matches(selector: string, id: string, name: string, named: bool)
  {
    (|selector| >= 3 && Prefix(selector, id)) || (name == selector && named)
  }

  /** What a selector may mean: identifiers it starts, by three characters or
      more, and names. */
  ghost function Hits(names: map<string, string>, selector: string, named: bool): set<string>
  {
    set id | id in names && ((|selector| > 2 && selector <= id) || (named && names[id] == selector))
  }

  /** What a selector stands for: an exact identifier wins; otherwise the one
      match, and an error exactly when there is none or more than one. */
  ghost predicate ResolvesTo(names: map<string, string>, selector: string, named: bool, r: Selected)
  {
    if selector in names then r == Found(selector)
    else
      match r
      case Found(id) => Hits(names, selector, named) == {id}
      case NotFound => Hits(names, selector, named) == {}
      case Ambiguous => |Hits(names, selector, named)| >= 2
  }

  /** A selector stands for one thing only. */
  lemma ResolvesUniquely(names: map<string, string>, selector: string, named: bool, r: Selected, s: Selected)
    requires ResolvesTo(names, selector, named, r) && ResolvesTo(names, selector, named, s)
    ensures r == s
  {
    hide Hits;
    if selector !in names && r.Found? && s.Found? {
      assert r.id in {s.id};
    }
  }

  /** The search behind both selectors. */
  method Resolve(names: map<string, string>, selector: string, named: bool) returns (r: Selected)
    ensures ResolvesTo(names, selector, named, r)
    ensures r.Found? ==> r.id in names && (r.id == selector || Matches(selector, r.id, names[r.id], named))
  {
    hide Matches, Hits;
    if selector in names {
      return Found(selector);
    }
    var matches := Search(names, selector, named);
    if matches == {} {
      return NotFound;
    }
    var id :| id in matches;
    AloneOrNot(matches, id);
    HitMatches(names, selector, named, id);
    return if matches == {id} then Found(id) else Ambiguous;
  }

  lemma HitMatches(names: map<string, string>, selector: string, named: bool, id: string)
    requires id in Hits(names, selector, named)
    ensures id in names && Matches(selector, id, names[id], named)
  {
  }

  lemma HitsAre(names: map<string, string>, selector: string, named: bool, id: string)
    requires id in names
    ensures id in Hits(names, selector, named) <==> Matches(selector, id, names[id], named)
  {
  }

  method Search(names: map<string, string>, selector: string, named: bool) returns (matches: set<string>)
    ensures matches == Hits(names, selector, named)
  {
    hide Matches;
    matches := {};
    var rest := names.Keys;
    while rest != {}
      invariant rest <= names.Keys
      invariant matches == Hits(names, selector, named) - rest
      decreases rest
    {
      var id :| id in rest;
      rest := rest - {id};
      HitsAre(names, selector, named, id);
      if Matches(selector, id, names[id], named) {
        matches := matches + {id};
      }
    }
  }

  lemma AloneOrNot(s: set<string>, x: string)
    requires x in s
    ensures s == {x} <==> |s| < 2
  {
    assert |s - {x}| == |s| - 1;
    assert s - {x} == {} ==> s == {x};
  }

  function BoxNames(boxes: map<string, Box>): map<string, string>
  {
    map id | id in boxes :: boxes[id].name
  }

  function ConnectionNames(connections: map<string, Connection>): map<string, string>
  {
    map id | id in connections :: connections[id].name
  }

  method ResolveBox(boxes: map<string, Box>, selector: string) returns (r: Selected)
    ensures ResolvesTo(BoxNames(boxes), selector, true, r)
    ensures r.Found? ==> r.id in boxes
    ensures selector in boxes ==> r == Found(selector)
    ensures r.Found? && r.id != selector ==> Matches(selector, r.id, boxes[r.id].name, true)
  {
    r := Resolve(BoxNames(boxes), selector, true);
  }

  method ResolveConnection(connections: map<string, Connection>, selector: string) returns (r: Selected)
    ensures ResolvesTo(ConnectionNames(connections), selector, selector != "", r)
    ensures r.Found? ==> r.id in connections
    ensures selector in connections ==> r == Found(selector)
    ensures r.Found? && r.id != selector ==> Matches(selector, r.id, connections[r.id].name, selector != "")
  {
    r := Resolve(ConnectionNames(connections), selector, selector != "");
  }

  // ---- reconciling a connection with its network ----------------------------

  datatype NetService = DockerEndpoint | WebtopEndpoint

  /** What inspecting a connection network reports; an endpoint is listed when
      its address is not empty. */
  datatype NetworkStatus = NetworkStatus(
    present: bool, managed: bool, connectionId: string, endpoints: set<(string, NetService)>)

  datatype NetworkAnswer = Answered(status: NetworkStatus) | Unanswered(error: string)

  /** The outcome of every network call that one operation can make, by
      connection, member and service; a text is the error of the call. */
  datatype NetworkCalls = NetworkCalls(
    ensure: string -> Option<string>,
    attach: (string, string, NetService) -> Option<string>,
    inspect: string -> NetworkAnswer,
    detach: (string, string, NetService) -> Option<string>,
    remove: string -> Option<string>)

  predicate ReadyMember(boxes: map<string, Box>, m: string)
  {
    m in boxes && boxes[m].status == Ready
  }

  /** The first error of attaching the ready members in order. */
  function AttachError(calls: NetworkCalls, boxes: map<string, Box>, id: string, members: seq<string>): Option<string>
  {
    if members == [] then None
    else
      var earlier := AttachError(calls, boxes, id, members[..|members| - 1]);
      var m := members[|members| - 1];
      if earlier.Some? || !ReadyMember(boxes, m) then earlier
      else if calls.attach(id, m, DockerEndpoint).Some? then calls.attach(id, m, DockerEndpoint)
      else calls.attach(id, m, WebtopEndpoint)
  }

  predicate Verified(status: NetworkStatus, id: string)
  {
    status.present && status.managed && status.connectionId == id
  }

  predicate Attached(status: NetworkStatus, m: string)
  {
    (m, DockerEndpoint) in status.endpoints && (m, WebtopEndpoint) in status.endpoints
  }

  /** Every member is ready and reachable under both services. */
  predicate Complete(boxes: map<string, Box>, status: NetworkStatus, members: seq<string>)
  {
    forall i | 0 <= i < |members| :: ReadyMember(boxes, members[i]) && Attached(status, members[i])
  }

  const UNVERIFIED := "connection network failed verification"

  function ReconcileError(calls: NetworkCalls, boxes: map<string, Box>, c: Connection): Option<string>
  {
    if calls.ensure(c.id).Some? then calls.ensure(c.id)
    else if AttachError(calls, boxes, c.id, c.members).Some? then AttachError(calls, boxes, c.id, c.members)
    else
      match calls.inspect(c.id)
      case Unanswered(error) => Some(error)
      case Answered(status) => if Verified(status, c.id) then None else Some(UNVERIFIED)
  }

  function Reconciled(calls: NetworkCalls, boxes: map<string, Box>, c: Connection): Connection
  {
    var error := ReconcileError(calls, boxes, c);
    if error.Some? then c.(status := ConnectionError, error := error.value)
    else c.(status := if Complete(boxes, calls.inspect(c.id).status, c.members) then ConnectionReady else ConnectionDegraded,
            error := "")
  }

  function Observed(answer: NetworkAnswer, boxes: map<string, Box>, c: Connection): Connection
  {
    match answer
    case Unanswered(error) => c.(status := ConnectionError, error := error)
    case Answered(status) =>
      c.(status := if Verified(status, c.id) && Complete(boxes, status, c.members) then ConnectionReady
                   else ConnectionDegraded,
         error := "")
  }

  /** No call of reconciling a connection fails, and the network is its own. */
  ghost predicate Reconcilable(calls: NetworkCalls, boxes: map<string, Box>, c: Connection)
  {
    && calls.ensure(c.id).None?
    && (forall m | m in c.members && m in boxes && boxes[m].status == Ready ::
          calls.attach(c.id, m, DockerEndpoint).None? && calls.attach(c.id, m, WebtopEndpoint).None?)
    && calls.inspect(c.id).Answered?
    && var status := calls.inspect(c.id).status;
    status.present && status.managed && status.connectionId == c.id
  }

  /** Every member is ready, and the network lists both of its endpoints. */
  ghost predicate ReachesAll(boxes: map<string, Box>, members: seq<string>, endpoints: set<(string, NetService)>)
  {
    forall m | m in members ::
      && m in boxes && boxes[m].status == Ready
      && (m, DockerEndpoint) in endpoints && (m, WebtopEndpoint) in endpoints
  }

  lemma {:induction false} AttachErrorSays(calls: NetworkCalls, boxes: map<string, Box>, id: string, members: seq<string>)
    ensures AttachError(calls, boxes, id, members).None? <==>
            forall m | m in members && m in boxes && boxes[m].status == Ready ::
              calls.attach(id, m, DockerEndpoint).None? && calls.attach(id, m, WebtopEndpoint).None?
    decreases |members|
  {
    if members != [] {
      var n := |members| - 1;
      AttachErrorSays(calls, boxes, id, members[..n]);
      assert members == members[..n] + [members[n]];
    }
  }

  lemma CompleteSays(boxes: map<string, Box>, status: NetworkStatus, members: seq<string>)
    ensures Complete(boxes, status, members) <==> ReachesAll(boxes, members, status.endpoints)
  {
    forall i | 0 <= i < |members| ensures members[i] in members {}
  }

  /** When reconciling meets no error, and what it records. */
  lemma ReconciledSays(calls: NetworkCalls, boxes: map<string, Box>, c: Connection)
    ensures ReconcileError(calls, boxes, c).None? <==> Reconcilable(calls, boxes, c)
    ensures var r := Reconciled(calls, boxes, c);
            && r.id == c.id && r.name == c.name && r.version == c.version && r.members == c.members
            && (Reconcilable(calls, boxes, c) ==>
                  && r.error == ""
                  && r.status == if ReachesAll(boxes, c.members, calls.inspect(c.id).status.endpoints) then ConnectionReady
                                 else ConnectionDegraded)
            && (!Reconcilable(calls, boxes, c) ==>
                  r.status == ConnectionError && Some(r.error) == ReconcileError(calls, boxes, c))
  {
    hide AttachError, Complete, ReachesAll;
    AttachErrorSays(calls, boxes, c.id, c.members);
    if calls.inspect(c.id).Answered? {
      CompleteSays(boxes, calls.inspect(c.id).status, c.members);
    }
  }

  /** What Connections reports: ready exactly when the network is its own and
      reaches every member, an error exactly when it cannot be inspected. */
  lemma ObservedSays(answer: NetworkAnswer, boxes: map<string, Box>, c: Connection)
    ensures var r := Observed(answer, boxes, c);
            && r.id == c.id && r.name == c.name && r.version == c.version && r.members == c.members
            && (r.status == ConnectionReady <==>
                && answer.Answered? && answer.status.present && answer.status.managed
                && answer.status.connectionId == c.id && ReachesAll(boxes, c.members, answer.status.endpoints))
            && (r.status == ConnectionError <==> answer.Unanswered?)
            && r.error == if answer.Unanswered? then answer.error else ""
  {
    hide Complete, ReachesAll;
    if answer.Answered? {
      CompleteSays(boxes, answer.status, c.members);
    }
  }

  method ReconcileConnection(calls: NetworkCalls, boxes: map<string, Box>, c: Connection)
    returns (r: Connection, error: Option<string>)
    ensures r == Reconciled(calls, boxes, c) && error == ReconcileError(calls, boxes, c)
    ensures error.None? <==> Reconcilable(calls, boxes, c)
  {
    ReconciledSays(calls, boxes, c);
    error := calls.ensure(c.id);
    if error.Some? {
      return c.(status := ConnectionError, error := error.value), error;
    }
    var degraded := false;
    for k := 0 to |c.members|
      invariant AttachError(calls, boxes, c.id, c.members[..k]).None?
      invariant degraded <==> exists i | 0 <= i < k :: !ReadyMember(boxes, c.members[i])
    {
      var m := c.members[k];
      assert c.members[..k + 1][..k] == c.members[..k];
      if !ReadyMember(boxes, m) {
        degraded := true;
        continue;
      }
      error := calls.attach(c.id, m, DockerEndpoint);
      if error.None? {
        error := calls.attach(c.id, m, WebtopEndpoint);
      }
      if error.Some? {
        AttachErrorStays(calls, boxes, c.id, c.members, k + 1);
        return c.(status := ConnectionError, error := error.value), error;
      }
    }
    assert c.members[..|c.members|] == c.members;
    var answer := calls.inspect(c.id);
    if answer.Unanswered? {
      return c.(status := ConnectionError, error := answer.error), Some(answer.error);
    }
    if !Verified(answer.status, c.id) {
      return c.(status := ConnectionError, error := UNVERIFIED), Some(UNVERIFIED);
    }
    var reachable := AllReachable(boxes, answer.status, c.members);
    degraded := degraded || !reachable;
    return c.(status := if degraded then ConnectionDegraded else ConnectionReady, error := ""), None;
  }

  lemma {:induction false} AttachErrorStays(calls: NetworkCalls, boxes: map<string, Box>, id: string, members: seq<string>,
                                            k: nat)
    requires k <= |members| && AttachError(calls, boxes, id, members[..k]).Some?
    ensures AttachError(calls, boxes, id, members) == AttachError(calls, boxes, id, members[..k])
    decreases |members|
  {
    if k == |members| {
      assert members[..k] == members;
    } else {
      assert members[..|members| - 1][..k] == members[..k];
      AttachErrorStays(calls, boxes, id, members[..|members| - 1], k);
    }
  }

  /** The loop over members and services after an inspection. */
  method AllReachable(boxes: map<string, Box>, status: NetworkStatus, members: seq<string>) returns (r: bool)
    ensures r <==> Complete(boxes, status, members)
  {
    r := true;
    for k := 0 to |members|
      invariant r <==> Complete(boxes, status, members[..k])
    {
      assert members[..k + 1] == members[..k] + [members[k]];
      if !ReadyMember(boxes, members[k]) || !Attached(status, members[k]) {
        r := false;
      }
    }
    assert members[..|members|] == members;
  }

  method ObserveConnection(answer: NetworkAnswer, boxes: map<string, Box>, c: Connection) returns (r: Connection)
    ensures r == Observed(answer, boxes, c)
  {
    if answer.Unanswered? {
      return c.(status := ConnectionError, error := answer.error);
    }
    if !Verified(answer.status, c.id) {
      return c.(status := ConnectionDegraded, error := "");
    }
    var reachable := AllReachable(boxes, answer.status, c.members);
    return c.(status := if reachable then ConnectionReady else ConnectionDegraded, error := "");
  }

  /** What Connections reports of a connection is what reconciling it recorded,
      as long as the network still answers the same: exactly when the
      reconciliation succeeded or failed on that answer being an error. */
  lemma ObservationAgrees(calls: NetworkCalls, boxes: map<string, Box>, c: Connection)
    ensures Observed(calls.inspect(c.id), boxes, Reconciled(calls, boxes, c)).status == Reconciled(calls, boxes, c).status
            <==> ReconcileError(calls, boxes, c).None? || calls.inspect(c.id).Unanswered?
  {
  }

  // ---- all connections of a box ---------------------------------------------

  type Connections = map<string, Connection>

  /** The same connections with other statuses and errors. */
  ghost predicate Refreshed(before: Connections, after: Connections)
  {
    && before.Keys == after.Keys
    && forall id | id in before :: after[id] == before[id].(status := after[id].status, error := after[id].error)
  }

  /** A connection that lists the box is reconciled once it had its turn. */
  ghost predicate RefreshedAt(calls: NetworkCalls, boxes: map<string, Box>, before: Connections, after: Connections,
                              box: string, id: string, turn: bool)
  {
    && (id in after <==> id in before)
    && (id in before && id in after ==>
          after[id] == if turn && box in before[id].members then Reconciled(calls, boxes, before[id]) else before[id])
  }

  ghost predicate RefreshedUpTo(calls: NetworkCalls, boxes: map<string, Box>, before: Connections, after: Connections,
                                box: string, done: seq<string>)
  {
    forall id: string :: RefreshedAt(calls, boxes, before, after, box, id, id in done)
  }

  lemma RefreshNext(calls: NetworkCalls, boxes: map<string, Box>, before: Connections, now: Connections, box: string,
                    done: seq<string>, id: string)
    requires RefreshedUpTo(calls, boxes, before, now, box, done) && id in before && id !in done
    ensures id in now && now[id] == before[id]
    ensures RefreshedUpTo(calls, boxes, before,
                          if box in before[id].members then now[id := Reconciled(calls, boxes, before[id])] else now,
                          box, done + [id])
  {
    hide Reconciled;
    assert RefreshedAt(calls, boxes, before, now, box, id, id in done);
    var next := if box in before[id].members then now[id := Reconciled(calls, boxes, before[id])] else now;
    forall other: string ensures RefreshedAt(calls, boxes, before, next, box, other, other in done + [id]) {
      assert RefreshedAt(calls, boxes, before, now, box, other, other in done);
    }
  }

  lemma RefreshedUpToRefreshes(calls: NetworkCalls, boxes: map<string, Box>, before: Connections, after: Connections,
                               box: string, done: seq<string>)
    requires RefreshedUpTo(calls, boxes, before, after, box, done)
    ensures Refreshed(before, after)
  {
    hide ReconcileError;
    forall id | id in before || id in after
      ensures id in before && id in after
      ensures after[id] == before[id].(status := after[id].status, error := after[id].error)
    {
      assert RefreshedAt(calls, boxes, before, after, box, id, id in done);
    }
  }

  /** Reconciling the connection of an identifier meets no error. */
  predicate Fine(calls: NetworkCalls, boxes: map<string, Box>, before: Connections, box: string, id: string)
  {
    id in before && box in before[id].members ==> ReconcileError(calls, boxes, before[id]).None?
  }

  /** reconcileConnectionsForBox: in the order of the identifiers, up to the
      first error; what was reconciled before it stays. */
  method ReconcileForBox(calls: NetworkCalls, boxes: map<string, Box>, before: Connections, box: string)
    returns (ok: bool, after: Connections)
    ensures Refreshed(before, after)
    ensures ok <==> forall id | id in before :: Fine(calls, boxes, before, box, id)
    ensures ok ==> forall id: string :: RefreshedAt(calls, boxes, before, after, box, id, true)
  {
    hide ReconcileError, Reconciled, RefreshedUpTo, Refreshed;
    after := before;
    ok := true;
    var ids := SortedStrings(before.Keys);
    NothingRefreshed(calls, boxes, before, box);
    for k := 0 to |ids|
      invariant RefreshedUpTo(calls, boxes, before, after, box, ids[..k])
      invariant forall j | 0 <= j < k :: Fine(calls, boxes, before, box, ids[j])
    {
      var id := ids[k];
      assert id in ids;
      NotBefore(ids, k);
      assert ids[..k + 1] == ids[..k] + [id];
      RefreshNext(calls, boxes, before, after, box, ids[..k], id);
      if box in after[id].members {
        var c, error := ReconcileConnection(calls, boxes, after[id]);
        after := after[id := c];
        if error.Some? {
          RefreshedUpToRefreshes(calls, boxes, before, after, box, ids[..k + 1]);
          assert !Fine(calls, boxes, before, box, id);
          return false, after;
        }
      }
    }
    RefreshedUpToRefreshes(calls, boxes, before, after, box, ids[..|ids|]);
    AllRefreshed(calls, boxes, before, after, box, ids);
    forall id | id in before ensures Fine(calls, boxes, before, box, id) { assert id in ids; }
  }

  lemma NotBefore(ids: seq<string>, k: nat)
    requires StrictlySorted(ids) && k < |ids|
    ensures ids[k] !in ids[..k]
  {
    forall j | 0 <= j < k ensures ids[j] != ids[k] { assert StringLess(ids[j], ids[k]); }
  }

  lemma NothingRefreshed(calls: NetworkCalls, boxes: map<string, Box>, before: Connections, box: string)
    ensures RefreshedUpTo(calls, boxes, before, before, box, [])
  {
    hide Reconciled;
  }

  lemma AllRefreshed(calls: NetworkCalls, boxes: map<string, Box>, before: Connections, after: Connections, box: string,
                     ids: seq<string>)
    requires RefreshedUpTo(calls, boxes, before, after, box, ids[..|ids|]) && forall id | id in before :: id in ids
    ensures forall id: string :: RefreshedAt(calls, boxes, before, after, box, id, true)
  {
    hide Reconciled;
    assert ids[..|ids|] == ids;
    forall id: string ensures RefreshedAt(calls, boxes, before, after, box, id, true) {
      assert RefreshedAt(calls, boxes, before, after, box, id, id in ids[..|ids|]);
    }
  }

  // ---- taking a box out of its connections ----------------------------------

  /** The first error of detaching the members in order. */
  function DetachError(calls: NetworkCalls, id: string, members: seq<string>): Option<string>
  {
    if members == [] then None
    else
      var earlier := DetachError(calls, id, members[..|members| - 1]);
      var m := members[|members| - 1];
      if earlier.Some? then earlier
      else if calls.detach(id, m, DockerEndpoint).Some? then calls.detach(id, m, DockerEndpoint)
      else calls.detach(id, m, WebtopEndpoint)
  }

  lemma {:induction false} DetachErrorStays(calls: NetworkCalls, id: string, members: seq<string>, k: nat)
    requires k <= |members| && DetachError(calls, id, members[..k]).Some?
    ensures DetachError(calls, id, members) == DetachError(calls, id, members[..k])
    decreases |members|
  {
    if k == |members| {
      assert members[..k] == members;
    } else {
      assert members[..|members| - 1][..k] == members[..k];
      DetachErrorStays(calls, id, members[..|members| - 1], k);
    }
  }

  function DisconnectError(calls: NetworkCalls, c: Connection): Option<string>
  {
    var error := DetachError(calls, c.id, c.members);
    if error.Some? then error else calls.remove(c.id)
  }

  /** Detaches every member, then removes the network. */
  method DisconnectRuntime(calls: NetworkCalls, c: Connection) returns (error: Option<string>)
    ensures error == DisconnectError(calls, c)
    ensures error.None? <==> Disconnects(calls, c)
  {
    for k := 0 to |c.members|
      invariant DetachError(calls, c.id, c.members[..k]).None?
      invariant forall i | 0 <= i < k ::
                  calls.detach(c.id, c.members[i], DockerEndpoint).None?
                  && calls.detach(c.id, c.members[i], WebtopEndpoint).None?
    {
      assert c.members[..k + 1][..k] == c.members[..k];
      error := calls.detach(c.id, c.members[k], DockerEndpoint);
      if error.None? {
        error := calls.detach(c.id, c.members[k], WebtopEndpoint);
      }
      if error.Some? {
        DetachErrorStays(calls, c.id, c.members, k + 1);
        return;
      }
    }
    assert c.members[..|c.members|] == c.members;
    error := calls.remove(c.id);
  }

  /** The other members, in order. */
  function Others(members: seq<string>, box: string): seq<string>
  {
    if members == [] then []
    else Others(members[..|members| - 1], box) +
         (if members[|members| - 1] == box then [] else [members[|members| - 1]])
  }

  lemma {:induction false} OthersSay(members: seq<string>, box: string)
    ensures forall m :: m in Others(members, box) <==> m in members && m != box
    ensures StrictlySorted(members) ==> StrictlySorted(Others(members, box))
    decreases |members|
  {
    if members != [] {
      var n := |members| - 1;
      assert members == members[..n] + [members[n]];
      OthersSay(members[..n], box);
      forall i | 0 <= i < |Others(members[..n], box)| && StrictlySorted(members)
        ensures StringLess(Others(members[..n], box)[i], members[n])
      {
        assert Others(members[..n], box)[i] in members[..n];
      }
    }
  }

  /** What taking a box out leaves of one connection: nothing when fewer than
      two members remain, otherwise the rest of it, reconciled. */
  ghost predicate LeftAt(calls: NetworkCalls, boxes: map<string, Box>, before: Connections, after: Connections,
                         box: string, id: string, turn: bool)
  {
    if id !in before || !turn || box !in before[id].members then
      (id in after <==> id in before) && (id in before ==> after[id] == before[id])
    else
      var rest := Others(before[id].members, box);
      && (id in after <==> |rest| >= 2)
      && (id in after ==> after[id] == Reconciled(calls, boxes, before[id].(members := rest)))
  }

  ghost predicate LeftUpTo(calls: NetworkCalls, boxes: map<string, Box>, before: Connections, after: Connections,
                           box: string, done: seq<string>)
  {
    forall id: string :: LeftAt(calls, boxes, before, after, box, id, id in done)
  }

  function LeaveOne(calls: NetworkCalls, boxes: map<string, Box>, now: Connections, box: string, id: string): Connections
    requires id in now
  {
    var rest := Others(now[id].members, box);
    if box !in now[id].members then now
    else if |rest| < 2 then now - {id}
    else now[id := Reconciled(calls, boxes, now[id].(members := rest))]
  }

  lemma LeaveNext(calls: NetworkCalls, boxes: map<string, Box>, before: Connections, now: Connections, box: string,
                  done: seq<string>, id: string)
    requires LeftUpTo(calls, boxes, before, now, box, done) && id in before && id !in done
    ensures id in now && now[id] == before[id]
    ensures LeftUpTo(calls, boxes, before, LeaveOne(calls, boxes, now, box, id), box, done + [id])
  {
    hide Reconciled, Others;
    assert LeftAt(calls, boxes, before, now, box, id, id in done);
    var next := LeaveOne(calls, boxes, now, box, id);
    forall other: string ensures LeftAt(calls, boxes, before, next, box, other, other in done + [id]) {
      assert LeftAt(calls, boxes, before, now, box, other, other in done);
    }
  }

  predicate Disconnects(calls: NetworkCalls, c: Connection)
  {
    && (forall i | 0 <= i < |c.members| ::
          calls.detach(c.id, c.members[i], DockerEndpoint).None?
          && calls.detach(c.id, c.members[i], WebtopEndpoint).None?)
    && calls.remove(c.id).None?
  }

  /** Taking the box out of the connection of an identifier meets no error. */
  predicate LeavesFine(calls: NetworkCalls, boxes: map<string, Box>, before: Connections, box: string, id: string)
  {
    id in before && box in before[id].members ==>
      var rest := Others(before[id].members, box);
      if |rest| < 2 then Disconnects(calls, before[id])
      else ReconcileError(calls, boxes, before[id].(members := rest)).None?
  }

  /** removeBoxFromConnections. A failure is not saved by the caller. */
  method RemoveBox(calls: NetworkCalls, boxes: map<string, Box>, before: Connections, box: string)
    returns (ok: bool, after: Connections)
    ensures ok <==> forall id | id in before :: LeavesFine(calls, boxes, before, box, id)
    ensures ok ==> forall id: string :: LeftAt(calls, boxes, before, after, box, id, true)
  {
    hide ReconcileError, Reconciled, LeftUpTo, Others, Disconnects;
    after := before;
    ok := true;
    var ids := SortedStrings(before.Keys);
    NothingLeft(calls, boxes, before, box);
    for k := 0 to |ids|
      invariant LeftUpTo(calls, boxes, before, after, box, ids[..k])
      invariant forall j | 0 <= j < k :: LeavesFine(calls, boxes, before, box, ids[j])
    {
      var id := ids[k];
      assert id in ids;
      NotBefore(ids, k);
      assert ids[..k + 1] == ids[..k] + [id];
      LeaveNext(calls, boxes, before, after, box, ids[..k], id);
      var c := after[id];
      if box in c.members {
        var members := Others(c.members, box);
        if |members| < 2 {
          var error := DisconnectRuntime(calls, c);
          if error.Some? {
            assert !LeavesFine(calls, boxes, before, box, id);
            return false, after;
          }
          after := after - {id};
        } else {
          var r, error := ReconcileConnection(calls, boxes, c.(members := members));
          after := after[id := r];
          if error.Some? {
            assert !LeavesFine(calls, boxes, before, box, id);
            return false, after;
          }
        }
      }
    }
    AllLeft(calls, boxes, before, after, box, ids);
    forall id | id in before ensures LeavesFine(calls, boxes, before, box, id) { assert id in ids; }
  }

  lemma NothingLeft(calls: NetworkCalls, boxes: map<string, Box>, before: Connections, box: string)
    ensures LeftUpTo(calls, boxes, before, before, box, [])
  {
  }

  lemma AllLeft(calls: NetworkCalls, boxes: map<string, Box>, before: Connections, after: Connections, box: string,
                ids: seq<string>)
    requires LeftUpTo(calls, boxes, before, after, box, ids[..|ids|]) && forall id | id in before :: id in ids
    ensures forall id: string :: LeftAt(calls, boxes, before, after, box, id, true)
  {
    hide Reconciled, Others;
    assert ids[..|ids|] == ids;
    forall id: string ensures LeftAt(calls, boxes, before, after, box, id, true) {
      assert LeftAt(calls, boxes, before, after, box, id, id in ids[..|ids|]);
    }
  }

  // ---- the persisted connections stay sound ---------------------------------

  /** A connection that another replaces without changing what identifies it
      or adding members. */
  ghost predicate Narrows(before: Connection, after: Connection)
  {
    && after.id == before.id && after.name == before.name
    && |after.members| >= 2 && StrictlySorted(after.members)
    && forall m | m in after.members :: m in before.members
  }

  lemma NarrowedInv(hash: seq<string> -> string, boxes: map<string, Box>, more: map<string, Box>, key: string,
                    before: Connection, after: Connection)
    requires ConnectionInv(hash, boxes, key, before) && Narrows(before, after)
    requires forall m | m in after.members :: m in boxes ==> m in more
    ensures ConnectionInv(hash, more, key, after)
  {
  }

  lemma NarrowedKeepsInv(hash: seq<string> -> string, s: State, boxes: map<string, Box>, after: Connections)
    requires Inv(hash, s)
    requires forall id | id in boxes :: BoxInv(id, boxes[id])
    requires forall id | id in after :: id in s.connections && Narrows(s.connections[id], after[id])
    requires forall id, m | id in after && m in after[id].members :: m in s.boxes ==> m in boxes
    ensures Inv(hash, State(boxes, after))
  {
    hide ConnectionInv, Narrows;
    forall id | id in after ensures ConnectionInv(hash, boxes, id, after[id]) {
      NarrowedInv(hash, s.boxes, boxes, id, s.connections[id], after[id]);
    }
    forall a, b | a in after && b in after && a != b ensures after[a].name == "" || after[a].name != after[b].name {
      NarrowKeepsName(s.connections[a], after[a]);
      NarrowKeepsName(s.connections[b], after[b]);
    }
  }

  lemma NarrowKeepsName(before: Connection, after: Connection)
    requires Narrows(before, after)
    ensures after.name == before.name
  {
  }

  lemma SoundNarrows(hash: seq<string> -> string, boxes: map<string, Box>, key: string, c: Connection, d: Connection)
    requires ConnectionInv(hash, boxes, key, c) && d == c.(status := d.status, error := d.error)
    ensures Narrows(c, d)
  {
  }

  /** New statuses keep the invariant. */
  lemma RefreshedKeepsInv(hash: seq<string> -> string, s: State, after: Connections)
    requires Inv(hash, s) && Refreshed(s.connections, after)
    ensures Inv(hash, s.(connections := after))
  {
    hide ConnectionInv, Narrows;
    forall id | id in after ensures id in s.connections && Narrows(s.connections[id], after[id]) {
      SoundNarrows(hash, s.boxes, id, s.connections[id], after[id]);
    }
    NarrowedKeepsInv(hash, s, s.boxes, after);
  }

  /** Removing a box from the boxes after taking it out of all connections
      keeps the invariant and leaves no trace of it. */
  lemma RemovedKeepsInv(hash: seq<string> -> string, calls: NetworkCalls, s: State, after: Connections, box: string)
    requires Inv(hash, s) && forall id: string :: LeftAt(calls, s.boxes, s.connections, after, box, id, true)
    ensures Inv(hash, State(s.boxes - {box}, after))
    ensures forall id | id in after :: box !in after[id].members
  {
    hide ConnectionInv, Narrows, Reconciled;
    forall id | id in after
      ensures id in s.connections && Narrows(s.connections[id], after[id]) && box !in after[id].members
    {
      assert LeftAt(calls, s.boxes, s.connections, after, box, id, true);
      LeftNarrows(hash, calls, s, after, box, id);
    }
    NarrowedKeepsInv(hash, s, s.boxes - {box}, after);
  }

  lemma LeftNarrows(hash: seq<string> -> string, calls: NetworkCalls, s: State, after: Connections, box: string, id: string)
    requires LeftAt(calls, s.boxes, s.connections, after, box, id, true) && id in after && id in s.connections
    requires ConnectionInv(hash, s.boxes, id, s.connections[id])
    ensures Narrows(s.connections[id], after[id]) && box !in after[id].members
  {
    hide ReconcileError;
    OthersSay(s.connections[id].members, box);
  }
}
