/** Port mappings, their validation, and the two files rendered from them
    (internal/portforward/model.go and render.go). */
module PortForward {
  import opened Ordering

  datatype Option<+T> = None | Some(value: T)

  type Port = p: nat | p < 0x1_0000

  const IMPORT := "import"
  const PUBLISH := "publish"

  datatype Mapping = Mapping(
    name: string,
    direction: string,
    sourceAddress: string,
    sourcePort: Port,
    targetPort: Port,
    createdAt: int)

  /** Whether net.ParseIP accepts a text and calls the address loopback. */
  type AddressParser = string -> bool

  datatype Rejection =
    | BadName
    | BadDirection
    | NotLoopback
    | BadPublicationAddress
    | ZeroSourcePort
    | ZeroTargetPort
    | DuplicateName
    | DuplicateTarget
    | DuplicateListener

  // ---- one mapping ----------------------------------------------------------

  predicate LeadingNameChar(c: char) { 'a' <= c <= 'z' || '0' <= c <= '9' }

  predicate NameChar(c: char) { LeadingNameChar(c) || c == '.' || c == '_' || c == '-' }

  /** The pattern ^[a-z0-9][a-z0-9._-]{0,62}$. */
  predicate ValidName(name: string)
  {
    && 1 <= |name| <= 63
    && LeadingNameChar(name[0])
    && forall i | 0 <= i < |name| :: NameChar(name[i])
  }

  /** Names are one to 63 lower-case letters, digits, dots, underscores and
      dashes, and start with a letter or digit. */
  lemma ValidNameSays(name: string)
    ensures ValidName(name) <==>
            && 0 < |name| < 64 && name[0] in "abcdefghijklmnopqrstuvwxyz0123456789"
            && forall i | 0 <= i < |name| :: name[i] in "abcdefghijklmnopqrstuvwxyz0123456789._-"
  {
    hide NameChar, LeadingNameChar;
    forall i | 0 <= i < |name| { NameCharsSay(name[i]); }
  }

  lemma NameCharsSay(c: char)
    ensures LeadingNameChar(c) <==> c in "abcdefghijklmnopqrstuvwxyz0123456789"
    ensures NameChar(c) <==> c in "abcdefghijklmnopqrstuvwxyz0123456789._-"
  {
  }

  /** What is wrong with a mapping that is refused for a reason, nothing of an
      earlier reason being wrong. */
  ghost predicate Wrong(ip: AddressParser, m: Mapping, reason: Rejection)
  {
    match reason
    case BadName => !ValidName(m.name)
    case BadDirection => ValidName(m.name) && m.direction !in {IMPORT, PUBLISH}
    case NotLoopback => ValidName(m.name) && m.direction in {IMPORT, PUBLISH} && !ip(m.sourceAddress)
    case BadPublicationAddress =>
      ValidName(m.name) && m.direction == PUBLISH && ip(m.sourceAddress) && m.sourceAddress !in {"127.0.0.1", "::1"}
    case ZeroSourcePort => m.sourcePort == 0 && ValidMapping(ip, m.(sourcePort := 1, targetPort := 1))
    case ZeroTargetPort => m.targetPort == 0 && ValidMapping(ip, m.(targetPort := 1))
    case _ => false
  }

  function Validate(ip: AddressParser, m: Mapping): (r: Option<Rejection>)
    ensures r.None? <==> ValidMapping(ip, m)
    ensures r.Some? ==> Wrong(ip, m, r.value)
  {
    if !ValidName(m.name) then Some(BadName)
    else if m.direction != IMPORT && m.direction != PUBLISH then Some(BadDirection)
    else if !ip(m.sourceAddress) then Some(NotLoopback)
    else if m.direction == PUBLISH && m.sourceAddress != "127.0.0.1" && m.sourceAddress != "::1" then
      Some(BadPublicationAddress)
    else if m.sourcePort == 0 then Some(ZeroSourcePort)
    else if m.targetPort == 0 then Some(ZeroTargetPort)
    else None
  }

  predicate ValidMapping(ip: AddressParser, m: Mapping)
  {
    && ValidName(m.name)
    && m.direction in {IMPORT, PUBLISH}
    && ip(m.sourceAddress)
    && (m.direction == PUBLISH ==> m.sourceAddress in {"127.0.0.1", "::1"})
    && m.sourcePort != 0
    && m.targetPort != 0
  }

  // ---- sets of mappings -----------------------------------------------------

  /** Two mappings that one box cannot hold together. */
  predicate Clash(a: Mapping, b: Mapping)
  {
    || a.name == b.name
    || (a.direction == IMPORT && b.direction == IMPORT && a.targetPort == b.targetPort)
    || (a.direction == PUBLISH && b.direction == PUBLISH
        && a.sourceAddress == b.sourceAddress && a.sourcePort == b.sourcePort)
  }

  predicate ValidSet(ip: AddressParser, ms: seq<Mapping>)
  {
    && (forall i | 0 <= i < |ms| :: ValidMapping(ip, ms[i]))
    && (forall i, j | 0 <= i < j < |ms| :: !Clash(ms[i], ms[j]))
  }

  function Decimal(n: nat): (r: string)
    ensures |r| > 0 && ':' !in r
    ensures forall i | 0 <= i < |r| :: '0' <= r[i] <= '9'
  {
    if n < 10 then [Digit(n)] else Decimal(n / 10) + [Digit(n % 10)]
  }

  function Digit(d: nat): (c: char)
    requires d < 10
    ensures '0' <= c <= '9' && c as int - '0' as int == d
  {
    ('0' as int + d) as char
  }

  lemma {:induction false} DecimalInjective(a: nat, b: nat)
    requires Decimal(a) == Decimal(b)
    ensures a == b
  {
    var x, y := Decimal(a), Decimal(b);
    assert Digit(a % 10) == x[|x| - 1] == y[|y| - 1] == Digit(b % 10);
    assert |Decimal(a / 10)| > 0 && |Decimal(b / 10)| > 0;
    if a >= 10 && b >= 10 {
      assert Decimal(a / 10) == x[..|x| - 1] == y[..|y| - 1] == Decimal(b / 10);
      DecimalInjective(a / 10, b / 10);
    }
  }

  /** net.JoinHostPort. */
  function JoinHostPort(host: string, port: nat): string
  {
    (if ':' in host then "[" + host + "]" else host) + ":" + Decimal(port)
  }

  function Listener(m: Mapping): string { JoinHostPort(m.sourceAddress, m.sourcePort) }

  /** The listener text identifies address and port of a publication. */
  lemma ListenerIdentifies(ip: AddressParser, a: Mapping, b: Mapping)
    requires ValidMapping(ip, a) && ValidMapping(ip, b)
    requires a.direction == PUBLISH && b.direction == PUBLISH
    ensures Listener(a) == Listener(b) <==> a.sourceAddress == b.sourceAddress && a.sourcePort == b.sourcePort
  {
    if Listener(a) == Listener(b) {
      assert ':' in "::1" by { assert "::1"[0] == ':'; }
      assert ':' !in "127.0.0.1";
      assert (if a.sourceAddress == "::1" then '[' else '1') == Listener(a)[0];
      assert (if b.sourceAddress == "::1" then '[' else '1') == Listener(b)[0];
      var prefix := if a.sourceAddress == "::1" then "[" + "::1" + "]" + ":" else "127.0.0.1" + ":";
      assert Listener(a) == prefix + Decimal(a.sourcePort);
      assert Listener(b) == prefix + Decimal(b.sourcePort);
      assert Listener(a)[|prefix|..] == Decimal(a.sourcePort);
      assert Listener(b)[|prefix|..] == Decimal(b.sourcePort);
      DecimalInjective(a.sourcePort, b.sourcePort);
    }
  }

  /** Why the k-th mapping is refused after valid ones: something is wrong with
      it, or it repeats a name, else an import target, else a listener. */
  ghost predicate RefusedFor(ip: AddressParser, ms: seq<Mapping>, k: nat, reason: Rejection)
    requires k < |ms|
  {
    var repeatsName := exists j | 0 <= j < k :: ms[j].name == ms[k].name;
    match reason
    case DuplicateName => ValidMapping(ip, ms[k]) && repeatsName
    case DuplicateTarget =>
      ValidMapping(ip, ms[k]) && !repeatsName && ms[k].direction == IMPORT
      && exists j | 0 <= j < k :: ms[j].direction == IMPORT && ms[j].targetPort == ms[k].targetPort
    case DuplicateListener =>
      ValidMapping(ip, ms[k]) && !repeatsName && ms[k].direction == PUBLISH
      && exists j | 0 <= j < k :: ms[j].direction == PUBLISH
                                  && ms[j].sourceAddress == ms[k].sourceAddress && ms[j].sourcePort == ms[k].sourcePort
    case _ => Wrong(ip, ms[k], reason)
  }

  /** Accepts exactly the valid sets; the index names the first offender. */
  method ValidateSet(ip: AddressParser, ms: seq<Mapping>) returns (r: Option<(nat, Rejection)>)
    ensures r.None? <==> ValidSet(ip, ms)
    ensures r.Some? ==> r.value.0 < |ms| && ValidSet(ip, ms[..r.value.0]) && !ValidSet(ip, ms[..r.value.0 + 1])
    ensures r.Some? ==> RefusedFor(ip, ms, r.value.0, r.value.1)
  {
    var names: map<string, ()> := map[];
    var publicationListeners: map<string, string> := map[];
    var importTargets: map<Port, string> := map[];
    for k := 0 to |ms|
      invariant ValidSet(ip, ms[..k])
      invariant forall n :: n in names <==> exists j | 0 <= j < k :: ms[j].name == n
      invariant forall t :: t in importTargets <==>
                  exists j | 0 <= j < k :: ms[j].direction == IMPORT && ms[j].targetPort == t
      invariant forall l :: l in publicationListeners <==>
                  exists j | 0 <= j < k :: ms[j].direction == PUBLISH && Listener(ms[j]) == l
    {
      var m := ms[k];
      var prefix := ms[..k + 1];
      assert prefix[k] == m && prefix[..k] == ms[..k];
      var invalid := Validate(ip, m);
      if invalid.Some? {
        assert !ValidMapping(ip, prefix[k]);
        InvalidPrefix(ip, ms, k + 1);
        return Some((k, invalid.value));
      }
      if m.name in names {
        ClashInPrefix(ip, ms, k);
        return Some((k, DuplicateName));
      }
      names := names[m.name := ()];
      if m.direction == IMPORT {
        if m.targetPort in importTargets {
          ClashInPrefix(ip, ms, k);
          return Some((k, DuplicateTarget));
        }
        importTargets := importTargets[m.targetPort := m.name];
      } else if m.direction == PUBLISH {
        ListenersDiffer(ip, ms, k);
        var listener := Listener(m);
        if listener in publicationListeners {
          ClashInPrefix(ip, ms, k);
          return Some((k, DuplicateListener));
        }
        publicationListeners := publicationListeners[listener := m.name];
      }
      ExtendValid(ip, ms, k);
    }
    assert ms[..|ms|] == ms;
    return None;
  }

  lemma InvalidPrefix(ip: AddressParser, ms: seq<Mapping>, k: nat)
    requires k <= |ms| && !ValidSet(ip, ms[..k])
    ensures !ValidSet(ip, ms)
  {
  }

  lemma ClashInPrefix(ip: AddressParser, ms: seq<Mapping>, k: nat)
    requires k < |ms| && exists j | 0 <= j < k :: Clash(ms[j], ms[k])
    ensures !ValidSet(ip, ms[..k + 1]) && !ValidSet(ip, ms)
  {
    var j :| 0 <= j < k && Clash(ms[j], ms[k]);
    assert ms[..k + 1][j] == ms[j] && ms[..k + 1][k] == ms[k];
  }

  lemma ListenersDiffer(ip: AddressParser, ms: seq<Mapping>, k: nat)
    requires k < |ms| && ValidSet(ip, ms[..k]) && ValidMapping(ip, ms[k]) && ms[k].direction == PUBLISH
    ensures forall j | 0 <= j < k && ms[j].direction == PUBLISH ::
              Listener(ms[j]) == Listener(ms[k]) <==>
              ms[j].sourceAddress == ms[k].sourceAddress && ms[j].sourcePort == ms[k].sourcePort
  {
    forall j | 0 <= j < k && ms[j].direction == PUBLISH
      ensures Listener(ms[j]) == Listener(ms[k]) <==>
              ms[j].sourceAddress == ms[k].sourceAddress && ms[j].sourcePort == ms[k].sourcePort
    {
      assert ms[..k][j] == ms[j];
      ListenerIdentifies(ip, ms[j], ms[k]);
    }
  }

  lemma ExtendValid(ip: AddressParser, ms: seq<Mapping>, k: nat)
    requires k < |ms| && ValidSet(ip, ms[..k]) && ValidMapping(ip, ms[k])
    requires forall j | 0 <= j < k :: !Clash(ms[j], ms[k])
    ensures ValidSet(ip, ms[..k + 1])
  {
    assert ms[..k + 1] == ms[..k] + [ms[k]];
  }

  // ---- permutations and removal ---------------------------------------------

  /** Acceptance does not depend on the order of the mappings. */
  lemma ValidSetPermutation(ip: AddressParser, a: seq<Mapping>, b: seq<Mapping>)
    requires multiset(a) == multiset(b)
    ensures ValidSet(ip, a) <==> ValidSet(ip, b)
  {
    if ValidSet(ip, a) { ValidAfterPermutation(ip, a, b); }
    if ValidSet(ip, b) { ValidAfterPermutation(ip, b, a); }
  }

  lemma ValidAfterPermutation(ip: AddressParser, a: seq<Mapping>, b: seq<Mapping>)
    requires multiset(a) == multiset(b) && ValidSet(ip, a)
    ensures ValidSet(ip, b)
  {
    forall j | 0 <= j < |b| ensures ValidMapping(ip, b[j]) {
      assert b[j] in multiset(b);
      assert b[j] in a;
    }
    forall i, j | 0 <= i < j < |b| ensures !Clash(b[i], b[j]) {
      assert b[i] in multiset(a) && b[j] in multiset(a);
      var p :| 0 <= p < |a| && a[p] == b[i];
      var q :| 0 <= q < |a| && a[q] == b[j];
      if p == q {
        CountTwice(b, i, j);
        OnceIn(ip, a, p);
      }
    }
  }

  lemma OnceIn(ip: AddressParser, s: seq<Mapping>, p: nat)
    requires p < |s| && ValidSet(ip, s)
    ensures multiset(s)[s[p]] == 1
  {
    CountOnce(s, p);
  }

  /** Keeps the mappings that satisfy a test, in order. */
  function Select(ms: seq<Mapping>, keep: Mapping -> bool): seq<Mapping>
  {
    if |ms| == 0 then []
    else if keep(ms[0]) then [ms[0]] + Select(ms[1..], keep)
    else Select(ms[1..], keep)
  }

  lemma {:induction false} SelectMembers(ms: seq<Mapping>, keep: Mapping -> bool)
    ensures |Select(ms, keep)| <= |ms|
    ensures forall m :: m in Select(ms, keep) <==> m in ms && keep(m)
  {
    if |ms| != 0 {
      SelectMembers(ms[1..], keep);
      assert ms == [ms[0]] + ms[1..];
    }
  }

  /** A subset of a valid set is valid. */
  lemma {:induction false} SelectKeepsValid(ip: AddressParser, ms: seq<Mapping>, keep: Mapping -> bool)
    requires ValidSet(ip, ms)
    ensures ValidSet(ip, Select(ms, keep))
  {
    if |ms| != 0 {
      SelectKeepsValid(ip, ms[1..], keep);
      SelectMembers(ms[1..], keep);
      var rest := Select(ms[1..], keep);
      forall j | 0 <= j < |rest| ensures !Clash(ms[0], rest[j]) {
        assert rest[j] in ms[1..];
      }
    }
  }

  // ---- Sort and Filter ------------------------------------------------------

  predicate MappingLe(a: Mapping, b: Mapping)
  {
    if a.direction != b.direction then StringLe(a.direction, b.direction) else StringLe(a.name, b.name)
  }

  lemma MappingOrder(all: set<Mapping>)
    ensures TotalOn(MappingLe, all) && TransitiveOn(MappingLe, all)
  {
    forall x, y | x in all && y in all ensures MappingLe(x, y) || MappingLe(y, x) {
      StringLeTotal(x.direction, y.direction);
      StringLeTotal(x.name, y.name);
    }
    forall x, y, z | x in all && y in all && z in all && MappingLe(x, y) && MappingLe(y, z)
      ensures MappingLe(x, z)
    {
      StringLeTotal(x.direction, y.direction);
      StringLeTotal(y.direction, z.direction);
      if x.direction != y.direction || y.direction != z.direction {
        StringLeTransitive(x.direction, y.direction, z.direction);
      } else {
        StringLeTransitive(x.name, y.name, z.name);
      }
    }
  }

  /** Imports come first, then publications; each are in the order of their
      names, none of which occurs twice. */
  ghost predicate InListOrder(ms: seq<Mapping>)
  {
    forall i, j | 0 <= i < j < |ms| ::
      && (ms[i].direction == PUBLISH ==> ms[j].direction == PUBLISH)
      && (ms[i].direction == ms[j].direction ==> StringLess(ms[i].name, ms[j].name))
  }

  function SortMappings(ms: seq<Mapping>): (r: seq<Mapping>)
    ensures multiset(r) == multiset(ms) && |r| == |ms|
  {
    Sort(MappingLe, ms)
  }

  lemma SortMappingsSorts(ms: seq<Mapping>)
    ensures SortOf(MappingLe, SortMappings(ms), ms)
  {
    var all := set m | m in ms;
    MappingOrder(all);
    SortSorted(MappingLe, ms, all);
  }

  /** sort.Slice leaves ties open, but a valid set has none: every sort of
      every permutation of it is the same list. */
  lemma AnySortAgrees(ip: AddressParser, ms: seq<Mapping>, sorted: seq<Mapping>)
    requires ValidSet(ip, ms) && SortOf(MappingLe, sorted, ms)
    ensures sorted == SortMappings(ms)
  {
    var all := set m | m in ms;
    SortMappingsSorts(ms);
    forall i | 0 <= i < |sorted| ensures sorted[i] in all {
      assert sorted[i] in multiset(sorted);
    }
    forall x, y | x in all && y in all && MappingLe(x, y) && MappingLe(y, x) ensures x == y {
      StringLeTotal(x.direction, y.direction);
      StringLeTotal(x.name, y.name);
      var p :| 0 <= p < |ms| && ms[p] == x;
      var q :| 0 <= q < |ms| && ms[q] == y;
      assert p == q;
    }
    SortedUnique(MappingLe, sorted, SortMappings(ms), all);
  }

  lemma SortPermutation(ip: AddressParser, a: seq<Mapping>, b: seq<Mapping>)
    requires multiset(a) == multiset(b) && ValidSet(ip, a)
    ensures SortMappings(a) == SortMappings(b)
  {
    SortMappingsSorts(b);
    AnySortAgrees(ip, a, SortMappings(b));
  }

  lemma SortKeepsValid(ip: AddressParser, ms: seq<Mapping>)
    ensures ValidSet(ip, SortMappings(ms)) <==> ValidSet(ip, ms)
  {
    ValidSetPermutation(ip, ms, SortMappings(ms));
  }

  lemma SortedInListOrder(ip: AddressParser, ms: seq<Mapping>)
    requires ValidSet(ip, ms)
    ensures InListOrder(SortMappings(ms))
  {
    hide ValidName;
    var sorted := SortMappings(ms);
    SortMappingsSorts(ms);
    SortKeepsValid(ip, ms);
    assert StringLe(IMPORT, PUBLISH) && !StringLe(PUBLISH, IMPORT) by {
      assert IMPORT[0] == 'i' && PUBLISH[0] == 'p';
    }
    forall i, j | 0 <= i < j < |sorted|
      ensures sorted[i].direction == PUBLISH ==> sorted[j].direction == PUBLISH
      ensures sorted[i].direction == sorted[j].direction ==> StringLess(sorted[i].name, sorted[j].name)
    {
      assert MappingLe(sorted[i], sorted[j]) && !Clash(sorted[i], sorted[j]);
      assert ValidMapping(ip, sorted[i]) && ValidMapping(ip, sorted[j]);
    }
  }

  function Filter(ms: seq<Mapping>, direction: string): seq<Mapping>
  {
    SortMappings(Select(ms, (m: Mapping) => m.direction == direction))
  }

  /** The mappings of the direction, and no others. */
  lemma FilterMembers(ms: seq<Mapping>, direction: string)
    ensures forall m :: m in Filter(ms, direction) <==> m in ms && m.direction == direction
  {
    var keep := (m: Mapping) => m.direction == direction;
    var selected := Select(ms, keep);
    SelectMembers(ms, keep);
    var r := SortMappings(selected);
    assert forall m :: m in r <==> m in multiset(r);
    assert forall m :: m in selected <==> m in multiset(selected);
  }

  lemma FilterKeepsValid(ip: AddressParser, ms: seq<Mapping>, direction: string)
    requires ValidSet(ip, ms)
    ensures ValidSet(ip, Filter(ms, direction))
  {
    var keep := (m: Mapping) => m.direction == direction;
    SelectKeepsValid(ip, ms, keep);
    SortKeepsValid(ip, Select(ms, keep));
  }

  // ---- the rendered files ---------------------------------------------------

  /** File contents. Encoders are abstracted to what they encode. */
  datatype Body =
    | ConfigJson(mappings: seq<Mapping>)
    | PortsYaml(ports: seq<string>)
    | Foreign(text: string)

  function RenderConfig(ip: AddressParser, ms: seq<Mapping>): Option<Body>
  {
    var sorted := SortMappings(ms);
    if ValidSet(ip, sorted) then Some(ConfigJson(sorted)) else None
  }

  function LoadConfig(ip: AddressParser, body: Body): Option<seq<Mapping>>
  {
    if body.ConfigJson? && ValidSet(ip, body.mappings) then Some(SortMappings(body.mappings)) else None
  }

  function PortLines(publications: seq<Mapping>): seq<string>
  {
    if |publications| == 0 then []
    else [Listener(publications[0]) + ":" + Decimal(publications[0].sourcePort)] + PortLines(publications[1..])
  }

  /** The Compose override: none when nothing is published. */
  function RenderOverride(ms: seq<Mapping>): Option<Body>
  {
    var publications := Filter(ms, PUBLISH);
    if |publications| == 0 then None else Some(PortsYaml(PortLines(publications)))
  }

  /** RenderConfig gives one result for all orderings of a set. */
  lemma RenderConfigCanonical(ip: AddressParser, a: seq<Mapping>, b: seq<Mapping>)
    requires multiset(a) == multiset(b)
    ensures RenderConfig(ip, a) == RenderConfig(ip, b)
  {
    SortKeepsValid(ip, a);
    SortKeepsValid(ip, b);
    ValidSetPermutation(ip, a, b);
    if ValidSet(ip, a) { SortPermutation(ip, a, b); }
  }

  /** Loading what was rendered gives back the sorted set, and rendering
      succeeds exactly on valid sets. */
  lemma LoadAfterRender(ip: AddressParser, ms: seq<Mapping>)
    ensures RenderConfig(ip, ms).Some? <==> ValidSet(ip, ms)
    ensures ValidSet(ip, ms) ==> LoadConfig(ip, RenderConfig(ip, ms).value) == Some(SortMappings(ms))
  {
    SortKeepsValid(ip, ms);
    if ValidSet(ip, ms) {
      SortPermutation(ip, ms, SortMappings(ms));
    }
  }

  /** Nothing is lost: the file determines the set of mappings. */
  lemma RenderConfigInjective(ip: AddressParser, a: seq<Mapping>, b: seq<Mapping>)
    requires ValidSet(ip, a) && RenderConfig(ip, a) == RenderConfig(ip, b)
    ensures multiset(a) == multiset(b)
  {
    LoadAfterRender(ip, a);
    LoadAfterRender(ip, b);
  }

  /** What remains of a valid set after a removal always renders. */
  lemma RemovalRenders(ip: AddressParser, ms: seq<Mapping>, keep: Mapping -> bool)
    requires ValidSet(ip, ms)
    ensures RenderConfig(ip, Select(ms, keep)).Some?
  {
    SelectKeepsValid(ip, ms, keep);
    LoadAfterRender(ip, Select(ms, keep));
  }

  // ---- what a reader of the files sees --------------------------------------

  function LastIndex(text: string, c: char): (r: int)
    ensures -1 <= r < |text|
    ensures r >= 0 ==> text[r] == c
    ensures forall i | r < i < |text| :: text[i] != c
  {
    if text == "" then -1
    else if text[|text| - 1] == c then |text| - 1
    else LastIndex(text[..|text| - 1], c)
  }

  function ReadDecimal(text: string): Option<nat>
  {
    if text == "" || !('0' <= text[|text| - 1] <= '9') then None
    else
      var digit := text[|text| - 1] as int - '0' as int;
      if |text| == 1 then Some(digit)
      else
        match ReadDecimal(text[..|text| - 1])
        case None => None
        case Some(n) => Some(10 * n + digit)
  }

  lemma {:induction false} DecimalReads(n: nat)
    ensures ReadDecimal(Decimal(n)) == Some(n)
  {
    if n >= 10 {
      DecimalReads(n / 10);
      assert Decimal(n)[..|Decimal(n)| - 1] == Decimal(n / 10);
    }
  }

  /** A port of a Compose service: the address and port on the host, and the
      port inside the container. */
  datatype Published = Published(address: string, hostPort: nat, containerPort: nat)

  /** The short form address:host:container, with the address in brackets when
      it holds colons. */
  function ReadPublished(line: string): Option<Published>
  {
    var last := LastIndex(line, ':');
    if last < 0 then None else
    var front := line[..last];
    var split := LastIndex(front, ':');
    if split < 0 then None else
    var address := front[..split];
    var host, container := ReadDecimal(front[split + 1..]), ReadDecimal(line[last + 1..]);
    if host.None? || container.None? then None
    else if |address| >= 2 && address[0] == '[' && address[|address| - 1] == ']' then
      Some(Published(address[1..|address| - 1], host.value, container.value))
    else if ':' in address then None
    else Some(Published(address, host.value, container.value))
  }

  /** The last colon of a text that goes on without one. */
  lemma LastColon(before: string, after: string)
    requires ':' !in after
    ensures LastIndex(before + ":" + after, ':') == |before|
    ensures (before + ":" + after)[..|before|] == before && (before + ":" + after)[|before| + 1..] == after
  {
    var text := before + ":" + after;
    ColonAt(before, after);
    LastIs(text, ':', |before|);
  }

  lemma ColonAt(before: string, after: string)
    requires ':' !in after
    ensures var text := before + ":" + after;
            && text[|before|] == ':' && text[..|before|] == before && text[|before| + 1..] == after
            && forall i | |before| < i < |text| :: text[i] != ':'
  {
    var text := before + ":" + after;
    forall i | |before| < i < |text| ensures text[i] != ':' {
      assert text[i] == after[i - |before| - 1];
    }
  }

  lemma LastIs(text: string, c: char, k: nat)
    requires k < |text| && text[k] == c && forall i | k < i < |text| :: text[i] != c
    ensures LastIndex(text, c) == k
  {
    hide LastIndex;
    assert LastIndex(text, c) <= k;
  }

  lemma LineReads(ip: AddressParser, m: Mapping, port: nat)
    requires ValidMapping(ip, m) && m.direction == PUBLISH
    ensures ReadPublished(Listener(m) + ":" + Decimal(port)) == Some(Published(m.sourceAddress, m.sourcePort, port))
  {
    hide LastIndex, ReadDecimal, ValidName;
    DecimalReads(port);
    DecimalReads(m.sourcePort);
    LastColon(Listener(m), Decimal(port));
    assert ':' in "::1" by { assert "::1"[0] == ':'; }
    assert ':' !in "127.0.0.1";
    var host := if m.sourceAddress == "::1" then "[" + m.sourceAddress + "]" else m.sourceAddress;
    assert Listener(m) == host + ":" + Decimal(m.sourcePort);
    LastColon(host, Decimal(m.sourcePort));
    assert host[0] == (if m.sourceAddress == "::1" then '[' else '1');
    if m.sourceAddress == "::1" { assert host[1..|host| - 1] == m.sourceAddress; }
  }

  lemma {:induction false} PortLinesRead(ip: AddressParser, publications: seq<Mapping>)
    requires forall m | m in publications :: ValidMapping(ip, m) && m.direction == PUBLISH
    ensures |PortLines(publications)| == |publications|
    ensures forall i | 0 <= i < |publications| ::
              ReadPublished(PortLines(publications)[i]) ==
              Some(Published(publications[i].sourceAddress, publications[i].sourcePort, publications[i].sourcePort))
  {
    hide ValidMapping, ReadPublished, Listener;
    if publications != [] {
      LineReads(ip, publications[0], publications[0].sourcePort);
      PortLinesRead(ip, publications[1..]);
      forall i | 1 <= i < |publications| ensures PortLines(publications)[i] == PortLines(publications[1..])[i - 1] {}
    }
  }

  /** The mappings of a direction, in the order of their names. */
  ghost predicate Lists(r: seq<Mapping>, ms: seq<Mapping>, direction: string)
  {
    && (forall m :: m in r <==> m in ms && m.direction == direction)
    && forall i, j | 0 <= i < j < |r| :: StringLess(r[i].name, r[j].name)
  }

  /** An override exists when something is published. Compose reads one port
      for each published mapping, in the order of the names: the address and
      port of the mapping, which the bridge listens on under the same port. */
  ghost predicate OverrideSays(override: Option<Body>, ms: seq<Mapping>)
  {
    var published := Filter(ms, PUBLISH);
    && Lists(published, ms, PUBLISH)
    && (override.Some? <==> exists m :: m in ms && m.direction == PUBLISH)
    && (override.Some? ==>
          && override.value.PortsYaml? && |override.value.ports| == |published|
          && forall i | 0 <= i < |published| ::
               ReadPublished(override.value.ports[i]) ==
               Some(Published(published[i].sourceAddress, published[i].sourcePort, published[i].sourcePort)))
  }

  /** The config holds the mappings, each once, in order. */
  ghost predicate ConfigSays(config: Option<Body>, ms: seq<Mapping>)
  {
    config.Some? && config.value.ConfigJson? && InListOrder(config.value.mappings)
    && multiset(config.value.mappings) == multiset(ms)
  }

  lemma FilterInListOrder(ip: AddressParser, ms: seq<Mapping>, direction: string)
    requires ValidSet(ip, ms)
    ensures InListOrder(Filter(ms, direction))
  {
    hide ValidSet, SortMappings, InListOrder;
    SelectKeepsValid(ip, ms, (m: Mapping) => m.direction == direction);
    SortedInListOrder(ip, Select(ms, (m: Mapping) => m.direction == direction));
  }

  lemma FilterLists(ip: AddressParser, ms: seq<Mapping>, direction: string)
    requires ValidSet(ip, ms)
    ensures Lists(Filter(ms, direction), ms, direction)
  {
    hide Filter, ValidSet;
    FilterMembers(ms, direction);
    FilterInListOrder(ip, ms, direction);
    var r := Filter(ms, direction);
    forall i, j | 0 <= i < j < |r| ensures StringLess(r[i].name, r[j].name) {
      assert r[i] in r && r[j] in r;
    }
  }

  /** What the rendered files say. */
  lemma RenderedSay(ip: AddressParser, ms: seq<Mapping>)
    requires ValidSet(ip, ms)
    ensures OverrideSays(RenderOverride(ms), ms) && ConfigSays(RenderConfig(ip, ms), ms)
  {
    hide Filter, ReadPublished, Listener, SortMappings, InListOrder;
    SortKeepsValid(ip, ms);
    SortedInListOrder(ip, ms);
    FilterLists(ip, ms, PUBLISH);
    FilterKeepsValid(ip, ms, PUBLISH);
    var published := Filter(ms, PUBLISH);
    forall m | m in published ensures ValidMapping(ip, m) && m.direction == PUBLISH {}
    PortLinesRead(ip, published);
    if exists m :: m in ms && m.direction == PUBLISH {
      var m :| m in ms && m.direction == PUBLISH;
      assert m in published;
    }
    assert published != [] ==> published[0] in published;
  }
}
