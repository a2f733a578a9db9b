/** The Jamf Pro API client of `app/services/jamf_service.py`: the cached
    OAuth token with its five-minute safety margin, the request wrapper that
    drops the token on a 401, and the endpoint helpers that turn a response
    into the lists the health service reads.

    Every exchange with the API is an input: a `Reply` is either the HTTP
    response (status code and decoded payload) or the client raising
    (`Err(TransportError)`). The credential exchange is given as the reply it
    would produce; whether it was actually performed is an output. */
module JamfService {
  import opened Common

  /** A cached token is refreshed once its expiry is this close (5 minutes). */
  const TokenSafetyMarginSeconds: int := 300

  datatype HttpResponse<+P> = HttpResponse(statusCode: int, payload: P)

  type Reply<P> = Result<HttpResponse<P>>

  /** A JSON scalar, for the fields the source tests by Python truthiness. */
  datatype Value = Null | Bool(b: bool) | Number(n: int) | Str(s: string)

  predicate Truthy(v: Value) {
    match v
    case Null => false
    case Bool(b) => b
    case Number(n) => n != 0
    case Str(s) => s != ""
  }

  /** `d.get(key, False)` tested for truthiness, `present` being the value under key. */
  predicate TruthyField(present: Option<Value>) {
    present.Some? && Truthy(present.value)
  }

  // ---------------------------------------------------------------------
  // Token cache

  /** The body of a successful credential exchange. */
  datatype TokenGrant = TokenGrant(accessToken: string, expiresIn: int)

  /** `_token` and `_token_expiry`. */
  datatype TokenState = TokenState(token: Option<string>, expiry: Option<Timestamp>)

  /** The cached token may be handed out at `now`: both fields are set (and
      the token is a non-empty string) and `now` is strictly before the
      expiry less the safety margin. */
  predicate Reusable(s: TokenState, now: Timestamp) {
    && s.token.Some? && s.token.value != ""
    && s.expiry.Some?
    && now < s.expiry.value - TokenSafetyMarginSeconds
  }

  datatype Acquired = Acquired(state: TokenState, result: Result<string>, exchanged: bool)

  /** `_get_token` at time `now`, where `exchange` is what the credential
      exchange replies if it is performed. */
  function AcquireToken(s: TokenState, now: Timestamp, exchange: Reply<TokenGrant>): (a: Acquired)
    ensures a.exchanged <==> !Reusable(s, now)
    ensures !a.exchanged ==> a.state == s && a.result == Ok(s.token.value)
    ensures a.result.Err? ==> a.state == s
    ensures a.exchanged && exchange.Err? ==> a.result == Err(exchange.error)
    ensures a.exchanged && exchange.Ok? && exchange.value.statusCode != 200 ==>
      a.result == Err(HttpException(503))
    ensures a.exchanged && exchange.Ok? && exchange.value.statusCode == 200 ==>
      var grant := exchange.value.payload;
      a.result == Ok(grant.accessToken)
      && a.state == TokenState(Some(grant.accessToken), Some(now + grant.expiresIn))
  {
    if Reusable(s, now) then
      Acquired(s, Ok(s.token.value), false)
    else
      match exchange
      case Err(e) => Acquired(s, Err(e), true)
      case Ok(resp) =>
        if resp.statusCode != 200 then
          Acquired(s, Err(HttpException(503)), true)
        else
          var grant := resp.payload;
          Acquired(TokenState(Some(grant.accessToken), Some(now + grant.expiresIn)), Ok(grant.accessToken), true)
  }

  /** A token obtained from an exchange is served from the cache, with no
      further exchange, exactly until five minutes before it expires. */
  lemma FreshTokenReuseWindow(s: TokenState, now: Timestamp, exchange: Reply<TokenGrant>, later: Timestamp)
    requires !Reusable(s, now)
    requires exchange.Ok? && exchange.value.statusCode == 200
    requires exchange.value.payload.accessToken != ""
    ensures var a := AcquireToken(s, now, exchange);
      var b := AcquireToken(a.state, later, exchange);
      (!b.exchanged <==> later < now + exchange.value.payload.expiresIn - TokenSafetyMarginSeconds)
      && (!b.exchanged ==> b.result == a.result)
  {
  }

  /** A token handed out without an exchange is never within the safety
      margin of its expiry. */
  lemma CachedTokenOutsideMargin(s: TokenState, now: Timestamp, exchange: Reply<TokenGrant>)
    requires !AcquireToken(s, now, exchange).exchanged
    ensures s.expiry.Some? && now + TokenSafetyMarginSeconds < s.expiry.value
  {
  }

  datatype Requested<+P> = Requested(state: TokenState, result: Result<HttpResponse<P>>, exchanged: bool)

  /** `_make_request`: obtain a token, issue the call; a 401 clears the
      cached token and raises, any other status is passed through. There is
      no retry. */
  function Request<P>(s: TokenState, now: Timestamp, exchange: Reply<TokenGrant>, reply: Reply<P>): (q: Requested<P>)
    ensures q.exchanged == AcquireToken(s, now, exchange).exchanged
    ensures AcquireToken(s, now, exchange).result.Err? ==>
      q.state == s && q.result == Err(AcquireToken(s, now, exchange).result.error)
    ensures AcquireToken(s, now, exchange).result.Ok? && reply.Ok? && reply.value.statusCode == 401 ==>
      q.state == TokenState(None, None) && q.result == Err(HttpException(401))
    ensures AcquireToken(s, now, exchange).result.Ok? && reply.Ok? && reply.value.statusCode != 401 ==>
      q.state == AcquireToken(s, now, exchange).state && q.result == reply
    ensures AcquireToken(s, now, exchange).result.Ok? && reply.Err? ==>
      q.state == AcquireToken(s, now, exchange).state && q.result == Err(reply.error)
  {
    var a := AcquireToken(s, now, exchange);
    match a.result
    case Err(e) => Requested(a.state, Err(e), a.exchanged)
    case Ok(_) =>
      match reply
      case Err(e) => Requested(a.state, Err(e), a.exchanged)
      case Ok(resp) =>
        if resp.statusCode == 401 then Requested(TokenState(None, None), Err(HttpException(401)), a.exchanged)
        else Requested(a.state, Ok(resp), a.exchanged)
  }

  /** After a 401 the next token request, at any time, performs an exchange. */
  lemma UnauthorizedForcesExchange<P>(s: TokenState, now: Timestamp, exchange: Reply<TokenGrant>, reply: Reply<P>,
                                      later: Timestamp, nextExchange: Reply<TokenGrant>)
    requires reply.Ok? && reply.value.statusCode == 401
    requires AcquireToken(s, now, exchange).result.Ok?
    ensures AcquireToken(Request(s, now, exchange, reply).state, later, nextExchange).exchanged
  {
  }

  // ---------------------------------------------------------------------
  // Payloads, with an Option per key the source reads (absent key = None)

  datatype InventoryEntry = InventoryEntry(id: int)
  datatype InventoryPayload = InventoryPayload(results: Option<seq<InventoryEntry>>)

  datatype General = General(
    name: Option<Value>,
    serialNumber: Option<Value>,
    modelIdentifier: Option<Value>,
    operatingSystemVersion: Option<Value>,
    lastContactTime: Option<Value>,
    lastInventoryUpdateTimestamp: Option<Value>)
  datatype DetailPayload = DetailPayload(general: Option<General>)

  datatype Policy = Policy(name: Option<Value>, failed: Option<Value>)
  datatype ManagementData = ManagementData(policies: Option<seq<Policy>>)

  datatype Command = Command(commandType: Option<Value>, status: Option<Value>, dateIssued: Option<Value>)
  datatype CommandsPayload = CommandsPayload(results: Option<seq<Command>>)
  datatype MdmCommands = MdmCommands(failed: seq<Command>, pending: seq<Command>)

  datatype ComputerGroup = ComputerGroup(name: Option<string>, isSmart: Option<Value>)
  datatype ComputerGroupsPayload = ComputerGroupsPayload(computerGroups: Option<seq<ComputerGroup>>)

  datatype MembershipEntry = MembershipEntry(name: Option<string>)
  datatype GroupsAccounts = GroupsAccounts(computerGroupMemberships: Option<seq<MembershipEntry>>)
  datatype ComputerRecord = ComputerRecord(groupsAccounts: Option<GroupsAccounts>)
  datatype ComputerPayload = ComputerPayload(computer: Option<ComputerRecord>)

  // ---------------------------------------------------------------------
  // Response handling of the endpoint helpers

  /** `get_all_computers`: non-200 is a bad gateway; a missing `results` is empty. */
  function AllComputersOf(resp: HttpResponse<InventoryPayload>): (r: Result<seq<InventoryEntry>>)
    ensures resp.statusCode != 200 <==> r == Err(HttpException(502))
    ensures resp.statusCode == 200 && resp.payload.results.None? ==> r == Ok([])
    ensures resp.statusCode == 200 && resp.payload.results.Some? ==> r == Ok(resp.payload.results.value)
  {
    if resp.statusCode != 200 then Err(HttpException(502))
    else Ok(resp.payload.results.GetOr([]))
  }

  /** `get_computer_detail`: 404 is not-found, any other non-200 a bad gateway. */
  function DetailOf(resp: HttpResponse<DetailPayload>): (r: Result<DetailPayload>)
    ensures r.Ok? <==> resp.statusCode == 200
    ensures r.Ok? ==> r.value == resp.payload
    ensures resp.statusCode == 404 ==> r == Err(HttpException(404))
    ensures resp.statusCode != 404 && resp.statusCode != 200 ==> r == Err(HttpException(502))
  {
    if resp.statusCode == 404 then Err(HttpException(404))
    else if resp.statusCode != 200 then Err(HttpException(502))
    else Ok(resp.payload)
  }

  /** `get_computer_management`: a non-200 response reads as `{}`. */
  function ManagementOf(resp: HttpResponse<ManagementData>): (d: ManagementData)
    ensures resp.statusCode != 200 ==> d.policies.None?
    ensures resp.statusCode == 200 ==> d == resp.payload
  {
    if resp.statusCode != 200 then ManagementData(None) else resp.payload
  }

  predicate PolicyFailed(p: Policy) {
    TruthyField(p.failed)
  }

  /** The failed policies of management data, as `get_failed_policies` collects them. */
  function FailedPolicies(d: ManagementData): (r: seq<Policy>)
    ensures d.policies.None? ==> r == []
    ensures forall i :: 0 <= i < |r| ==> PolicyFailed(r[i])
    ensures d.policies.Some? ==> forall i :: 0 <= i < |d.policies.value| && PolicyFailed(d.policies.value[i]) ==>
      d.policies.value[i] in r
  {
    match d.policies
    case None => []
    case Some(ps) => Filter(ps, PolicyFailed)
  }

  /** The loop of `get_failed_policies`, appending each failed policy. */
  method CollectFailedPolicies(d: ManagementData) returns (failed: seq<Policy>)
    ensures failed == FailedPolicies(d)
  {
    failed := [];
    if d.policies.Some? {
      var ps := d.policies.value;
      var i := 0;
      while i < |ps|
        invariant 0 <= i <= |ps|
        invariant failed == Filter(ps[..i], PolicyFailed)
      {
        assert ps[..i + 1] == ps[..i] + [ps[i]];
        FilterAppend(ps[..i], [ps[i]], PolicyFailed);
        if PolicyFailed(ps[i]) {
          failed := failed + [ps[i]];
        }
        i := i + 1;
      }
      assert ps[..i] == ps;
    }
  }

  /** The failed policies keep their order and their multiplicity. */
  lemma FailedPoliciesInOrder(d: ManagementData)
    requires d.policies.Some?
    ensures IsSubsequence(FailedPolicies(d), d.policies.value)
    ensures forall p :: multiset(FailedPolicies(d))[p] ==
                        (if PolicyFailed(p) then multiset(d.policies.value)[p] else 0)
  {
    FilterIsSubsequence(d.policies.value, PolicyFailed);
    FilterMultiplicities(d.policies.value, PolicyFailed);
  }

  predicate CommandFailed(c: Command) {
    c.status == Some(Str("Failed"))
  }

  predicate CommandPending(c: Command) {
    c.status == Some(Str("Pending")) || c.status == Some(Str("InProgress"))
  }

  /** `get_mdm_commands`: split the commands into failed and pending ones;
      non-200 gives two empty lists. */
  function MdmCommandsOf(resp: HttpResponse<CommandsPayload>): (m: MdmCommands)
    ensures resp.statusCode != 200 ==> m == MdmCommands([], [])
    ensures forall i :: 0 <= i < |m.failed| ==> CommandFailed(m.failed[i])
    ensures forall i :: 0 <= i < |m.pending| ==> CommandPending(m.pending[i])
    ensures forall c :: c in m.failed ==> c !in m.pending
    ensures resp.statusCode == 200 ==> var cs := resp.payload.results.GetOr([]);
      && IsSubsequence(m.failed, cs) && IsSubsequence(m.pending, cs)
      && (forall i :: 0 <= i < |cs| && CommandFailed(cs[i]) ==> cs[i] in m.failed)
      && (forall i :: 0 <= i < |cs| && CommandPending(cs[i]) ==> cs[i] in m.pending)
    ensures resp.statusCode == 200 ==> var cs := resp.payload.results.GetOr([]);
      && (forall c :: multiset(m.failed)[c] == if CommandFailed(c) then multiset(cs)[c] else 0)
      && (forall c :: multiset(m.pending)[c] == if CommandPending(c) then multiset(cs)[c] else 0)
  {
    if resp.statusCode != 200 then MdmCommands([], [])
    else
      var cs := resp.payload.results.GetOr([]);
      FilterIsSubsequence(cs, CommandFailed);
      FilterIsSubsequence(cs, CommandPending);
      FilterMultiplicities(cs, CommandFailed);
      FilterMultiplicities(cs, CommandPending);
      MdmCommands(Filter(cs, CommandFailed), Filter(cs, CommandPending))
  }

  predicate IsSmartGroup(g: ComputerGroup) {
    TruthyField(g.isSmart)
  }

  /** `get_smart_groups`: the groups flagged `is_smart`, in order; [] on non-200. */
  function SmartGroupsOf(resp: HttpResponse<ComputerGroupsPayload>): (r: seq<ComputerGroup>)
    ensures resp.statusCode != 200 ==> r == []
    ensures forall i :: 0 <= i < |r| ==> IsSmartGroup(r[i])
    ensures resp.statusCode == 200 ==> var gs := resp.payload.computerGroups.GetOr([]);
      && IsSubsequence(r, gs)
      && (forall i :: 0 <= i < |gs| && IsSmartGroup(gs[i]) ==> gs[i] in r)
      && (forall g :: multiset(r)[g] == if IsSmartGroup(g) then multiset(gs)[g] else 0)
  {
    if resp.statusCode != 200 then []
    else
      var gs := resp.payload.computerGroups.GetOr([]);
      FilterIsSubsequence(gs, IsSmartGroup);
      FilterMultiplicities(gs, IsSmartGroup);
      Filter(gs, IsSmartGroup)
  }

  predicate HasName(m: MembershipEntry) {
    m.name.Some? && m.name.value != ""
  }

  /** The non-empty names of membership entries, in order. */
  function NamesOf(ms: seq<MembershipEntry>): (r: seq<string>)
    ensures |r| <= |ms|
    ensures forall i :: 0 <= i < |r| ==> r[i] != ""
    ensures forall g :: g in r <==> g != "" && MembershipEntry(Some(g)) in ms
    decreases |ms|
  {
    if ms == [] then []
    else (if HasName(ms[0]) then [ms[0].name.value] else []) + NamesOf(ms[1..])
  }

  /** The names keep the order of the entries: the names of two runs of
      entries are the names of the first run followed by those of the second. */
  lemma {:induction false} NamesOfAppend(a: seq<MembershipEntry>, b: seq<MembershipEntry>)
    ensures NamesOf(a + b) == NamesOf(a) + NamesOf(b)
    decreases |a|
  {
    if a == [] {
      assert a + b == b;
    } else {
      assert (a + b)[0] == a[0];
      assert (a + b)[1..] == a[1..] + b;
      NamesOfAppend(a[1..], b);
    }
  }

  /** Each non-empty name occurs as often as entries carry it; the empty
      name never occurs. */
  lemma {:induction false} NamesOfMultiplicity(ms: seq<MembershipEntry>, g: string)
    ensures multiset(NamesOf(ms))[g] == if g != "" then multiset(ms)[MembershipEntry(Some(g))] else 0
    decreases |ms|
  {
    if ms != [] {
      NamesOfMultiplicity(ms[1..], g);
      assert ms == [ms[0]] + ms[1..];
      assert multiset(ms) == multiset([ms[0]]) + multiset(ms[1..]);
      var head := if HasName(ms[0]) then [ms[0].name.value] else [];
      assert NamesOf(ms) == head + NamesOf(ms[1..]);
      assert multiset(NamesOf(ms)) == multiset(head) + multiset(NamesOf(ms[1..]));
    }
  }

  /** `computer.groups_accounts.computer_group_memberships`, each missing
      level read as `{}` and a missing list as `[]`. */
  function MembershipEntries(p: ComputerPayload): (ms: seq<MembershipEntry>)
    ensures p.computer.None? ==> ms == []
    ensures p.computer.Some? && p.computer.value.groupsAccounts.None? ==> ms == []
    ensures p.computer.Some? && p.computer.value.groupsAccounts.Some? ==>
      ms == p.computer.value.groupsAccounts.value.computerGroupMemberships.GetOr([])
  {
    var computer := p.computer.GetOr(ComputerRecord(None));
    var accounts := computer.groupsAccounts.GetOr(GroupsAccounts(None));
    accounts.computerGroupMemberships.GetOr([])
  }

  /** `get_computer_group_membership`: the named groups of the payload's
      membership entries, in order; [] on non-200. */
  function GroupMembershipOf(resp: HttpResponse<ComputerPayload>): (r: seq<string>)
    ensures resp.statusCode != 200 ==> r == []
    ensures resp.statusCode == 200 ==> r == NamesOf(MembershipEntries(resp.payload))
    ensures forall i :: 0 <= i < |r| ==> r[i] != ""
    ensures resp.statusCode == 200 ==> forall g :: g in r <==> g != "" && MembershipEntry(Some(g)) in MembershipEntries(resp.payload)
  {
    if resp.statusCode != 200 then []
    else NamesOf(MembershipEntries(resp.payload))
  }

  // ---------------------------------------------------------------------
  // The client object

  class JamfApiService {
    var token: Option<string>
    var tokenExpiry: Option<Timestamp>

    constructor ()
      ensures token == None && tokenExpiry == None
    {
      token := None;
      tokenExpiry := None;
    }

    function State(): TokenState
      reads this
    {
      TokenState(token, tokenExpiry)
    }

    /** `_get_token` (sequentially: the lock only matters under concurrency). */
    method GetToken(now: Timestamp, exchange: Reply<TokenGrant>) returns (r: Result<string>, exchanged: bool)
      modifies this
      ensures var a := AcquireToken(old(State()), now, exchange);
        State() == a.state && r == a.result && exchanged == a.exchanged
    {
      if token.Some? && token.value != "" && tokenExpiry.Some? {
        if now < tokenExpiry.value - TokenSafetyMarginSeconds {
          return Ok(token.value), false;
        }
      }
      exchanged := true;
      if exchange.Err? {
        return Err(exchange.error), exchanged;
      }
      if exchange.value.statusCode != 200 {
        return Err(HttpException(503)), exchanged;
      }
      var grant := exchange.value.payload;
      token := Some(grant.accessToken);
      tokenExpiry := Some(now + grant.expiresIn);
      r := Ok(grant.accessToken);
    }

    /** `_make_request`. */
    method MakeRequest<P>(now: Timestamp, exchange: Reply<TokenGrant>, reply: Reply<P>)
      returns (r: Result<HttpResponse<P>>, exchanged: bool)
      modifies this
      ensures var q := Request(old(State()), now, exchange, reply);
        State() == q.state && r == q.result && exchanged == q.exchanged
    {
      var t;
      t, exchanged := GetToken(now, exchange);
      if t.Err? {
        return Err(t.error), exchanged;
      }
      if reply.Err? {
        return Err(reply.error), exchanged;
      }
      if reply.value.statusCode == 401 {
        token := None;
        tokenExpiry := None;
        return Err(HttpException(401)), exchanged;
      }
      r := reply;
    }

    method GetAllComputers(now: Timestamp, exchange: Reply<TokenGrant>, reply: Reply<InventoryPayload>)
      returns (r: Result<seq<InventoryEntry>>)
      modifies this
      ensures State() == Request(old(State()), now, exchange, reply).state
      ensures r == AndThen(Request(old(State()), now, exchange, reply).result, AllComputersOf)
    {
      var resp, _ := MakeRequest(now, exchange, reply);
      r := AndThen(resp, AllComputersOf);
    }

    method GetComputerDetail(now: Timestamp, exchange: Reply<TokenGrant>, reply: Reply<DetailPayload>)
      returns (r: Result<DetailPayload>)
      modifies this
      ensures State() == Request(old(State()), now, exchange, reply).state
      ensures r == AndThen(Request(old(State()), now, exchange, reply).result, DetailOf)
    {
      var resp, _ := MakeRequest(now, exchange, reply);
      r := AndThen(resp, DetailOf);
    }

    method GetComputerManagement(now: Timestamp, exchange: Reply<TokenGrant>, reply: Reply<ManagementData>)
      returns (r: Result<ManagementData>)
      modifies this
      ensures State() == Request(old(State()), now, exchange, reply).state
      ensures r == MapOk(Request(old(State()), now, exchange, reply).result, ManagementOf)
    {
      var resp, _ := MakeRequest(now, exchange, reply);
      r := MapOk(resp, ManagementOf);
    }

    method GetFailedPolicies(now: Timestamp, exchange: Reply<TokenGrant>, reply: Reply<ManagementData>)
      returns (r: Result<seq<Policy>>)
      modifies this
      ensures State() == Request(old(State()), now, exchange, reply).state
      ensures r == MapOk(Request(old(State()), now, exchange, reply).result,
                         (resp: HttpResponse<ManagementData>) => FailedPolicies(ManagementOf(resp)))
    {
      var data := GetComputerManagement(now, exchange, reply);
      if data.Err? {
        return Err(data.error);
      }
      var failed := CollectFailedPolicies(data.value);
      r := Ok(failed);
    }

    method GetMdmCommands(now: Timestamp, exchange: Reply<TokenGrant>, reply: Reply<CommandsPayload>)
      returns (r: Result<MdmCommands>)
      modifies this
      ensures State() == Request(old(State()), now, exchange, reply).state
      ensures r == MapOk(Request(old(State()), now, exchange, reply).result, MdmCommandsOf)
    {
      var resp, _ := MakeRequest(now, exchange, reply);
      r := MapOk(resp, MdmCommandsOf);
    }

    method GetSmartGroups(now: Timestamp, exchange: Reply<TokenGrant>, reply: Reply<ComputerGroupsPayload>)
      returns (r: Result<seq<ComputerGroup>>)
      modifies this
      ensures State() == Request(old(State()), now, exchange, reply).state
      ensures r == MapOk(Request(old(State()), now, exchange, reply).result, SmartGroupsOf)
    {
      var resp, _ := MakeRequest(now, exchange, reply);
      r := MapOk(resp, SmartGroupsOf);
    }

    method GetComputerGroupMembership(now: Timestamp, exchange: Reply<TokenGrant>, reply: Reply<ComputerPayload>)
      returns (r: Result<seq<string>>)
      modifies this
      ensures State() == Request(old(State()), now, exchange, reply).state
      ensures r == MapOk(Request(old(State()), now, exchange, reply).result, GroupMembershipOf)
    {
      var resp, _ := MakeRequest(now, exchange, reply);
      r := MapOk(resp, GroupMembershipOf);
    }
  }
}
