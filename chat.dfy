/** The per-session relay of the agent (agent/src/chat.ts): one host connection, an ordered
    list of guest connections, and the table of tool calls waiting for the host's result.
    Every handler of one session runs to completion before the next, so each handler is a
    method of the session object that moves it from one state to the next. */
module Broker {
  import opened Common
  import opened Types

  /** A connection, by identity. */
  type ConnId = nat

  /** What the platform's connection registry says at the moment of an event: which
      connections are open, and which throw when sent to. */
  datatype Registry = Registry(open: set<ConnId>, failing: set<ConnId>)

  /** A frame the broker writes to a connection. */
  datatype Frame =
    | EventFrame(event: AgentEvent)
    | ToolCallFrame(callId: string, name: ToolName, arguments: Json)

  /** The JSON object `JSON.stringify` writes for a frame. */
  function EncodeFrame(f: Frame): (j: Json)
    ensures j.JObj? && "type" in j.fields && j.fields["type"].JStr?
  {
    match f
    case EventFrame(e) => EncodeEvent(e)
    case ToolCallFrame(id, name, args) =>
      JObj(map[
        "type" := JStr("tool_call"),
        "call_id" := JStr(id),
        "name" := JStr(ToolNameText(name)),
        "arguments" := args])
  }

  /** One send attempt; `delivered` is false when the send threw. */
  datatype Send = Send(to: ConnId, frame: Frame, delivered: bool)

  /** What the pending table keeps per call: the tool and its arguments. Resolving an entry
      is the broker's job (see `Chat.OnHostMessage`). */
  datatype PendingEntry = PendingEntry(tool: ToolName, args: Json)

  /** How a caller's promise settles. */
  datatype Settlement = Fulfilled(output: string) | Rejected(reason: string)

  /** The reason a call is rejected with when its timer (see `Chat.OnTimerFire`) expires. */
  const TimeoutReason := "Tool execution timed out"

  // ---------------------------------------------------------------- role selection

  /** `url.searchParams.get("role") || "guest"`: an absent or empty parameter means guest. */
  function SelectRole(roleParam: Option<string>): (role: string)
    ensures roleParam.None? || roleParam == Some("") ==> role == "guest"
    ensures roleParam.Some? && roleParam.value != "" ==> role == roleParam.value
  {
    match roleParam
    case None => "guest"
    case Some(r) => if r == "" then "guest" else r
  }

  /** The query of a URL: the text after its first '?', when that '?' comes before any
      '#'; None when there is no query. */
  function QueryOf(url: string): (r: Option<string>)
    ensures '?' !in url ==> r.None?
    ensures r.Some? ==> '#' !in r.value
  {
    var body := url[..IndexOf(url, '#')];
    var q := IndexOf(body, '?');
    if q == |body| then None else Some(body[q + 1..])
  }

  /** `searchParams.get(key)` on a query: the value of the first non-empty `&`-separated
      pair whose name is `key`; a pair without '=' has the empty value. */
  function QueryParam(query: string, key: string): (r: Option<string>)
    ensures r.Some? ==> '&' !in r.value && forall c :: c in r.value ==> c in query
    decreases |query|
  {
    var amp := IndexOf(query, '&');
    var pair := query[..amp];
    var eq := IndexOf(pair, '=');
    if pair != "" && pair[..eq] == key then Some(if eq < |pair| then pair[eq + 1..] else "")
    else if amp < |query| then QueryParam(query[amp + 1..], key)
    else None
  }

  /** `new URL(url).searchParams.get("role")`. */
  function RoleParam(url: string): (r: Option<string>)
    ensures '?' !in url ==> r.None?
    ensures r.Some? ==> '&' !in r.value && '#' !in r.value
  {
    match QueryOf(url)
    case None => None
    case Some(q) => QueryParam(q, "role")
  }

  /** A URL without query or fragment, extended by `?role=v`, carries the role `v`, for a
      `v` without escapes (`%`, `+`), which decoding would leave as it is. */
  lemma {:induction false} RoleParamOfSuffix(u: string, v: string)
    requires '?' !in u && '#' !in u && '&' !in v && '#' !in v && '%' !in v && '+' !in v
    ensures RoleParam(u + "?role=" + v) == Some(v)
  {
    var url := u + "?role=" + v;
    assert url == u + ("?role=" + v);
    IndexOfAt(url, '#', |url|);
    assert url[..|url|] == url;
    IndexOfAt(url, '?', |u|);
    var query := url[|u| + 1..];
    assert query == "role=" + v;
    assert QueryOf(url) == Some(query);
    IndexOfAt(query, '&', |query|);
    assert query[..|query|] == query;
    IndexOfAt(query, '=', 4);
    assert query[..4] == "role";
    assert query[5..] == v;
  }

  /** The role a connection URL selects: `?role=v` on a URL without query or fragment
      selects `v` (guest when `v` is empty) for a `v` without escapes, and a URL without
      any query selects guest. */
  lemma RoleOfUrl(u: string, v: string)
    requires '?' !in u && '#' !in u && '&' !in v && '#' !in v && '%' !in v && '+' !in v
    ensures SelectRole(RoleParam(u + "?role=" + v)) == if v == "" then "guest" else v
    ensures SelectRole(RoleParam(u)) == "guest"
  {
    RoleParamOfSuffix(u, v);
    IndexOfAt(u, '#', |u|);
    assert u[..|u|] == u;
    IndexOfAt(u, '?', |u|);
  }

  // ---------------------------------------------------------------- guest lists

  /** `guests.filter(ws => ws.readyState === OPEN)`. */
  function FilterOpen(gs: seq<ConnId>, reg: Registry): (r: seq<ConnId>)
    ensures |r| <= |gs|
    ensures forall c :: c in r <==> c in gs && c in reg.open
  {
    if gs == [] then []
    else (if gs[0] in reg.open then [gs[0]] else []) + FilterOpen(gs[1..], reg)
  }

  /** Filtering distributes over concatenation, so the kept guests stay in their order. */
  lemma {:induction false} FilterOpenAppend(a: seq<ConnId>, b: seq<ConnId>, reg: Registry)
    ensures FilterOpen(a + b, reg) == FilterOpen(a, reg) + FilterOpen(b, reg)
  {
    if a == [] {
      assert a + b == b;
    } else {
      assert (a + b)[0] == a[0];
      assert (a + b)[1..] == a[1..] + b;
      FilterOpenAppend(a[1..], b, reg);
      var head := if a[0] in reg.open then [a[0]] else [];
      assert FilterOpen(a + b, reg) == head + (FilterOpen(a[1..], reg) + FilterOpen(b, reg));
    }
  }

  /** A second prune right after the first changes nothing. */
  lemma {:induction false} FilterOpenIdempotent(gs: seq<ConnId>, reg: Registry)
    ensures FilterOpen(FilterOpen(gs, reg), reg) == FilterOpen(gs, reg)
  {
    if gs != [] {
      FilterOpenIdempotent(gs[1..], reg);
      var head := if gs[0] in reg.open then [gs[0]] else [];
      FilterOpenAppend(head, FilterOpen(gs[1..], reg), reg);
      if gs[0] in reg.open {
        assert head[1..] == [];
      }
    }
  }

  /** When every guest is open, nothing is pruned. */
  lemma {:induction false} FilterOpenAllOpen(gs: seq<ConnId>, reg: Registry)
    requires forall c :: c in gs ==> c in reg.open
    ensures FilterOpen(gs, reg) == gs
  {
    if gs != [] {
      FilterOpenAllOpen(gs[1..], reg);
      assert [gs[0]] + gs[1..] == gs;
    }
  }

  lemma {:induction false} FilterOpenNoDuplicates(gs: seq<ConnId>, reg: Registry)
    requires NoDuplicates(gs)
    ensures NoDuplicates(FilterOpen(gs, reg))
  {
    if gs != [] {
      var rest := gs[1..];
      assert NoDuplicates(rest) by {
        forall i, j | 0 <= i < j < |rest| ensures rest[i] != rest[j] {
          assert rest[i] == gs[i + 1] && rest[j] == gs[j + 1];
        }
      }
      FilterOpenNoDuplicates(rest, reg);
      assert gs[0] !in rest by {
        forall k | 0 <= k < |rest| ensures rest[k] != gs[0] {
          assert rest[k] == gs[k + 1];
        }
      }
      var tail := FilterOpen(rest, reg);
      var r := FilterOpen(gs, reg);
      if gs[0] in reg.open {
        assert r == [gs[0]] + tail;
        forall i, j | 0 <= i < j < |r| ensures r[i] != r[j] {
          if i == 0 {
            assert r[j] == tail[j - 1] && r[j] in tail;
          } else {
            assert r[i] == tail[i - 1] && r[j] == tail[j - 1];
          }
        }
      } else {
        assert r == tail;
      }
    }
  }

  /** `guests.filter(c => c !== conn)`. */
  function Without(gs: seq<ConnId>, c: ConnId): (r: seq<ConnId>)
    ensures forall x :: x in r <==> x in gs && x != c
  {
    if gs == [] then []
    else (if gs[0] == c then [] else [gs[0]]) + Without(gs[1..], c)
  }

  /** Removing a guest that is not in the list changes nothing. */
  lemma {:induction false} WithoutAbsent(gs: seq<ConnId>, c: ConnId)
    requires c !in gs
    ensures Without(gs, c) == gs
  {
    if gs != [] {
      WithoutAbsent(gs[1..], c);
      assert [gs[0]] + gs[1..] == gs;
    }
  }

  /** Closing a guest removes exactly its one position, keeping the others in order. */
  lemma {:induction false} WithoutRemovesOne(gs: seq<ConnId>, i: nat)
    requires i < |gs| && NoDuplicates(gs)
    ensures Without(gs, gs[i]) == gs[..i] + gs[i + 1..]
  {
    var c := gs[i];
    if i == 0 {
      assert c !in gs[1..] by {
        forall k | 0 <= k < |gs| - 1 ensures gs[1..][k] != c {
          assert gs[1..][k] == gs[k + 1];
        }
      }
      WithoutAbsent(gs[1..], c);
    } else {
      var rest := gs[1..];
      assert NoDuplicates(rest) by {
        forall a, b | 0 <= a < b < |rest| ensures rest[a] != rest[b] {
          assert rest[a] == gs[a + 1] && rest[b] == gs[b + 1];
        }
      }
      assert rest[i - 1] == c;
      WithoutRemovesOne(rest, i - 1);
      assert gs[0] != c;
      assert [gs[0]] + (rest[..i - 1] + rest[i..]) == gs[..i] + gs[i + 1..];
    }
  }

  lemma {:induction false} WithoutNoDuplicates(gs: seq<ConnId>, c: ConnId)
    requires NoDuplicates(gs)
    ensures NoDuplicates(Without(gs, c))
  {
    if c in gs {
      var i :| 0 <= i < |gs| && gs[i] == c;
      WithoutRemovesOne(gs, i);
      var r := gs[..i] + gs[i + 1..];
      forall a, b | 0 <= a < b < |r| ensures r[a] != r[b] {
        var a' := if a < i then a else a + 1;
        var b' := if b < i then b else b + 1;
        assert r[a] == gs[a'] && r[b] == gs[b'];
      }
    } else {
      WithoutAbsent(gs, c);
    }
  }

  // ---------------------------------------------------------------- broadcast sends

  /** The send attempts of one broadcast: one per guest, in list order, each delivered
      unless that guest's own send throws. */
  function BroadcastSends(gs: seq<ConnId>, msg: AgentEvent, reg: Registry): (r: seq<Send>)
    ensures |r| == |gs|
    ensures forall i :: 0 <= i < |gs| ==>
      r[i] == Send(gs[i], EventFrame(msg), gs[i] !in reg.failing)
  {
    seq(|gs|, i requires 0 <= i < |gs| => Send(gs[i], EventFrame(msg), gs[i] !in reg.failing))
  }

  /** Broadcasting to one more guest adds that guest's send at the end. */
  lemma BroadcastSendsStep(gs: seq<ConnId>, i: nat, msg: AgentEvent, reg: Registry)
    requires i < |gs|
    ensures BroadcastSends(gs[..i + 1], msg, reg)
      == BroadcastSends(gs[..i], msg, reg) + [Send(gs[i], EventFrame(msg), gs[i] !in reg.failing)]
  {
    var a := BroadcastSends(gs[..i + 1], msg, reg);
    var b := BroadcastSends(gs[..i], msg, reg) + [Send(gs[i], EventFrame(msg), gs[i] !in reg.failing)];
    assert |a| == |b|;
    forall k | 0 <= k < |a| ensures a[k] == b[k] {
      assert gs[..i + 1][k] == gs[k];
    }
  }

  /** Number of send attempts addressed to `c`. */
  function AttemptsTo(sends: seq<Send>, c: ConnId): nat {
    if sends == [] then 0
    else (if sends[0].to == c then 1 else 0) + AttemptsTo(sends[1..], c)
  }

  /** Every guest of a duplicate-free list is attempted exactly once; nobody else is. */
  lemma {:induction false} BroadcastOncePerGuest(gs: seq<ConnId>, msg: AgentEvent, reg: Registry, c: ConnId)
    requires NoDuplicates(gs)
    ensures AttemptsTo(BroadcastSends(gs, msg, reg), c) == if c in gs then 1 else 0
  {
    if gs != [] {
      var rest := gs[1..];
      assert NoDuplicates(rest) by {
        forall a, b | 0 <= a < b < |rest| ensures rest[a] != rest[b] {
          assert rest[a] == gs[a + 1] && rest[b] == gs[b + 1];
        }
      }
      assert gs[0] !in rest by {
        forall k | 0 <= k < |rest| ensures rest[k] != gs[0] {
          assert rest[k] == gs[k + 1];
        }
      }
      assert BroadcastSends(gs, msg, reg)[1..] == BroadcastSends(rest, msg, reg);
      BroadcastOncePerGuest(rest, msg, reg, c);
      assert c in gs <==> c == gs[0] || c in rest;
    }
  }

  /** A guest that does not throw receives the event, whatever the sends to the other
      guests do. */
  lemma BroadcastIsolation(gs: seq<ConnId>, msg: AgentEvent, reg: Registry, c: ConnId)
    requires c in gs && c !in reg.failing
    ensures Send(c, EventFrame(msg), true) in BroadcastSends(gs, msg, reg)
  {
    var i :| 0 <= i < |gs| && gs[i] == c;
    assert BroadcastSends(gs, msg, reg)[i] == Send(c, EventFrame(msg), true);
  }

  // ---------------------------------------------------------------- the pending table

  /** `pendingToolCalls.delete(id)` as the arbitration point between a result and a timeout:
      it succeeds, handing back the entry, only while the entry is still there. */
  function Take(t: map<string, PendingEntry>, id: string): (r: Option<(PendingEntry, map<string, PendingEntry>)>)
    ensures r.Some? <==> id in t
    ensures r.Some? ==> r.value.0 == t[id] && r.value.1.Keys == t.Keys - {id}
    ensures r.Some? ==> forall k :: k in r.value.1 ==> r.value.1[k] == t[k]
  {
    if id in t then Some((t[id], t - {id})) else None
  }

  /** Whichever of the result and the timer takes the entry first wins; the other finds
      nothing. */
  lemma TakeArbitrates(t: map<string, PendingEntry>, id: string)
    requires id in t
    ensures Take(Take(t, id).value.1, id) == None
  {
  }

  /** Taking an entry out and putting it back restores the table, and the id is gone from
      what is left: exactly one entry is removed. */
  lemma TakeRestores(t: map<string, PendingEntry>, id: string)
    requires id in t
    ensures var (e, rest) := Take(t, id).value;
      id !in rest && rest[id := e] == t
  {
    var (e, rest) := Take(t, id).value;
    assert rest[id := e].Keys == t.Keys;
  }

  /** What the pending table holds at run time. agent/src/chat.ts declares a bare callback,
      while agent/src/tools.ts stores a record `{resolve, tool, args}`. */
  datatype StoredValue = Callback(entry: PendingEntry) | Record(entry: PendingEntry)

  /** Calling the stored value as a function: only a callback can be called; calling a
      record throws a TypeError (None). */
  function CallStored(v: StoredValue): (r: Option<PendingEntry>)
    ensures r.Some? <==> v.Callback?
  {
    match v
    case Callback(e) => Some(e)
    case Record(_) => None
  }

  /** The result handler of agent/src/chat.ts as written: fetch the stored value, call it,
      then delete the entry. A throwing call skips the delete (the handler's catch swallows
      it), so the table is handed back unchanged and nothing resolves. */
  function ToolResultAsWritten(t: map<string, StoredValue>, id: string): (r: (map<string, StoredValue>, Option<PendingEntry>))
    ensures r.1.Some? ==> id in t && t[id].Callback? && r.0 == t - {id}
    ensures r.1.None? ==> r.0 == t
  {
    if id !in t then (t, None)
    else match CallStored(t[id])
      case None => (t, None)
      case Some(e) => (t - {id}, Some(e))
  }

  /** With the record that agent/src/tools.ts actually stores, a matching result never
      resolves the call and the entry stays until its timer fires; `Take` on the same table
      would have handed the entry over and removed it. */
  lemma RecordResultNeverResolves(t: map<string, StoredValue>, id: string, e: PendingEntry)
    requires id in t && t[id] == Record(e)
    ensures ToolResultAsWritten(t, id) == (t, None)
    ensures Take(map k | k in t :: t[k].entry, id) == Some((e, map k | k in t && k != id :: t[k].entry))
  {
    var plain := map k | k in t :: t[k].entry;
    assert plain - {id} == map k | k in t && k != id :: t[k].entry;
  }

  /** `m2` keeps every key of `m1` with its value: a settled promise never changes. */
  predicate Extends<K, V(==)>(m1: map<K, V>, m2: map<K, V>) {
    forall k :: k in m1 ==> k in m2 && m2[k] == m1[k]
  }

  // ---------------------------------------------------------------- the session

  class Chat {
    /** `hostConnection`: the current host, last writer wins. */
    var host: Option<ConnId>
    /** `guestConnections`, in connection order. */
    var guests: seq<ConnId>
    /** `pendingToolCalls`, keyed by call id. */
    var pending: map<string, PendingEntry>
    /** Call ids whose timeout timer is armed and not cleared. */
    var timers: set<string>
    /** Every send attempt the session made, in order. */
    var outbox: seq<Send>
    /** Connections whose host handlers (message, close) are attached. */
    var hostListeners: set<ConnId>
    /** Connections whose guest close handler is attached. */
    var guestListeners: set<ConnId>

    /** Connections that have connected to this session, whatever their role. */
    ghost var connected: set<ConnId>
    /** Call ids handed out so far. */
    ghost var issued: set<string>
    /** How each finished call's promise settled, by call id. */
    ghost var outcomes: map<string, Settlement>

    ghost predicate Valid()
      reads this
    {
      && (host.Some? ==> host.value in hostListeners)
      && (forall c :: c in guests ==> c in guestListeners)
      && NoDuplicates(guests)
      && hostListeners !! guestListeners
      && hostListeners + guestListeners <= connected
      && timers == pending.Keys
      && pending.Keys !! outcomes.Keys
      && pending.Keys + outcomes.Keys <= issued
    }

    constructor ()
      ensures Valid()
      ensures host == None && guests == [] && pending == map[] && outbox == []
      ensures hostListeners == {} && guestListeners == {} && connected == {}
      ensures issued == {} && outcomes == map[]
    {
      host := None;
      guests := [];
      pending := map[];
      timers := {};
      outbox := [];
      hostListeners := {};
      guestListeners := {};
      connected := {};
      issued := {};
      outcomes := map[];
    }

    /** `agentBroadcast`: prune the guests to the open ones, in order, then try each of
        them once; a send that throws does not stop the ones after it. */
    method AgentBroadcast(reg: Registry, msg: AgentEvent)
      requires Valid()
      modifies this`guests, this`outbox
      ensures Valid()
      ensures guests == FilterOpen(old(guests), reg)
      ensures outbox == old(outbox) + BroadcastSends(guests, msg, reg)
    {
      FilterOpenNoDuplicates(guests, reg);
      guests := FilterOpen(guests, reg);
      var i := 0;
      while i < |guests|
        invariant 0 <= i <= |guests|
        invariant Valid() && guests == FilterOpen(old(guests), reg)
        invariant outbox == old(outbox) + BroadcastSends(guests[..i], msg, reg)
      {
        var delivered := guests[i] !in reg.failing;
        BroadcastSendsStep(guests, i, msg, reg);
        outbox := outbox + [Send(guests[i], EventFrame(msg), delivered)];
        i := i + 1;
      }
      assert guests[..i] == guests;
    }

    /** `onConnect`. A host replaces the current host unconditionally and the guests hear
        "online"; a guest is appended and told "online" only if some host is set; any other
        role (the executor's own `role=cli` among them) leaves the session as it was. */
    method OnConnect(reg: Registry, c: ConnId, roleParam: Option<string>)
      requires Valid()
      requires c !in connected
      modifies this
      ensures Valid()
      ensures connected == old(connected) + {c}
      ensures pending == old(pending) && timers == old(timers)
      ensures issued == old(issued) && outcomes == old(outcomes)
      ensures SelectRole(roleParam) == "host" ==>
        && host == Some(c)
        && hostListeners == old(hostListeners) + {c} && guestListeners == old(guestListeners)
        && guests == FilterOpen(old(guests), reg)
        && outbox == old(outbox) + BroadcastSends(guests, HostStatusEvent(Online), reg)
      ensures SelectRole(roleParam) == "guest" ==>
        && host == old(host)
        && hostListeners == old(hostListeners) && guestListeners == old(guestListeners) + {c}
        && guests == old(guests) + [c]
        && outbox == old(outbox) +
             (if old(host).Some? then [Send(c, EventFrame(HostStatusEvent(Online)), c !in reg.failing)] else [])
      ensures SelectRole(roleParam) != "host" && SelectRole(roleParam) != "guest" ==>
        && host == old(host) && guests == old(guests) && outbox == old(outbox)
        && hostListeners == old(hostListeners) && guestListeners == old(guestListeners)
    {
      connected := connected + {c};
      var role := SelectRole(roleParam);
      if role == "host" {
        host := Some(c);
        hostListeners := hostListeners + {c};
        AgentBroadcast(reg, HostStatusEvent(Online));
      } else if role == "guest" {
        assert c !in guests;
        guests := guests + [c];
        guestListeners := guestListeners + {c};
        if host.Some? {
          outbox := outbox + [Send(c, EventFrame(HostStatusEvent(Online)), c !in reg.failing)];
        }
      }
    }

    /** A `close` event. The host handler clears the host and broadcasts "offline", even
        when the closing connection had already been replaced by a newer host; the guest
        handler removes exactly that guest. A connection without handlers changes nothing. */
    method OnClose(reg: Registry, c: ConnId)
      requires Valid()
      modifies this
      ensures Valid()
      ensures pending == old(pending) && timers == old(timers) && outcomes == old(outcomes)
      ensures issued == old(issued) && connected == old(connected)
      ensures hostListeners == old(hostListeners) && guestListeners == old(guestListeners)
      ensures c in old(hostListeners) ==>
        && host == None
        && guests == FilterOpen(old(guests), reg)
        && outbox == old(outbox) + BroadcastSends(guests, HostStatusEvent(Offline), reg)
      ensures c in old(guestListeners) ==>
        host == old(host) && guests == Without(old(guests), c) && outbox == old(outbox)
      ensures c !in old(hostListeners) && c !in old(guestListeners) ==>
        host == old(host) && guests == old(guests) && outbox == old(outbox)
    {
      if c in hostListeners {
        host := None;
        AgentBroadcast(reg, HostStatusEvent(Offline));
      } else if c in guestListeners {
        WithoutNoDuplicates(guests, c);
        guests := Without(guests, c);
      }
    }

    /** A host connection's `message` event; `raw` is None when the text is not JSON. A
        `tool_result` for a pending call clears its timer, broadcasts `tool_complete`,
        fulfils the caller with the output and removes the entry. Invalid JSON, a frame the
        schema rejects, `init`, or an unknown call id change nothing. */
    method OnHostMessage(reg: Registry, c: ConnId, raw: Option<Json>)
      requires Valid()
      modifies this
      ensures Valid()
      ensures host == old(host) && hostListeners == old(hostListeners)
      ensures guestListeners == old(guestListeners)
      ensures issued == old(issued) && connected == old(connected)
      ensures Extends(old(outcomes), outcomes)
      ensures
        var msg := if c in old(hostListeners) && raw.Some? then ParseHostMessage(raw.value) else None;
        if msg.Some? && msg.value.ToolResult? && msg.value.callId in old(pending) then
          var id := msg.value.callId;
          && id !in old(outcomes)
          && outcomes == old(outcomes)[id := Fulfilled(msg.value.output)]
          && pending.Keys == old(pending).Keys - {id}
          && (forall k :: k in pending ==> pending[k] == old(pending)[k])
          && guests == FilterOpen(old(guests), reg)
          && outbox == old(outbox) +
               BroadcastSends(guests, ToolComplete(ToolNameText(old(pending)[id].tool), None), reg)
        else
          && pending == old(pending) && timers == old(timers) && outcomes == old(outcomes)
          && guests == old(guests) && outbox == old(outbox)
    {
      if c in hostListeners && raw.Some? {
        var msg := ParseHostMessage(raw.value);
        if msg.Some? && msg.value.ToolResult? {
          var id := msg.value.callId;
          var taken := Take(pending, id);
          if taken.Some? {
            var (entry, rest) := taken.value;
            // The entry's timer is cleared and the entry removed before its broadcast runs;
            // nothing in between reads them, so the order is not observable.
            timers := timers - {id};
            pending := rest;
            AgentBroadcast(reg, ToolComplete(ToolNameText(entry.tool), None));
            outcomes := outcomes[id := Fulfilled(msg.value.output)];
          }
        }
      }
    }

    /** The expiry of a call's timer. Only an armed timer fires; it rejects the caller only
        if it still takes the entry out of the table. */
    method OnTimerFire(id: string)
      requires Valid()
      modifies this`timers, this`pending, this`outcomes
      ensures Valid()
      ensures Extends(old(outcomes), outcomes)
      ensures id in old(pending) ==>
        && id !in old(outcomes)
        && outcomes == old(outcomes)[id := Rejected(TimeoutReason)]
        && pending.Keys == old(pending).Keys - {id}
        && (forall k :: k in pending ==> pending[k] == old(pending)[k])
      ensures id !in old(pending) ==>
        pending == old(pending) && timers == old(timers) && outcomes == old(outcomes)
    {
      if id in timers {
        timers := timers - {id};
        var taken := Take(pending, id);
        if taken.Some? {
          pending := taken.value.1;
          outcomes := outcomes[id := Rejected(TimeoutReason)];
        }
      }
    }
  }

  /** A host replaced by a newer one still clears the host when it closes. */
  method ReplacedHostCloseScenario(reg: Registry)
  {
    var chat := new Chat();
    chat.OnConnect(reg, 1, Some("host"));
    chat.OnConnect(reg, 2, Some("host"));
    assert chat.host == Some(2);
    chat.OnClose(reg, 1);
    assert chat.host == None;
  }

  /** A guest who joins after a host is told "online" at once; the executor's `role=cli`
      connection is ignored. */
  method GuestAfterHostScenario(reg: Registry)
  {
    var chat := new Chat();
    chat.OnConnect(reg, 1, Some("host"));
    chat.OnConnect(reg, 2, None);
    assert chat.guests == [2];
    assert chat.outbox[|chat.outbox| - 1] == Send(2, EventFrame(HostStatusEvent(Online)), 2 !in reg.failing);
    chat.OnConnect(reg, 3, Some("cli"));
    assert chat.guests == [2] && chat.host == Some(1);
  }
}
