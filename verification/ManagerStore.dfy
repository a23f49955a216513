/** The store class (src/mycoagent/manager/store.py, ManagerStore). A call reads the
    clock each time the code does; the readings are parameters. */
module ManagerStores {
  import opened Models
  import opened Timestamps
  import opened Manager
  import opened Catalog
  import opened PolicyUpdates
  import Ordering
  import Text

  datatype GroupInfo = GroupInfo(name: string, row: GroupRow, members: set<NodeId>, pending: set<NodeId>)

  function InfoOf(st: State, name: string): GroupInfo
    requires name in st.groups
  {
    GroupInfo(name, st.groups[name],
              set id | id in st.nodes && st.nodes[id].group == name && st.nodes[id].membership == Approved,
              set id | id in st.nodes && st.nodes[id].group == name && st.nodes[id].membership == Pending)
  }

  /** The group's row, and its nodes by membership: those approved and those waiting. */
  lemma InfoListsMembers(st: State, name: string, id: NodeId)
    requires name in st.groups
    ensures var info := InfoOf(st, name);
            && info.name == name && info.row == st.groups[name]
            && (id in info.members <==>
                  id in st.nodes && st.nodes[id].group == name && st.nodes[id].membership == Membership.Approved)
            && (id in info.pending <==>
                  id in st.nodes && st.nodes[id].group == name && st.nodes[id].membership == Membership.Pending)
  {}

  class ManagerStore {
    var groups: map<string, GroupRow>
    var nodes: map<NodeId, NodeRecord>
    const timeout: nat  // microseconds

    ghost function Contents(): State
      reads this
    {
      State(groups, nodes)
    }

    /** Opens a database with the rows it holds. */
    constructor (path: State, heartbeatTimeoutSeconds: nat)
      ensures Contents() == path && timeout == heartbeatTimeoutSeconds * 1_000_000
    {
      groups := path.groups;
      nodes := path.nodes;
      timeout := heartbeatTimeoutSeconds * 1_000_000;
    }

    /** The UPDATE visits the rows one by one. */
    method ExpireOffline(now: Instant)
      requires ClockOk(now, timeout)
      modifies this`nodes
      ensures Contents() == Expire(old(Contents()), now, timeout)
    {
      hide Iso, Text.Less, FromMicros, Micros, Valid;
      var cutoff := Cutoff(now, timeout);
      var left := nodes.Keys;
      ghost var goal := Expire(Contents(), now, timeout).nodes;
      while left != {}
        invariant left <= nodes.Keys == goal.Keys
        invariant forall id :: id in left ==> nodes[id] == old(nodes)[id]
        invariant forall id :: id in goal && id !in left ==> nodes[id] == goal[id]
        invariant groups == old(groups)
        decreases left
      {
        var id :| id in left;
        if Text.Less(nodes[id].lastSeen, cutoff) && nodes[id].status != Offline {
          nodes := nodes[id := nodes[id].(status := Offline)];
        }
        left := left - {id};
      }
      assert nodes == goal;
    }

    method CreateGroup(name: string, description: string, mode: JoinMode, allowRegister: seq<string>,
                       allowParent: seq<string>, now: Instant, later: Instant)
      returns (r: Result<GroupInfo, Error>)
      requires ClockOk(later, timeout)
      modifies this
      ensures match Manager.CreateGroup(old(Contents()), name,
                    GroupRow(Iso(now), description, mode, allowRegister, allowParent))
              case Err(e) => Contents() == old(Contents()) && r == Err(e)
              case Ok(next) => Contents() == Expire(next, later, timeout) && r == Ok(InfoOf(Contents(), name))
    {
      if name in groups { return Err(GroupExists); }
      groups := groups[name := GroupRow(Iso(now), description, mode, allowRegister, allowParent)];
      r := GetGroup(name, later);
    }

    /** Reads the policy and writes it back under two separate lock holds; run alone,
        it changes the fields that the patch names. */
    method UpdateGroup(name: string, patch: PolicyPatch, now: Instant, later: Instant)
    returns (r: Result<GroupInfo, Error>)
      requires ClockOk(now, timeout) && ClockOk(later, timeout)
      modifies this
      ensures var st := Expire(old(Contents()), now, timeout);
              if name !in st.groups then Contents() == st && r == Err(GroupNotFound)
              else Contents() == Expire(WritePolicy(st, name, Patched(st.groups[name], patch)), later, timeout)
                   && r == Ok(InfoOf(Contents(), name))
    {
      var current := GetGroup(name, now);
      if current.Err? { return Err(current.error); }
      if name in groups {
        groups := groups[name := Patched(current.value.row, patch).(createdAt := groups[name].createdAt)];
      }
      r := GetGroup(name, later);
    }

    /** Removes the group, and its nodes by the cascading foreign key. */
    method DeleteGroup(name: string) returns (r: Result<(), Error>)
      modifies this
      ensures match Manager.DeleteGroup(old(Contents()), name)
              case Err(e) => Contents() == old(Contents()) && r == Err(e)
              case Ok(next) => Contents() == next && r == Ok(())
    {
      if name !in groups { return Err(GroupNotFound); }
      groups := groups - {name};
      nodes := map id | id in nodes && nodes[id].group != name :: nodes[id];
      r := Ok(());
    }

    method GetGroup(name: string, now: Instant) returns (r: Result<GroupInfo, Error>)
      requires ClockOk(now, timeout)
      modifies this`nodes
      ensures Contents() == Expire(old(Contents()), now, timeout)
      ensures r == if name in groups then Ok(InfoOf(Contents(), name)) else Err(GroupNotFound)
      ensures r.Ok? ==> forall id ::
        && (id in r.value.members <==>
              id in nodes && nodes[id].group == name && nodes[id].membership == Membership.Approved)
        && (id in r.value.pending <==>
              id in nodes && nodes[id].group == name && nodes[id].membership == Membership.Pending)
    {
      ExpireOffline(now);
      if name !in groups { return Err(GroupNotFound); }
      r := Ok(GroupInfo(name, groups[name],
                        set id | id in nodes && nodes[id].group == name && nodes[id].membership == Approved,
                        set id | id in nodes && nodes[id].group == name && nodes[id].membership == Pending));
    }

    method GetNode(id: NodeId, now: Instant) returns (r: Result<NodeRecord, Error>)
      requires ClockOk(now, timeout)
      modifies this`nodes
      ensures Contents() == Expire(old(Contents()), now, timeout)
      ensures r == if id in nodes then Ok(nodes[id]) else Err(NodeNotFound)
    {
      ExpireOffline(now);
      r := if id in nodes then Ok(nodes[id]) else Err(NodeNotFound);
    }

    method RegisterNode(req: RegisterRequest, id: NodeId, first: Instant, now: Instant, later: Instant)
      returns (r: Result<NodeRecord, Error>)
      requires ClockOk(first, timeout) && Valid(now) && ClockOk(later, timeout)
      modifies this`nodes
      ensures match Register(Expire(old(Contents()), first, timeout), req, id, now)
              case Err(e) => Contents() == Expire(old(Contents()), first, timeout) && r == Err(e)
              case Ok(next) => Contents() == Expire(next, later, timeout) && r == Ok(nodes[id])
      ensures r == Err(RegisterForbidden)
         <==> req.group in groups && groups[req.group].allowRegister != []
              && req.name !in groups[req.group].allowRegister
      ensures r == Err(GroupNotFound) <==> req.group !in groups
    {
      hide Iso, Cutoff, Text.Less, FromMicros, Micros;
      ExpireOffline(first);
      if req.group !in groups { return Err(GroupNotFound); }
      var group := groups[req.group];
      if group.allowRegister != [] && req.name !in group.allowRegister { return Err(RegisterForbidden); }
      var stamp := Iso(now);
      var membership;
      if id in nodes && nodes[id].group == req.group {
        membership := nodes[id].membership;
      } else if group.joinMode == JoinMode.Manual {
        membership := Membership.Pending;
      } else {
        membership := Membership.Approved;
      }
      var created := if id in nodes then nodes[id].createdAt else stamp;
      nodes := nodes[id :=
        NodeRecord(id, req.name, req.group, req.memoryMb, req.models, req.skills, req.toolsDeclared,
                   req.toolsAvailable, Idle, stamp, created, membership)];
      r := GetNode(id, later);
    }

    method SetMembership(group: string, id: NodeId, verdict: Membership, now: Instant, later: Instant)
      returns (r: Result<NodeRecord, Error>)
      requires ClockOk(now, timeout) && ClockOk(later, timeout)
      modifies this`nodes
      ensures match Manager.SetMembership(Expire(old(Contents()), now, timeout), group, id, verdict)
              case Err(e) => Contents() == Expire(old(Contents()), now, timeout) && r == Err(e)
              case Ok(next) => Contents() == Expire(next, later, timeout) && r == Ok(nodes[id])
      ensures r == Err(NodeNotFound) <==> id !in old(nodes)
      ensures r == Err(NotInGroup) <==> id in old(nodes) && old(nodes)[id].group != group
    {
      hide Iso, Cutoff, Text.Less, FromMicros, Micros;
      ExpireOffline(now);
      if id !in nodes { return Err(NodeNotFound); }
      if nodes[id].group != group { return Err(NotInGroup); }
      nodes := nodes[id := nodes[id].(membership := verdict)];
      r := GetNode(id, later);
    }

    method Heartbeat(id: NodeId, req: HeartbeatRequest, first: Instant, now: Instant, later: Instant)
      returns (r: Result<NodeRecord, Error>)
      requires ClockOk(first, timeout) && Valid(now) && ClockOk(later, timeout)
      modifies this`nodes
      ensures match Manager.Heartbeat(Expire(old(Contents()), first, timeout), id, req, now)
              case Err(e) => Contents() == Expire(old(Contents()), first, timeout) && r == Err(e)
              case Ok(next) => Contents() == Expire(next, later, timeout) && r == Ok(nodes[id])
    {
      hide Iso, Cutoff, Text.Less, FromMicros, Micros;
      ExpireOffline(first);
      if id !in nodes { return Err(NodeNotFound); }
      var row := nodes[id];
      var tools := if req.toolsAvailable.Some? then req.toolsAvailable.value else row.toolsAvailable;
      var models := if req.models.Some? then req.models.value else row.models;
      nodes := nodes[id := row.(status := req.status, lastSeen := Iso(now), toolsAvailable := tools, models := models)];
      r := GetNode(id, later);
    }

    /** The SELECT with its ORDER BY, then the filter. */
    method Select(q: Query) returns (r: Result<seq<NodeRecord>, Error>)
      requires forall id :: id in nodes ==> nodes[id].id == id
      ensures match r
              case Err(e) => e == GroupNotFound && q.group !in groups
              case Ok(answer) => q.group in groups && IsAnswer(Contents(), q, answer)
    {
      if q.group !in groups { return Err(GroupNotFound); }
      var rows: seq<NodeRecord> := [];
      var left := nodes.Keys;
      while left != {}
        invariant left <= nodes.Keys
        invariant forall n :: n in rows <==> Listed(Contents(), q.group, n) && n.id !in left
        invariant Catalog.DistinctIds(rows)
        decreases left
      {
        var id :| id in left;
        if nodes[id].group == q.group && nodes[id].membership == Approved {
          rows := rows + [nodes[id]];
        }
        left := left - {id};
      }
      SortKeepsDistinct(rows);
      var sorted := Ordering.Sort(rows, SeenLe);
      FilterKeepsOrder(sorted, q);
      forall n ensures Matches(n, q) <==> Suits(n, q) { MatchesIffSuits(n, q); }
      r := Ok(Filter(sorted, q));
    }

    method QueryCatalog(q: Query, now: Instant) returns (r: Result<seq<NodeRecord>, Error>)
      requires ClockOk(now, timeout) && forall id :: id in nodes ==> nodes[id].id == id
      modifies this`nodes
      ensures Contents() == Expire(old(Contents()), now, timeout)
      ensures match r
              case Err(e) => e == GroupNotFound && q.group !in groups
              case Ok(answer) => q.group in groups && IsAnswer(Contents(), q, answer)
    {
      ExpireOffline(now);
      r := Select(q);
    }
  }
}
