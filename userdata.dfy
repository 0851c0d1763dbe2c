/**
 * The user's data (next/userdata.cpp, next/userdata.h): one list per kind
 * of model, the lookup of a GUID across all of them, the collection of
 * pending changes, the relation maintenance that follows a deletion on the
 * server, and the initial load from the server's reply.
 */
module Userdata {
  import opened Wrappers
  import opened Errors
  import opened BaseModels
  import opened Containers
  import opened Tags
  import opened Clients
  import opened Projects
  import opened TimeEntries
  import opened Countries
  import opened Workspaces
  import opened Tasks
  import opened Autotracker
  import opened TimelineEvents

  /** The groups from position `lo` up to (not including) `hi`, one after the other. */
  function Joined<T>(groups: seq<seq<T>>, lo: nat, hi: nat): seq<T>
    requires lo <= hi <= |groups|
    decreases hi - lo
  {
    if lo == hi then [] else Joined(groups, lo, hi - 1) + groups[hi - 1]
  }

  /** Every group, one after the other. */
  function Flatten<T>(groups: seq<seq<T>>): seq<T> {
    Joined(groups, 0, |groups|)
  }

  /** Joining a range is joining its two halves. */
  lemma {:induction false} JoinedSplit<T>(groups: seq<seq<T>>, lo: nat, mid: nat, hi: nat)
    requires lo <= mid <= hi <= |groups|
    ensures Joined(groups, lo, hi) == Joined(groups, lo, mid) + Joined(groups, mid, hi)
    decreases hi - mid
  {
    if mid < hi {
      JoinedSplit(groups, lo, mid, hi - 1);
    }
  }

  /** The flattened groups split around group `i`. */
  lemma FlattenAround<T>(groups: seq<seq<T>>, i: nat)
    requires i < |groups|
    ensures Flatten(groups) == Joined(groups, 0, i) + groups[i] + Joined(groups, i + 1, |groups|)
  {
    JoinedSplit(groups, 0, i + 1, |groups|);
  }

  lemma GuidsAppend(a: seq<BaseModel>, b: seq<BaseModel>)
    ensures Guids(a + b) == Guids(a) + Guids(b)
  {
  }

  lemma GuidsOfThree(a: seq<BaseModel>, b: seq<BaseModel>, c: seq<BaseModel>)
    ensures Guids(a + b + c) == Guids(a) + Guids(b) + Guids(c)
  {
    GuidsAppend(a, b);
    GuidsAppend(a + b, c);
  }

  /** A value missing from `a` and first found in `b` at `k` is first found in `a + b + c` at `|a| + k`. */
  lemma FirstIndexPastMiss<T>(a: seq<T>, b: seq<T>, c: seq<T>, x: T, k: nat)
    requires x !in a && FirstIndex(b, x) == Some(k)
    ensures FirstIndex(a + b + c, x) == Some(|a| + k)
  {
    FirstIndexAppend(a, b, x);
    FirstIndexAppend(a + b, c, x);
  }


  /** A GUID missing from `front` and first found in `g` at `k` is first found in `front + g + rest` at `|front| + k`. */
  lemma FirstHitAfterMiss(all: seq<BaseModel>, front: seq<BaseModel>, g: seq<BaseModel>, rest: seq<BaseModel>,
                          guid: string, k: nat)
    requires all == front + g + rest
    requires guid !in Guids(front) && FirstIndex(Guids(g), guid) == Some(k)
    ensures FirstIndex(Guids(all), guid) == Some(|front| + k)
    ensures |front| + k < |all| && all[|front| + k] == g[k]
  {
    GuidsOfThree(front, g, rest);
    FirstIndexPastMiss(Guids(front), Guids(g), Guids(rest), guid, k);
  }

  /**
   * A GUID found in group `i`, and in no group before it, is found there by
   * the search of all groups: it stops at the first group holding the GUID.
   */
  lemma FirstHitInGroup(groups: seq<seq<BaseModel>>, i: nat, guid: string, k: nat)
    requires i < |groups|
    requires guid !in Guids(Joined(groups, 0, i))
    requires FirstIndex(Guids(groups[i]), guid) == Some(k)
    ensures Found(Flatten(groups), FirstIndex(Guids(Flatten(groups)), guid)) == Holding(groups[i][k])
  {
    FlattenAround(groups, i);
    FirstHitAfterMiss(Flatten(groups), Joined(groups, 0, i), groups[i], Joined(groups, i + 1, |groups|), guid, k);
  }

  /**
   * The search `ByGuid` runs: group by group, stopping at the first group
   * that holds the GUID, and there at its first model with it. The lookup
   * inside one container (`contains` and `baseByGUID`) is the container's
   * own and is not shown; it is taken to find the first model with the GUID.
   */
  method SearchGroups(groups: seq<seq<BaseModel>>, guid: string) returns (r: Locked)
    ensures r == Found(Flatten(groups), FirstIndex(Guids(Flatten(groups)), guid))
  {
    var i := 0;
    while i < |groups|
      invariant 0 <= i <= |groups|
      invariant guid !in Guids(Joined(groups, 0, i))
    {
      var k := FirstIndex(Guids(groups[i]), guid);
      if k.Some? {
        FirstHitInGroup(groups, i, guid, k.value);
        return Holding(groups[i][k.value]);
      }
      GuidsAppend(Joined(groups, 0, i), groups[i]);
      i := i + 1;
    }
    return Empty();
  }

  /**
   * The requests of the models that are not empty, in model order.
   * `request` stands for each model's `MakeRequest`, and "" for an empty
   * request.
   */
  function NonEmptyRequests(models: seq<BaseModel>, request: BaseModel -> string): (r: seq<string>)
    ensures |r| <= |models|
    ensures forall q :: q in r ==> q != "" && exists m :: m in models && request(m) == q
    ensures forall m :: m in models && request(m) != "" ==> request(m) in r
  {
    if |models| == 0 then []
    else
      var last := models[|models| - 1];
      var front := models[..|models| - 1];
      assert models == front + [last];
      var rest := NonEmptyRequests(front, request);
      if request(last) == "" then rest else rest + [request(last)]
  }

  /** The non-empty requests of two lists are those of the first followed by those of the second. */
  lemma {:induction false} NonEmptyRequestsAppend(a: seq<BaseModel>, b: seq<BaseModel>, request: BaseModel -> string)
    ensures NonEmptyRequests(a + b, request) == NonEmptyRequests(a, request) + NonEmptyRequests(b, request)
    decreases |b|
  {
    if |b| == 0 {
      assert a + b == a;
    } else {
      assert (a + b)[..|a + b| - 1] == a + b[..|b| - 1];
      NonEmptyRequestsAppend(a, b[..|b| - 1], request);
    }
  }

  /** The non-empty requests of each group, group by group. */
  function RequestsPerGroup(groups: seq<seq<BaseModel>>, request: BaseModel -> string): (r: seq<seq<string>>)
    ensures |r| == |groups|
    ensures forall g :: 0 <= g < |groups| ==> r[g] == NonEmptyRequests(groups[g], request)
  {
    seq(|groups|, g requires 0 <= g < |groups| => NonEmptyRequests(groups[g], request))
  }

  /**
   * Collecting over all groups at once gives the requests grouped by
   * group: first every request of the first group, then every request of
   * the second, and so on.
   */
  lemma {:induction false} RequestsGroupedByContainer(groups: seq<seq<BaseModel>>, request: BaseModel -> string)
    ensures NonEmptyRequests(Flatten(groups), request) == Flatten(RequestsPerGroup(groups, request))
  {
    JoinedRequests(groups, |groups|, request);
  }

  lemma {:induction false} JoinedRequests(groups: seq<seq<BaseModel>>, n: nat, request: BaseModel -> string)
    requires n <= |groups|
    ensures NonEmptyRequests(Joined(groups, 0, n), request) == Joined(RequestsPerGroup(groups, request), 0, n)
  {
    if n > 0 {
      JoinedRequests(groups, n - 1, request);
      NonEmptyRequestsAppend(Joined(groups, 0, n - 1), groups[n - 1], request);
    }
  }

  /** The `collectChanges` lambda: the non-empty requests of one container, in container order. */
  method CollectGroup(models: seq<BaseModel>, request: BaseModel -> string) returns (list: seq<string>)
    ensures list == NonEmptyRequests(models, request)
  {
    list := [];
    var i := 0;
    while i < |models|
      invariant 0 <= i <= |models|
      invariant list == NonEmptyRequests(models[..i], request)
    {
      assert models[..i + 1][..i] == models[..i];
      var req := request(models[i]);
      if req != "" {
        list := list + [req];
      }
      i := i + 1;
    }
    assert models[..i] == models;
  }

  /** Position `j` of `models` holds `m` and its key is `key`. */
  predicate KeyedAt(models: seq<BaseModel>, keys: seq<nat>, key: nat, m: BaseModel) {
    exists j :: 0 <= j < |models| && j < |keys| && models[j] == m && keys[j] == key
  }

  lemma KeyedAtAppend(a: seq<BaseModel>, ka: seq<nat>, b: seq<BaseModel>, kb: seq<nat>, key: nat, m: BaseModel)
    requires |a| == |ka| && |b| == |kb|
    ensures KeyedAt(a + b, ka + kb, key, m) <==> KeyedAt(a, ka, key, m) || KeyedAt(b, kb, key, m)
  {
    if KeyedAt(a + b, ka + kb, key, m) {
      var j :| 0 <= j < |a + b| && j < |ka + kb| && (a + b)[j] == m && (ka + kb)[j] == key;
      if j >= |a| {
        assert b[j - |a|] == m && kb[j - |a|] == key;
      }
    }
    if KeyedAt(a, ka, key, m) {
      var j :| 0 <= j < |a| && j < |ka| && a[j] == m && ka[j] == key;
      assert (a + b)[j] == m && (ka + kb)[j] == key;
    }
    if KeyedAt(b, kb, key, m) {
      var j :| 0 <= j < |b| && j < |kb| && b[j] == m && kb[j] == key;
      assert (a + b)[|a| + j] == m && (ka + kb)[|a| + j] == key;
    }
  }

  /**
   * `deleteByWid`: marks as deleted on the server every model whose key
   * is `key`, and changes no other model.
   */
  method MarkDeletedWhere(models: seq<BaseModel>, keys: seq<nat>, key: nat)
    requires |keys| == |models|
    modifies (set m | m in models)`markedAsDeletedOnServer, (set m | m in models)`dirty
    ensures forall m | m in models ::
              m.markedAsDeletedOnServer == (old(m.markedAsDeletedOnServer) || KeyedAt(models, keys, key, m))
              && m.dirty == (old(m.dirty) || KeyedAt(models, keys, key, m))
  {
    var i := 0;
    while i < |models|
      invariant 0 <= i <= |models|
      invariant forall m | m in models ::
                  m.markedAsDeletedOnServer == (old(m.markedAsDeletedOnServer) || KeyedAt(models[..i], keys[..i], key, m))
                  && m.dirty == (old(m.dirty) || KeyedAt(models[..i], keys[..i], key, m))
    {
      assert models[..i + 1] == models[..i] + [models[i]] && keys[..i + 1] == keys[..i] + [keys[i]];
      forall m | m in models
        ensures KeyedAt(models[..i + 1], keys[..i + 1], key, m) <==>
                KeyedAt(models[..i], keys[..i], key, m) || (models[i] == m && keys[i] == key)
      {
        KeyedAtAppend(models[..i], keys[..i], [models[i]], [keys[i]], key, m);
      }
      if keys[i] == key {
        models[i].MarkAsDeletedOnServer();
      }
      i := i + 1;
    }
    assert models[..i] == models && keys[..i] == keys;
  }

  function TagModels(s: seq<Tag>): (r: seq<BaseModel>)
    ensures |r| == |s| && forall i :: 0 <= i < |s| ==> r[i] == s[i].base
  {
    seq(|s|, i requires 0 <= i < |s| => s[i].base)
  }

  function ClientModels(s: seq<Client>): (r: seq<BaseModel>)
    ensures |r| == |s| && forall i :: 0 <= i < |s| ==> r[i] == s[i].base
  {
    seq(|s|, i requires 0 <= i < |s| => s[i].base)
  }

  function ProjectModels(s: seq<Project>): (r: seq<BaseModel>)
    ensures |r| == |s| && forall i :: 0 <= i < |s| ==> r[i] == s[i].base
  {
    seq(|s|, i requires 0 <= i < |s| => s[i].base)
  }

  function TimeEntryModels(s: seq<TimeEntry>): (r: seq<BaseModel>)
    ensures |r| == |s| && forall i :: 0 <= i < |s| ==> r[i] == s[i].base
  {
    seq(|s|, i requires 0 <= i < |s| => s[i].base)
  }

  function CountryModels(s: seq<Country>): (r: seq<BaseModel>)
    ensures |r| == |s| && forall i :: 0 <= i < |s| ==> r[i] == s[i].base
  {
    seq(|s|, i requires 0 <= i < |s| => s[i].base)
  }

  function WorkspaceModels(s: seq<Workspace>): (r: seq<BaseModel>)
    ensures |r| == |s| && forall i :: 0 <= i < |s| ==> r[i] == s[i].base
  {
    seq(|s|, i requires 0 <= i < |s| => s[i].base)
  }

  function TaskModels(s: seq<Task>): (r: seq<BaseModel>)
    ensures |r| == |s| && forall i :: 0 <= i < |s| ==> r[i] == s[i].base
  {
    seq(|s|, i requires 0 <= i < |s| => s[i].base)
  }

  function RuleModels(s: seq<AutotrackerRule>): (r: seq<BaseModel>)
    ensures |r| == |s| && forall i :: 0 <= i < |s| ==> r[i] == s[i].base
  {
    seq(|s|, i requires 0 <= i < |s| => s[i].base)
  }

  function EventModels(s: seq<TimelineEvent>): (r: seq<BaseModel>)
    ensures |r| == |s| && forall i :: 0 <= i < |s| ==> r[i] == s[i].base
  {
    seq(|s|, i requires 0 <= i < |s| => s[i].base)
  }

  function TagWids(s: seq<Tag>): (r: seq<nat>)
    reads s
    ensures |r| == |s| && forall i :: 0 <= i < |s| ==> r[i] == s[i].wid
  {
    seq(|s|, i requires 0 <= i < |s| reads s => s[i].wid)
  }

  function ClientWids(s: seq<Client>): (r: seq<nat>)
    reads s
    ensures |r| == |s| && forall i :: 0 <= i < |s| ==> r[i] == s[i].wid
  {
    seq(|s|, i requires 0 <= i < |s| reads s => s[i].wid)
  }

  function ProjectWids(s: seq<Project>): (r: seq<nat>)
    reads s
    ensures |r| == |s| && forall i :: 0 <= i < |s| ==> r[i] == s[i].wid
  {
    seq(|s|, i requires 0 <= i < |s| reads s => s[i].wid)
  }

  function TimeEntryWids(s: seq<TimeEntry>): (r: seq<nat>)
    reads s
    ensures |r| == |s| && forall i :: 0 <= i < |s| ==> r[i] == s[i].wid
  {
    seq(|s|, i requires 0 <= i < |s| reads s => s[i].wid)
  }

  function TaskWids(s: seq<Task>): (r: seq<nat>)
    reads s
    ensures |r| == |s| && forall i :: 0 <= i < |s| ==> r[i] == s[i].wid
  {
    seq(|s|, i requires 0 <= i < |s| reads s => s[i].wid)
  }

  class UserData {
    var lastSince: int
    var tags: seq<Tag>
    var clients: seq<Client>
    var projects: seq<Project>
    var timeEntries: seq<TimeEntry>
    var countries: seq<Country>
    var workspaces: seq<Workspace>
    var tasks: seq<Task>
    var autotrackerRules: seq<AutotrackerRule>
    var timelineEvents: seq<TimelineEvent>

    constructor()
      ensures lastSince == 0 && tags == [] && clients == [] && projects == [] && timeEntries == []
      ensures countries == [] && workspaces == [] && tasks == [] && autotrackerRules == [] && timelineEvents == []
    {
      lastSince := 0;
      tags, clients, projects, timeEntries := [], [], [], [];
      countries, workspaces, tasks, autotrackerRules, timelineEvents := [], [], [], [], [];
    }

    /**
     * The models of every container, container by container, in the order
     * ByGuid and CollectChanges visit them.
     */
    function Groups(): (r: seq<seq<BaseModel>>)
      reads this
      ensures |r| == 9
    {
      [TagModels(tags), ClientModels(clients), ProjectModels(projects), TimeEntryModels(timeEntries),
       CountryModels(countries), WorkspaceModels(workspaces), TaskModels(tasks),
       RuleModels(autotrackerRules), EventModels(timelineEvents)]
    }

    /** Every model, in that order. */
    function AllModels(): seq<BaseModel>
      reads this
    {
      Flatten(Groups())
    }

    /**
     * `ByGuid`: the first model with the GUID, searching the containers in
     * the fixed order; an invalid handle when no model has it.
     */
    method ByGuid(guid: string) returns (r: Locked)
      ensures r == Found(AllModels(), FirstIndex(Guids(AllModels()), guid))
      ensures r.Valid() <==> guid in Guids(AllModels())
      ensures r.Valid() ==> r.data in AllModels() && r.data.guid == guid
    {
      r := SearchGroups(Groups(), guid);
    }

    /**
     * `CollectChanges`: the non-empty requests of every model, container
     * by container in the fixed order, each container in its own order.
     */
    method CollectChanges(request: BaseModel -> string) returns (list: seq<string>)
      ensures list == NonEmptyRequests(AllModels(), request)
    {
      var groups := Groups();
      list := [];
      var i := 0;
      while i < |groups|
        invariant 0 <= i <= |groups|
        invariant list == NonEmptyRequests(Joined(groups, 0, i), request)
      {
        var inner := CollectGroup(groups[i], request);
        NonEmptyRequestsAppend(Joined(groups, 0, i), groups[i], request);
        list := list + inner;
        i := i + 1;
      }
    }

    /** The models that may belong to a workspace, in the order the deletion visits them. */
    function RelatedModels(): seq<BaseModel>
      reads this
    {
      ClientModels(clients) + ProjectModels(projects) + TaskModels(tasks)
      + TimeEntryModels(timeEntries) + TagModels(tags)
    }

    /** Their workspace IDs, position by position. */
    function RelatedWids(): (r: seq<nat>)
      reads this, clients, projects, tasks, timeEntries, tags
      ensures |r| == |RelatedModels()|
    {
      ClientWids(clients) + ProjectWids(projects) + TaskWids(tasks)
      + TimeEntryWids(timeEntries) + TagWids(tags)
    }

    /** `m` is the model of a client, project, task, time entry or tag of workspace `wid`. */
    predicate InWorkspace(m: BaseModel, wid: nat)
      reads this, clients, projects, tasks, timeEntries, tags
    {
      (exists c :: c in clients && c.base == m && c.wid == wid)
      || (exists p :: p in projects && p.base == m && p.wid == wid)
      || (exists t :: t in tasks && t.base == m && t.wid == wid)
      || (exists te :: te in timeEntries && te.base == m && te.wid == wid)
      || (exists t :: t in tags && t.base == m && t.wid == wid)
    }

    lemma RelatedKeyedAtIff(m: BaseModel, wid: nat)
      ensures KeyedAt(RelatedModels(), RelatedWids(), wid, m) <==> InWorkspace(m, wid)
    {
      var cm, pm, tm, em, gm := ClientModels(clients), ProjectModels(projects), TaskModels(tasks),
                                TimeEntryModels(timeEntries), TagModels(tags);
      var ck, pk, tk, ek, gk := ClientWids(clients), ProjectWids(projects), TaskWids(tasks),
                                TimeEntryWids(timeEntries), TagWids(tags);
      KeyedAtAppend(cm, ck, pm, pk, wid, m);
      KeyedAtAppend(cm + pm, ck + pk, tm, tk, wid, m);
      KeyedAtAppend(cm + pm + tm, ck + pk + tk, em, ek, wid, m);
      KeyedAtAppend(cm + pm + tm + em, ck + pk + tk + ek, gm, gk, wid, m);
      assert KeyedAt(cm, ck, wid, m) <==> exists c :: c in clients && c.base == m && c.wid == wid by {
        if exists c :: c in clients && c.base == m && c.wid == wid {
          var c :| c in clients && c.base == m && c.wid == wid;
          var j :| 0 <= j < |clients| && clients[j] == c;
          assert cm[j] == m && ck[j] == wid;
        }
      }
      assert KeyedAt(pm, pk, wid, m) <==> exists p :: p in projects && p.base == m && p.wid == wid by {
        if exists p :: p in projects && p.base == m && p.wid == wid {
          var p :| p in projects && p.base == m && p.wid == wid;
          var j :| 0 <= j < |projects| && projects[j] == p;
          assert pm[j] == m && pk[j] == wid;
        }
      }
      assert KeyedAt(tm, tk, wid, m) <==> exists t :: t in tasks && t.base == m && t.wid == wid by {
        if exists t :: t in tasks && t.base == m && t.wid == wid {
          var t :| t in tasks && t.base == m && t.wid == wid;
          var j :| 0 <= j < |tasks| && tasks[j] == t;
          assert tm[j] == m && tk[j] == wid;
        }
      }
      assert KeyedAt(em, ek, wid, m) <==> exists te :: te in timeEntries && te.base == m && te.wid == wid by {
        if exists te :: te in timeEntries && te.base == m && te.wid == wid {
          var te :| te in timeEntries && te.base == m && te.wid == wid;
          var j :| 0 <= j < |timeEntries| && timeEntries[j] == te;
          assert em[j] == m && ek[j] == wid;
        }
      }
      assert KeyedAt(gm, gk, wid, m) <==> exists t :: t in tags && t.base == m && t.wid == wid by {
        if exists t :: t in tags && t.base == m && t.wid == wid {
          var t :| t in tags && t.base == m && t.wid == wid;
          var j :| 0 <= j < |tags| && tags[j] == t;
          assert gm[j] == m && gk[j] == wid;
        }
      }
    }

    /**
     * `DeleteRelatedModelsWithWorkspace`: marks as deleted on the server
     * exactly the clients, projects, tasks, time entries and tags of the
     * workspace; no other model changes.
     */
    method DeleteRelatedModelsWithWorkspace(wid: nat)
      modifies (set m | m in RelatedModels())`markedAsDeletedOnServer, (set m | m in RelatedModels())`dirty
      ensures forall m | m in RelatedModels() ::
                m.markedAsDeletedOnServer == (old(m.markedAsDeletedOnServer) || InWorkspace(m, wid))
                && m.dirty == (old(m.dirty) || InWorkspace(m, wid))
      ensures forall c | c in clients && c.wid == wid :: c.base.markedAsDeletedOnServer
      ensures forall p | p in projects && p.wid == wid :: p.base.markedAsDeletedOnServer
      ensures forall t | t in tasks && t.wid == wid :: t.base.markedAsDeletedOnServer
      ensures forall te | te in timeEntries && te.wid == wid :: te.base.markedAsDeletedOnServer
      ensures forall t | t in tags && t.wid == wid :: t.base.markedAsDeletedOnServer
    {
      var models, keys := RelatedModels(), RelatedWids();
      MarkDeletedWhere(models, keys, wid);
      forall m | m in models
        ensures KeyedAt(models, keys, wid, m) <==> InWorkspace(m, wid)
      {
        RelatedKeyedAtIff(m, wid);
      }
      RelatedModelsCover();
    }

    /** Every client, project, task, time entry and tag has its model among the related models. */
    lemma RelatedModelsCover()
      ensures forall c | c in clients :: c.base in RelatedModels()
      ensures forall p | p in projects :: p.base in RelatedModels()
      ensures forall t | t in tasks :: t.base in RelatedModels()
      ensures forall te | te in timeEntries :: te.base in RelatedModels()
      ensures forall t | t in tags :: t.base in RelatedModels()
    {
      var models := RelatedModels();
      forall c | c in clients ensures c.base in models {
        var j :| 0 <= j < |clients| && clients[j] == c;
        assert models[j] == c.base;
      }
      forall p | p in projects ensures p.base in models {
        var j :| 0 <= j < |projects| && projects[j] == p;
        assert models[|clients| + j] == p.base;
      }
      forall t | t in tasks ensures t.base in models {
        var j :| 0 <= j < |tasks| && tasks[j] == t;
        assert models[|clients| + |projects| + j] == t.base;
      }
      forall te | te in timeEntries ensures te.base in models {
        var j :| 0 <= j < |timeEntries| && timeEntries[j] == te;
        assert models[|clients| + |projects| + |tasks| + j] == te.base;
      }
      forall t | t in tags ensures t.base in models {
        var j :| 0 <= j < |tags| && tags[j] == t;
        assert models[|clients| + |projects| + |tasks| + |timeEntries| + j] == t.base;
      }
    }

    /** `m` is the model of a project of client `cid`. */
    predicate OfClient(m: BaseModel, cid: nat)
      reads this, projects
    {
      exists p :: p in projects && p.base == m && p.cid == cid
    }

    /** `m` is the model of a task or a time entry of project `pid`. */
    predicate OfProject(m: BaseModel, pid: nat)
      reads this, tasks, timeEntries
    {
      (exists t :: t in tasks && t.base == m && t.pid == pid)
      || (exists te :: te in timeEntries && te.base == m && te.pid == pid)
    }

    /** `m` is the model of a time entry of task `tid`. */
    predicate OfTask(m: BaseModel, tid: nat)
      reads this, timeEntries
    {
      exists te :: te in timeEntries && te.base == m && te.tid == tid
    }

    /**
     * `RemoveClientFromRelatedModels`: every project of the client loses
     * it (its CID becomes 0); every other project keeps its CID. SetCID
     * dirties exactly the models whose CID changes, so a client ID of 0
     * dirties nothing.
     */
    method RemoveClientFromRelatedModels(cid: nat)
      modifies (set p | p in projects)`cid, (set p | p in projects :: p.base)`dirty
      ensures forall p | p in projects :: p.cid == (if old(p.cid) == cid then 0 else old(p.cid))
      ensures forall p | p in projects ::
                p.base.dirty == (old(p.base.dirty) || (cid != 0 && old(OfClient(p.base, cid))))
    {
      var i := 0;
      while i < |projects|
        invariant 0 <= i <= |projects|
        invariant forall p | p in projects ::
                    p.cid == (if old(p.cid) == cid && p in projects[..i] then 0 else old(p.cid))
        invariant forall p | p in projects ::
                    p.base.dirty == (old(p.base.dirty)
                                     || (cid != 0 && exists q :: q in projects[..i] && q.base == p.base && old(q.cid) == cid))
      {
        assert projects[..i + 1] == projects[..i] + [projects[i]];
        if projects[i].cid == cid {
          projects[i].SetCID(0);
        }
        i := i + 1;
      }
      assert projects[..i] == projects;
    }

    /**
     * `RemoveProjectFromRelatedModels`: the tasks and time entries of the
     * project lose it (their PID becomes 0); nothing else changes, and
     * exactly the models whose PID changes are dirtied.
     */
    method RemoveProjectFromRelatedModels(pid: nat)
      modifies (set t | t in tasks)`pid, (set t | t in tasks :: t.base)`dirty
      modifies (set te | te in timeEntries)`pid, (set te | te in timeEntries :: te.base)`dirty
      ensures forall t | t in tasks :: t.pid == (if old(t.pid) == pid then 0 else old(t.pid))
      ensures forall te | te in timeEntries :: te.pid == (if old(te.pid) == pid then 0 else old(te.pid))
      ensures forall t | t in tasks ::
                t.base.dirty == (old(t.base.dirty) || (pid != 0 && old(OfProject(t.base, pid))))
      ensures forall te | te in timeEntries ::
                te.base.dirty == (old(te.base.dirty) || (pid != 0 && old(OfProject(te.base, pid))))
    {
      ghost var bases := (set t | t in tasks :: t.base) + (set te | te in timeEntries :: te.base);
      var i := 0;
      while i < |tasks|
        invariant 0 <= i <= |tasks|
        invariant forall t | t in tasks ::
                    t.pid == (if old(t.pid) == pid && t in tasks[..i] then 0 else old(t.pid))
        invariant forall te | te in timeEntries :: te.pid == old(te.pid)
        invariant forall m | m in bases ::
                    m.dirty == (old(m.dirty)
                                || (pid != 0 && exists t :: t in tasks[..i] && t.base == m && old(t.pid) == pid))
      {
        assert tasks[..i + 1] == tasks[..i] + [tasks[i]];
        if tasks[i].pid == pid {
          tasks[i].SetPID(0);
        }
        i := i + 1;
      }
      assert tasks[..i] == tasks;
      var j := 0;
      while j < |timeEntries|
        invariant 0 <= j <= |timeEntries|
        invariant forall te | te in timeEntries ::
                    te.pid == (if old(te.pid) == pid && te in timeEntries[..j] then 0 else old(te.pid))
        invariant forall t | t in tasks :: t.pid == (if old(t.pid) == pid then 0 else old(t.pid))
        invariant forall m | m in bases ::
                    m.dirty == (old(m.dirty)
                                || (pid != 0 && ((exists t :: t in tasks && t.base == m && old(t.pid) == pid)
                                    || exists te :: te in timeEntries[..j] && te.base == m && old(te.pid) == pid)))
      {
        assert timeEntries[..j + 1] == timeEntries[..j] + [timeEntries[j]];
        if timeEntries[j].pid == pid {
          timeEntries[j].SetPID(0);
        }
        j := j + 1;
      }
      assert timeEntries[..j] == timeEntries;
    }

    /**
     * `RemoveTaskFromRelatedModels`: the time entries of the task lose it
     * (their TID becomes 0); every other entry keeps its TID, and exactly
     * the entries whose TID changes are dirtied.
     */
    method RemoveTaskFromRelatedModels(tid: nat)
      modifies (set te | te in timeEntries)`tid, (set te | te in timeEntries :: te.base)`dirty
      ensures forall te | te in timeEntries :: te.tid == (if old(te.tid) == tid then 0 else old(te.tid))
      ensures forall te | te in timeEntries ::
                te.base.dirty == (old(te.base.dirty) || (tid != 0 && old(OfTask(te.base, tid))))
    {
      var i := 0;
      while i < |timeEntries|
        invariant 0 <= i <= |timeEntries|
        invariant forall te | te in timeEntries ::
                    te.tid == (if old(te.tid) == tid && te in timeEntries[..i] then 0 else old(te.tid))
        invariant forall te | te in timeEntries ::
                    te.base.dirty == (old(te.base.dirty)
                                      || (tid != 0 && exists e :: e in timeEntries[..i] && e.base == te.base && old(e.tid) == tid))
      {
        assert timeEntries[..i + 1] == timeEntries[..i] + [timeEntries[i]];
        if timeEntries[i].tid == tid {
          timeEntries[i].SetTID(0);
        }
        i := i + 1;
      }
      assert timeEntries[..i] == timeEntries;
    }

    /** The tags hold the elements' IDs, names and workspaces, one tag per element in element order. */
    predicate TagsLoadedFrom(elements: seq<TagJson>)
      reads this`tags, tags, set t | t in tags :: t.base
    {
      |tags| == |elements|
      && forall i :: 0 <= i < |tags| ==>
           tags[i].base.id == elements[i].id && tags[i].name == elements[i].name && tags[i].wid == elements[i].wid
    }

    /** The clients hold the elements' IDs, names and workspaces, one client per element in element order. */
    predicate ClientsLoadedFrom(elements: seq<ClientJson>)
      reads this`clients, clients, set c | c in clients :: c.base
    {
      |clients| == |elements|
      && forall i :: 0 <= i < |clients| ==>
           clients[i].base.id == elements[i].id && clients[i].name == elements[i].name
           && clients[i].wid == elements[i].wid
    }

    /**
     * One time entry per element in element order, each with the element's
     * ID (0 when it has none) and, unless the element is stale for a new
     * entry, its description, times and project.
     */
    predicate TimeEntriesLoadedFrom(elements: seq<TimeEntryJson>)
      reads this`timeEntries, timeEntries, set te | te in timeEntries :: te.base
    {
      |timeEntries| == |elements|
      && forall i :: 0 <= i < |timeEntries| ==>
           timeEntries[i].base.id == (if elements[i].id.Some? then elements[i].id.value else 0)
           && (!IsStale(elements[i], 0, 0) ==>
                 timeEntries[i].start == elements[i].start && timeEntries[i].stop == elements[i].stop
                 && timeEntries[i].durationInSeconds == elements[i].duration
                 && timeEntries[i].pid == (if elements[i].pid.Some? then elements[i].pid.value else 0))
    }

    /** `clear` of the tags. */
    method ClearTags()
      modifies this`tags
      ensures tags == []
    {
      tags := [];
    }

    /** `clear` of the clients. */
    method ClearClients()
      modifies this`clients
      ensures clients == []
    {
      clients := [];
    }

    /** `clear` of the projects. */
    method ClearProjects()
      modifies this`projects
      ensures projects == []
    {
      projects := [];
    }

    /** `clear` of the time entries. */
    method ClearTimeEntries()
      modifies this`timeEntries
      ensures timeEntries == []
    {
      timeEntries := [];
    }

    /**
     * `loadTags`: `root` is the "tags" member, None when it is not an
     * array. The list is emptied first; a non-array leaves it empty.
     */
    method LoadTags(root: Option<seq<TagJson>>) returns (err: Code)
      modifies this`tags
      ensures root.None? ==> err == MalformedData && tags == []
      ensures root.Some? ==> err == NoError && TagsLoadedFrom(root.value)
      ensures forall t | t in tags :: fresh(t) && fresh(t.base)
    {
      ClearTags();
      if root.None? {
        return MalformedData;
      }
      var elements := root.value;
      var i := 0;
      while i < |elements|
        invariant 0 <= i <= |elements| && |tags| == i
        invariant forall t | t in tags :: fresh(t) && fresh(t.base)
        invariant forall j :: 0 <= j < i ==>
                    tags[j].base.id == elements[j].id && tags[j].name == elements[j].name
                    && tags[j].wid == elements[j].wid
      {
        var item := new Tag();
        var _ := item.LoadFromJSON(elements[i]);
        tags := tags + [item];
        i := i + 1;
      }
      return NoError;
    }

    /** `loadClients`: as LoadTags, for the "clients" member. */
    method LoadClients(root: Option<seq<ClientJson>>) returns (err: Code)
      modifies this`clients
      ensures root.None? ==> err == MalformedData && clients == []
      ensures root.Some? ==> err == NoError && ClientsLoadedFrom(root.value)
      ensures forall c | c in clients :: fresh(c) && fresh(c.base)
    {
      ClearClients();
      if root.None? {
        return MalformedData;
      }
      var elements := root.value;
      var i := 0;
      while i < |elements|
        invariant 0 <= i <= |elements| && |clients| == i
        invariant forall c | c in clients :: fresh(c) && fresh(c.base)
        invariant forall j :: 0 <= j < i ==>
                    clients[j].base.id == elements[j].id && clients[j].name == elements[j].name
                    && clients[j].wid == elements[j].wid
      {
        var item := new Client();
        var _ := item.LoadFromJSON(elements[i]);
        clients := clients + [item];
        i := i + 1;
      }
      return NoError;
    }

    /**
     * `loadProjects`: as LoadTags, for the "projects" member. A project's
     * own LoadFromJSON is not part of this model, so each element yields a
     * new project and its members are not read.
     */
    method LoadProjects(root: Option<seq<Json>>) returns (err: Code)
      modifies this`projects
      ensures root.None? ==> err == MalformedData && projects == []
      ensures root.Some? ==> err == NoError && |projects| == |root.value|
      ensures forall p | p in projects :: fresh(p) && fresh(p.base)
    {
      ClearProjects();
      if root.None? {
        return MalformedData;
      }
      var i := 0;
      while i < |root.value|
        invariant 0 <= i <= |root.value| && |projects| == i
        invariant forall p | p in projects :: fresh(p) && fresh(p.base)
      {
        var item := new Project();
        projects := projects + [item];
        i := i + 1;
      }
      return NoError;
    }

    /** `loadTimeEntries`: as LoadTags, for the "time_entries" member. */
    method LoadTimeEntries(root: Option<seq<TimeEntryJson>>) returns (err: Code)
      modifies this`timeEntries
      ensures root.None? ==> err == MalformedData && timeEntries == []
      ensures root.Some? ==> err == NoError && TimeEntriesLoadedFrom(root.value)
      ensures forall te | te in timeEntries :: fresh(te) && fresh(te.base)
    {
      ClearTimeEntries();
      if root.None? {
        return MalformedData;
      }
      var elements := root.value;
      var i := 0;
      while i < |elements|
        invariant 0 <= i <= |elements| && |timeEntries| == i
        invariant forall te | te in timeEntries :: fresh(te) && fresh(te.base)
        invariant forall j :: 0 <= j < i ==>
                    timeEntries[j].base.id == (if elements[j].id.Some? then elements[j].id.value else 0)
                    && (!IsStale(elements[j], 0, 0) ==>
                          timeEntries[j].start == elements[j].start && timeEntries[j].stop == elements[j].stop
                          && timeEntries[j].durationInSeconds == elements[j].duration
                          && timeEntries[j].pid == (if elements[j].pid.Some? then elements[j].pid.value else 0))
      {
        var item := new TimeEntry();
        var _ := item.LoadFromJSON(elements[i]);
        timeEntries := timeEntries + [item];
        i := i + 1;
      }
      return NoError;
    }

    /**
     * `loadAll` without the user: records "since", then loads tags,
     * clients, projects and time entries in that order, stopping at the
     * first load that fails; the lists after it are not touched.
     */
    method LoadAll(since: int, tagsRoot: Option<seq<TagJson>>, clientsRoot: Option<seq<ClientJson>>,
                   projectsRoot: Option<seq<Json>>, timeEntriesRoot: Option<seq<TimeEntryJson>>)
      returns (err: Code)
      modifies this`lastSince, this`tags, this`clients, this`projects, this`timeEntries
      ensures lastSince == since
      ensures err == (if tagsRoot.Some? && clientsRoot.Some? && projectsRoot.Some? && timeEntriesRoot.Some?
                      then NoError else MalformedData)
      ensures tagsRoot.None? ==> tags == [] && clients == old(clients)
      ensures tagsRoot.Some? ==> TagsLoadedFrom(tagsRoot.value)
      ensures tagsRoot.Some? && clientsRoot.None? ==> clients == [] && projects == old(projects)
      ensures tagsRoot.Some? && clientsRoot.Some? ==> ClientsLoadedFrom(clientsRoot.value)
      ensures (tagsRoot.None? || clientsRoot.None?) ==> projects == old(projects)
      ensures tagsRoot.Some? && clientsRoot.Some? ==>
                (projectsRoot.None? ==> projects == []) && (projectsRoot.Some? ==> |projects| == |projectsRoot.value|)
      ensures (tagsRoot.None? || clientsRoot.None? || projectsRoot.None?) ==> timeEntries == old(timeEntries)
      ensures tagsRoot.Some? && clientsRoot.Some? && projectsRoot.Some? ==>
                (timeEntriesRoot.None? ==> timeEntries == [])
                && (timeEntriesRoot.Some? ==> TimeEntriesLoadedFrom(timeEntriesRoot.value))
    {
      lastSince := since;
      err := LoadTags(tagsRoot);
      if err != NoError {
        return;
      }
      err := LoadClients(clientsRoot);
      if err != NoError {
        return;
      }
      err := LoadProjects(projectsRoot);
      if err != NoError {
        return;
      }
      err := LoadTimeEntries(timeEntriesRoot);
      if err != NoError {
        return;
      }
      return NoError;
    }
  }
}
