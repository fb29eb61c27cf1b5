/**
 The analytics collectors of awx/main/analytics/collectors.py, from the
 rows their database queries return to the JSON-ready dictionaries they
 report. Each query result is an input sequence of rows; the helpers the
 module imports (license lookup, version strings, name conversion, object
 counts, the table copy) are inputs too.
 */
module Collectors {
  import opened Dicts
  import opened Paths

  /** A JSON-serialisable value held in a reported dictionary. */
  datatype Value = Str(s: string) | Int(i: int) | Bool(b: bool) | Strs(items: seq<string>)

  /** A reported dictionary with string keys. */
  type Record = map<string, Value>

  // ---------------------------------------------------------------- config

  /** The Django settings `config` reports. */
  datatype Settings = Settings(
    systemUuid: string,
    towerUrlBase: string,
    pendoTrackingState: string,
    authenticationBackends: seq<string>,
    logAggregatorLoggers: seq<string>)

  const ConfigFields: set<string> :=
    {"system_uuid", "tower_url_base", "tower_version", "ansible_version", "license_type",
     "free_instances", "license_expiry", "pendo_tracking", "authentication_backends",
     "logging_aggregators"}

  /** `config`: the settings and versions as they are, and three license
      fields looked up with defaults. The license dictionary is read under
      the key "free instances", with a space, as the collector spells it. */
  function Config(settings: Settings, license: map<string, Value>, towerVersion: string,
                  ansibleVersion: string): (r: Record)
    ensures r.Keys == ConfigFields
    ensures r["license_type"] == if "license_type" in license then license["license_type"] else Str("UNLICENSED")
    ensures r["free_instances"] == if "free instances" in license then license["free instances"] else Int(0)
    ensures r["license_expiry"] == if "time_remaining" in license then license["time_remaining"] else Int(0)
    ensures r["system_uuid"] == Str(settings.systemUuid) && r["tower_url_base"] == Str(settings.towerUrlBase)
    ensures r["tower_version"] == Str(towerVersion) && r["ansible_version"] == Str(ansibleVersion)
    ensures r["pendo_tracking"] == Str(settings.pendoTrackingState)
    ensures r["authentication_backends"] == Strs(settings.authenticationBackends)
    ensures r["logging_aggregators"] == Strs(settings.logAggregatorLoggers)
  {
    map[
      "system_uuid" := Str(settings.systemUuid),
      "tower_url_base" := Str(settings.towerUrlBase),
      "tower_version" := Str(towerVersion),
      "ansible_version" := Str(ansibleVersion),
      "license_type" := Get(license, "license_type", Str("UNLICENSED")),
      "free_instances" := Get(license, "free instances", Int(0)),
      "license_expiry" := Get(license, "time_remaining", Int(0)),
      "pendo_tracking" := Str(settings.pendoTrackingState),
      "authentication_backends" := Strs(settings.authenticationBackends),
      "logging_aggregators" := Strs(settings.logAggregatorLoggers)
    ]
  }

  // ---------------------------------------------------------------- counts

  /** The model classes whose objects `counts` counts, in the order it visits them. */
  const ModelClasses: seq<string> :=
    ["Organization", "Team", "User", "Inventory", "Credential", "Project", "JobTemplate",
     "WorkflowJobTemplate", "UnifiedJob", "Host", "Schedule", "CustomInventoryScript",
     "NotificationTemplate"]

  /** The keys `counts` writes after the per-class counts. */
  const DerivedCountKeys: set<string> :=
    {"custom_virtualenvs", "inventories", "active_host_count", "active_sessions",
     "active_api_sessions", "active_channels_sessions", "running_jobs"}

  /** A value in the `counts` dictionary: a number, or the per-kind
      inventory dictionary. */
  datatype CountEntry = Total(n: int) | ByKind(kinds: map<string, nat>)

  /** A row of a `values_list(field).annotate(Count(field))` query: a field
      value and the number of objects that have it. */
  type Grouped = (string, nat)

  function GroupKey(g: Grouped): string { g.0 }

  function GroupCount(g: Grouped): nat { g.1 }

  /** `dict(rows)` for grouped rows: each value maps to the count of its
      last row. */
  function DictOf(rows: seq<Grouped>): (d: map<string, nat>)
    ensures d.Keys == KeysOf(rows, GroupKey)
    ensures forall k | k in d :: d[k] == rows[LastIndex(rows, GroupKey, k)].1
  {
    OverlayAll(map[], rows, GroupKey, GroupCount);
    Overlay(map[], rows, GroupKey, GroupCount)
  }

  /** The per-class entry: `cls.objects.count()`. */
  function TotalOf(objectCount: string -> nat): string -> CountEntry
  {
    cls => Total(objectCount(cls))
  }

  /** A virtualenv path counts as custom unless its last component, after
      trailing separators are stripped, is "ansible". */
  predicate IsCustomVenv(v: string)
  {
    Basename(RStrip(v)) != "ansible"
  }

  /** `[v for v in venvs if os.path.basename(v.rstrip('/')) != 'ansible']`. */
  function CustomVenvs(venvs: seq<string>): seq<string>
  {
    Filter(venvs, IsCustomVenv)
  }

  /** The default virtualenv, written with or without trailing separators,
      is never counted as custom. */
  lemma AnsibleVenvIsNotCustom(dir: string, seps: string)
    requires forall i | 0 <= i < |seps| :: seps[i] == Sep
    ensures !IsCustomVenv(dir + "/ansible" + seps)
  {
    assert dir + "/ansible" == dir + [Sep] + "ansible";
    RStripSeparators(dir + "/ansible", seps);
    BasenameAfterSep(dir, "ansible");
  }

  /** The per-class part of `counts`: `counts[camelcase_to_underscore(name)]
      = cls.objects.count()` for each model class in turn, with `toKey`
      standing for the name conversion. */
  method CountObjects(toKey: string -> string, objectCount: string -> nat)
    returns (counts: map<string, CountEntry>)
    ensures counts.Keys == KeysOf(ModelClasses, toKey)
    ensures forall k | k in counts :: counts[k] == Total(objectCount(ModelClasses[LastIndex(ModelClasses, toKey, k)]))
  {
    counts := AssignEach(map[], ModelClasses, toKey, TotalOf(objectCount));
  }

  /** The per-kind inventory counts with the count of the empty kind moved
      to "normal". */
  function NormalKind(kinds: map<string, nat>): map<string, nat>
    requires "" in kinds
  {
    (kinds - {""})["normal" := kinds[""]]
  }

  /** The inventory part of `counts`: the inventories grouped by kind, with
      the empty kind popped and stored again as "normal". Fails with
      `KeyError('')` when no inventory has the empty kind. */
  method InventoryKinds(kindRows: seq<Grouped>) returns (r: Result<map<string, nat>>)
    ensures r.Failure? <==> "" !in KeysOf(kindRows, GroupKey)
    ensures r.Failure? ==> r.error == KeyError("")
    ensures r.Success? ==>
              var kinds := DictOf(kindRows);
              && r.value.Keys == kinds.Keys - {""} + {"normal"}
              && r.value["normal"] == kinds[""]
              && forall k | k in r.value && k != "normal" :: r.value[k] == kinds[k]
    ensures r.Success? ==> "" in DictOf(kindRows) && r.value == NormalKind(DictOf(kindRows))
  {
    var invCounts := DictOf(kindRows);
    var popped := Pop(invCounts, "");
    if popped.Failure? {
      return Failure(popped.error);
    }
    invCounts := popped.value.1["normal" := popped.value.0];
    r := Success(invCounts);
  }

  /** The length of the custom virtualenv list. */
  method CountCustomVenvs(venvs: seq<string>) returns (n: nat)
    ensures n == |CustomVenvs(venvs)|
    ensures n <= |venvs|
    ensures forall v :: multiset(CustomVenvs(venvs))[v] == if IsCustomVenv(v) then multiset(venvs)[v] else 0
  {
    n := |CustomVenvs(venvs)|;
  }

  /** The assignments of `counts` after the per-class loop, in source order:
      each derived key gets its number, the inventory dictionary goes under
      "inventories", and every other key keeps its value. */
  method RecordTotals(base: map<string, CountEntry>, customVirtualenvs: nat,
                      inventories: map<string, nat>, activeHosts: nat, activeSessions: nat,
                      apiSessions: nat, runningJobs: nat)
    returns (counts: map<string, CountEntry>)
    ensures counts.Keys == base.Keys + DerivedCountKeys
    ensures forall k | k in base && k !in DerivedCountKeys :: counts[k] == base[k]
    ensures counts["custom_virtualenvs"] == Total(customVirtualenvs)
    ensures counts["inventories"] == ByKind(inventories)
    ensures counts["active_host_count"] == Total(activeHosts)
    ensures counts["active_sessions"] == Total(activeSessions)
    ensures counts["active_api_sessions"] == Total(apiSessions)
    ensures counts["active_channels_sessions"] == Total(activeSessions - apiSessions)
    ensures counts["active_channels_sessions"].n < 0 <==> apiSessions > activeSessions
    ensures counts["running_jobs"] == Total(runningJobs)
  {
    counts := base["custom_virtualenvs" := Total(customVirtualenvs)];
    counts := counts["inventories" := ByKind(inventories)];
    counts := counts["active_host_count" := Total(activeHosts)];
    var channelsSessions := activeSessions - apiSessions;
    counts := counts["active_sessions" := Total(activeSessions)];
    counts := counts["active_api_sessions" := Total(apiSessions)];
    counts := counts["active_channels_sessions" := Total(channelsSessions)];
    counts := counts["running_jobs" := Total(runningJobs)];
  }

  /** `counts`. `toKey` is `camelcase_to_underscore`; `objectCount(cls)` is
      `cls.objects.count()`; `kindRows` is the inventory query grouped by
      kind; the remaining numbers are the other counting queries. Fails when
      no inventory has the empty kind; the dictionary under construction is
      then discarded, so the derived keys are written after that check here.
      Active channel sessions are active sessions less API sessions and are
      not clamped at zero. */
  method Counts(toKey: string -> string, objectCount: string -> nat, venvs: seq<string>,
                kindRows: seq<Grouped>, activeHosts: nat, activeSessions: nat,
                apiSessions: nat, runningJobs: nat)
    returns (r: Result<map<string, CountEntry>>)
    ensures r.Failure? <==> "" !in KeysOf(kindRows, GroupKey)
    ensures r.Failure? ==> r.error == KeyError("")
    ensures r.Success? ==> r.value.Keys == KeysOf(ModelClasses, toKey) + DerivedCountKeys
    ensures r.Success? ==>
              forall k | k in r.value && k !in DerivedCountKeys ::
                r.value[k] == Total(objectCount(ModelClasses[LastIndex(ModelClasses, toKey, k)]))
    ensures r.Success? ==> r.value["custom_virtualenvs"] == Total(|CustomVenvs(venvs)|)
    ensures r.Success? ==>
              && "" in DictOf(kindRows)
              && r.value["inventories"] == ByKind(NormalKind(DictOf(kindRows)))
              && "normal" in r.value["inventories"].kinds
              && "" !in r.value["inventories"].kinds
    ensures r.Success? ==> r.value["active_host_count"] == Total(activeHosts)
    ensures r.Success? ==>
              && r.value["active_sessions"] == Total(activeSessions)
              && r.value["active_api_sessions"] == Total(apiSessions)
              && r.value["active_channels_sessions"] == Total(activeSessions - apiSessions)
              && (r.value["active_channels_sessions"].n < 0 <==> apiSessions > activeSessions)
    ensures r.Success? ==> r.value["running_jobs"] == Total(runningJobs)
  {
    var counts := CountObjects(toKey, objectCount);
    var customVirtualenvs := CountCustomVenvs(venvs);
    var inventories := InventoryKinds(kindRows);
    if inventories.Failure? {
      return Failure(inventories.error);
    }
    counts := RecordTotals(counts, customVirtualenvs, inventories.value, activeHosts,
                           activeSessions, apiSessions, runningJobs);
    r := Success(counts);
  }

  // ------------------------------------- org_counts, cred_type_counts, inventory_counts

  /** A row of the organization query. */
  datatype OrgRow = OrgRow(name: string, id: int, numUsers: nat, numTeams: nat)

  function OrgId(o: OrgRow): int { o.id }

  function OrgRecord(o: OrgRow): Record
  {
    map["name" := Str(o.name), "users" := Int(o.numUsers), "teams" := Int(o.numTeams)]
  }

  /** `org_counts`: one record per organization id; a later row with the
      same id replaces an earlier one. */
  method OrgCounts(orgs: seq<OrgRow>) returns (counts: map<int, Record>)
    ensures counts.Keys == KeysOf(orgs, OrgId)
    ensures forall id | id in counts ::
              var o := orgs[LastIndex(orgs, OrgId, id)];
              counts[id] == map["name" := Str(o.name), "users" := Int(o.numUsers), "teams" := Int(o.numTeams)]
  {
    counts := AssignEach(map[], orgs, OrgId, OrgRecord);
  }

  /** A row of the credential type query. */
  datatype CredTypeRow = CredTypeRow(name: string, id: int, managedByTower: bool, numCredentials: nat)

  function CredTypeId(c: CredTypeRow): int { c.id }

  function CredTypeRecord(c: CredTypeRow): Record
  {
    map["name" := Str(c.name), "credential_count" := Int(c.numCredentials),
        "managed_by_tower" := Bool(c.managedByTower)]
  }

  /** `cred_type_counts`: one record per credential type id; a later row
      with the same id replaces an earlier one. */
  method CredTypeCounts(types: seq<CredTypeRow>) returns (counts: map<int, Record>)
    ensures counts.Keys == KeysOf(types, CredTypeId)
    ensures forall id | id in counts ::
              var c := types[LastIndex(types, CredTypeId, id)];
              counts[id] == map["name" := Str(c.name), "credential_count" := Int(c.numCredentials),
                                "managed_by_tower" := Bool(c.managedByTower)]
  {
    counts := AssignEach(map[], types, CredTypeId, CredTypeRecord);
  }

  /** A row of an inventory query, with its host and source counts. */
  datatype InventoryRow = InventoryRow(id: int, name: string, kind: string, hosts: nat, sources: nat)

  function InventoryId(inv: InventoryRow): int { inv.id }

  /** The record of an inventory of the empty (normal) kind. */
  function NormalInventoryRecord(inv: InventoryRow): (r: Record)
    ensures r.Keys == {"name", "kind", "hosts", "sources"}
    ensures "hosts" in r && "num_hosts" !in r
    ensures r["hosts"] == Int(inv.hosts) && r["sources"] == Int(inv.sources)
  {
    map["name" := Str(inv.name), "kind" := Str(inv.kind), "hosts" := Int(inv.hosts),
        "sources" := Int(inv.sources)]
  }

  /** The record of a smart inventory: the same counts under other names. */
  function SmartInventoryRecord(inv: InventoryRow): (r: Record)
    ensures r.Keys == {"name", "kind", "num_hosts", "num_sources"}
    ensures "num_hosts" in r && "hosts" !in r
    ensures r["num_hosts"] == Int(inv.hosts) && r["num_sources"] == Int(inv.sources)
  {
    map["name" := Str(inv.name), "kind" := Str(inv.kind), "num_hosts" := Int(inv.hosts),
        "num_sources" := Int(inv.sources)]
  }

  /** What `inventory_counts` reports: the normal inventories (kind '')
      keyed by id, then the smart inventories (kind 'smart') written over
      them. */
  function InventoryCountsOf(normal: seq<InventoryRow>, smart: seq<InventoryRow>): map<int, Record>
  {
    Overlay(Overlay(map[], normal, InventoryId, NormalInventoryRecord), smart, InventoryId, SmartInventoryRecord)
  }

  /** Every inventory of either kind is reported; a smart row wins over any
      normal row with the same id, and the two kinds report their counts
      under different field names. */
  lemma InventoryCountsAt(normal: seq<InventoryRow>, smart: seq<InventoryRow>, id: int)
    ensures var r := InventoryCountsOf(normal, smart);
            && (id in r <==> id in KeysOf(normal, InventoryId) || id in KeysOf(smart, InventoryId))
            && (id in KeysOf(smart, InventoryId) ==>
                  && r[id] == SmartInventoryRecord(smart[LastIndex(smart, InventoryId, id)])
                  && "num_hosts" in r[id] && "hosts" !in r[id])
            && (id in KeysOf(normal, InventoryId) && id !in KeysOf(smart, InventoryId) ==>
                  && r[id] == NormalInventoryRecord(normal[LastIndex(normal, InventoryId, id)])
                  && "hosts" in r[id] && "num_hosts" !in r[id])
  {
    var first := Overlay(map[], normal, InventoryId, NormalInventoryRecord);
    OverlayAt(map[], normal, InventoryId, NormalInventoryRecord, id);
    OverlayAt(first, smart, InventoryId, SmartInventoryRecord, id);
  }

  /** `inventory_counts`: the two keyed loops, normal inventories first. */
  method InventoryCounts(normal: seq<InventoryRow>, smart: seq<InventoryRow>)
    returns (counts: map<int, Record>)
    ensures counts == InventoryCountsOf(normal, smart)
    ensures counts.Keys == KeysOf(normal, InventoryId) + KeysOf(smart, InventoryId)
  {
    var first := AssignEach(map[], normal, InventoryId, NormalInventoryRecord);
    counts := AssignEach(first, smart, InventoryId, SmartInventoryRecord);
  }

  // ---------------------------------------------------------------- projects_by_scm_type

  /** `scm_type or 'manual'`: the empty SCM type is reported as "manual". */
  function ScmKey(scmType: string): (k: string)
    ensures k != ""
    ensures scmType != "" ==> k == scmType
    ensures scmType == "" ==> k == "manual"
  {
    if scmType == "" then "manual" else scmType
  }

  /** An SCM type choice: its stored value and its label. */
  type ScmChoice = (string, string)

  function ChoiceKey(c: ScmChoice): string { ScmKey(c.0) }

  function NoProjects(c: ScmChoice): nat { 0 }

  /** A row of the projects query grouped by SCM type. */
  datatype ScmRow = ScmRow(scmType: string, count: nat)

  function ScmRowKey(row: ScmRow): string { ScmKey(row.scmType) }

  function ScmRowCount(row: ScmRow): nat { row.count }

  /** `projects_by_scm_type`: zero for every SCM choice, then the grouped
      counts written over them in row order. */
  method ProjectsByScmType(choices: seq<ScmChoice>, rows: seq<ScmRow>) returns (counts: map<string, nat>)
    ensures counts.Keys == KeysOf(choices, ChoiceKey) + KeysOf(rows, ScmRowKey)
    ensures "" !in counts
    ensures forall k | k in KeysOf(choices, ChoiceKey) && k !in KeysOf(rows, ScmRowKey) :: counts[k] == 0
    ensures forall k | k in KeysOf(rows, ScmRowKey) :: counts[k] == rows[LastIndex(rows, ScmRowKey, k)].count
  {
    var seed := Overlay(map[], choices, ChoiceKey, NoProjects);
    OverlayAll(map[], choices, ChoiceKey, NoProjects);
    counts := AssignEach(seed, rows, ScmRowKey, ScmRowCount);
  }

  // ---------------------------------------------------------------- instance_info

  /** A row of the instance query. */
  datatype InstanceRow = InstanceRow(
    uuid: string, version: string, capacity: int, cpu: int, memory: int,
    managedByPolicy: bool, hostname: string)

  const InstanceFields: set<string> :=
    {"uuid", "version", "capacity", "cpu", "memory", "managed_by_policy"}

  /** The record `instance_info` builds from an instance row. */
  function InstanceRecord(row: InstanceRow): Record
  {
    map["uuid" := Str(row.uuid), "version" := Str(row.version), "capacity" := Int(row.capacity),
        "cpu" := Int(row.cpu), "memory" := Int(row.memory),
        "managed_by_policy" := Bool(row.managedByPolicy)]
  }

  /** An instance is reported by its six fields; the host name is not one
      of them. */
  lemma InstanceRecordFields(row: InstanceRow)
    ensures var r := InstanceRecord(row);
            && r.Keys == InstanceFields
            && "hostname" !in r
            && r["uuid"] == Str(row.uuid) && r["version"] == Str(row.version)
            && r["capacity"] == Int(row.capacity) && r["cpu"] == Int(row.cpu) && r["memory"] == Int(row.memory)
            && r["managed_by_policy"] == Bool(row.managedByPolicy)
  {
  }

  /** What `instance_info` reports: nothing without instances, else the
      record of the last instance only. */
  function LastInstanceInfo(rows: seq<InstanceRow>): Record
  {
    if rows == [] then map[] else InstanceRecord(rows[|rows| - 1])
  }

  /** `instance_info`: the loop rebinds one dictionary per instance, so
      each instance's record replaces the previous one. */
  method InstanceInfo(rows: seq<InstanceRow>) returns (info: Record)
    ensures info == LastInstanceInfo(rows)
    ensures rows == [] ==> info == map[]
    ensures rows != [] ==> info.Keys == InstanceFields && info["uuid"] == Str(rows[|rows| - 1].uuid)
    ensures "hostname" !in info
  {
    info := map[];
    var i := 0;
    while i < |rows|
      invariant 0 <= i <= |rows|
      invariant info == LastInstanceInfo(rows[..i])
    {
      info := InstanceRecord(rows[i]);
      i := i + 1;
    }
    assert rows[..i] == rows;
    if rows != [] {
      InstanceRecordFields(rows[|rows| - 1]);
    }
  }

  /** Only the last instance survives: whatever instances come before it,
      the report is the same. */
  lemma InstanceInfoKeepsOnlyLast(earlier: seq<InstanceRow>, last: InstanceRow)
    ensures LastInstanceInfo(earlier + [last]) == LastInstanceInfo([last])
  {
  }

  /** With two instances of different UUIDs, the first one's UUID is not
      reported. */
  lemma InstanceInfoDropsEarlierInstance(a: InstanceRow, b: InstanceRow)
    requires a.uuid != b.uuid
    ensures LastInstanceInfo([a, b])["uuid"] != Str(a.uuid)
  {
    InstanceRecordFields(b);
  }

  function InstanceUuid(row: InstanceRow): string { row.uuid }

  /** `instance_info` keyed by instance UUID, so that every instance is
      reported. */
  method InstanceInfoByUuid(rows: seq<InstanceRow>) returns (info: map<string, Record>)
    ensures info.Keys == KeysOf(rows, InstanceUuid)
    ensures forall u | u in info :: info[u] == InstanceRecord(rows[LastIndex(rows, InstanceUuid, u)])
  {
    info := AssignEach(map[], rows, InstanceUuid, InstanceRecord);
  }

  // ---------------------------------------------------------------- job_counts

  /** The `job_counts` report. */
  datatype JobCountsReport = JobCountsReport(totalJobs: nat, status: map<string, nat>, launchType: map<string, nat>)

  /** `job_counts`: the number of jobs, and the jobs grouped by status and
      by launch type. */
  function JobCounts(totalJobs: nat, statusRows: seq<Grouped>, launchRows: seq<Grouped>): (r: JobCountsReport)
    ensures r.totalJobs == totalJobs
    ensures r.status.Keys == KeysOf(statusRows, GroupKey)
    ensures forall s | s in r.status :: r.status[s] == statusRows[LastIndex(statusRows, GroupKey, s)].1
    ensures r.launchType.Keys == KeysOf(launchRows, GroupKey)
    ensures forall t | t in r.launchType :: r.launchType[t] == launchRows[LastIndex(launchRows, GroupKey, t)].1
  {
    JobCountsReport(totalJobs, DictOf(statusRows), DictOf(launchRows))
  }

  // ---------------------------------------------------------------- job_instance_counts

  /** A row of the jobs query grouped by execution node and one more field
      (launch type or status), with the number of jobs. */
  datatype NodeRow = NodeRow(node: string, value: string, count: nat)

  /** Execution node, then sub-key, then field value, to a number of jobs. */
  type NodeCounts = map<string, map<string, map<string, nat>>>

  function RowNode(row: NodeRow): string { row.node }

  function RowNodeValue(row: NodeRow): (string, string) { (row.node, row.value) }

  /** The innermost dictionary under `node` and `sub`, or an empty one. */
  function Leaf(c: NodeCounts, node: string, sub: string): map<string, nat>
  {
    if node in c && sub in c[node] then c[node][sub] else map[]
  }

  /** `c.setdefault(node, {}).setdefault(sub, {})[value] = n`. */
  function SetDefaultAssign(c: NodeCounts, node: string, sub: string, value: string, n: nat): NodeCounts
  {
    var inner: map<string, map<string, nat>> := if node in c then c[node] else map[];
    var leaf: map<string, nat> := if sub in inner then inner[sub] else map[];
    c[node := inner[sub := leaf[value := n]]]
  }

  /** The loop that applies `SetDefaultAssign` under `sub` to each row in turn. */
  function Nest(c: NodeCounts, rows: seq<NodeRow>, sub: string): (r: NodeCounts)
    ensures r.Keys == c.Keys + KeysOf(rows, RowNode)
  {
    if rows == [] then c
    else
      var n := |rows| - 1;
      KeysOfSnoc(rows, RowNode);
      SetDefaultAssign(Nest(c, rows[..n], sub), rows[n].node, sub, rows[n].value, rows[n].count)
  }

  /** Nesting one more row applies one more `setdefault` assignment. */
  lemma NestSnoc(c: NodeCounts, rows: seq<NodeRow>, sub: string, i: nat)
    requires i < |rows|
    ensures Nest(c, rows[..i + 1], sub)
            == SetDefaultAssign(Nest(c, rows[..i], sub), rows[i].node, sub, rows[i].value, rows[i].count)
  {
    assert rows[..i + 1][..i] == rows[..i];
  }

  /** Under a node, the nesting adds the sub-key `sub` exactly when a row
      names the node, and leaves every other sub-key as it was. */
  lemma {:induction false} NestSubKeys(c: NodeCounts, rows: seq<NodeRow>, sub: string, node: string, mid: string)
    requires node in Nest(c, rows, sub)
    ensures var r := Nest(c, rows, sub);
            && (mid == sub ==> (mid in r[node] <==> (node in c && mid in c[node]) || node in KeysOf(rows, RowNode)))
            && (mid != sub ==> (mid in r[node] <==> node in c && mid in c[node]))
            && (mid != sub && mid in r[node] ==> r[node][mid] == c[node][mid])
  {
    if rows != [] {
      var n := |rows| - 1;
      KeysOfSnoc(rows, RowNode);
      if node in Nest(c, rows[..n], sub) {
        NestSubKeys(c, rows[..n], sub, node, mid);
      }
    }
  }

  /** One `setdefault` assignment under `sub` sets one value in the innermost
      dictionary of its node and touches no other node's. */
  lemma LeafAfterAssign(c: NodeCounts, node: string, sub: string, value: string, n: nat, at: string)
    ensures Leaf(SetDefaultAssign(c, node, sub, value, n), at, sub)
            == if at == node then Leaf(c, at, sub)[value := n] else Leaf(c, at, sub)
  {
  }

  /** The dictionary under `node` and `sub` holds, for each value, the count
      of the last row with that node and value, and what it held before for
      values no row names. */
  lemma {:induction false} NestLeaf(c: NodeCounts, rows: seq<NodeRow>, sub: string, node: string, value: string)
    ensures var leaf := Leaf(Nest(c, rows, sub), node, sub);
            var i := LastIndex(rows, RowNodeValue, (node, value));
            && (0 <= i ==> value in leaf && leaf[value] == rows[i].count)
            && (i < 0 ==> (value in leaf <==> value in Leaf(c, node, sub)))
            && (i < 0 && value in leaf ==> leaf[value] == Leaf(c, node, sub)[value])
  {
    if rows != [] {
      var n := |rows| - 1;
      LeafAfterAssign(Nest(c, rows[..n], sub), rows[n].node, sub, rows[n].value, rows[n].count, node);
      if RowNodeValue(rows[n]) != (node, value) {
        NestLeaf(c, rows[..n], sub, node, value);
      }
    }
  }

  /** `leaf` is the histogram of `rows` at `node`, as far as `value` is
      concerned: it has the value exactly when a row has the node and value,
      and then holds the last such row's count. */
  predicate HistogramAt(leaf: map<string, nat>, rows: seq<NodeRow>, node: string, value: string)
  {
    var i := LastIndex(rows, RowNodeValue, (node, value));
    && (value in leaf <==> 0 <= i)
    && (0 <= i ==> leaf[value] == rows[i].count)
  }

  /** Nesting under `sub` leaves the dictionary under any other sub-key as
      it was. */
  lemma NestKeepsOtherLeaf(c: NodeCounts, rows: seq<NodeRow>, sub: string, node: string, other: string)
    requires other != sub
    ensures Leaf(Nest(c, rows, sub), node, other) == Leaf(c, node, other)
  {
    if node in Nest(c, rows, sub) {
      NestSubKeys(c, rows, sub, node, other);
    }
  }

  /** Nesting one row stream under `firstSub` and then another under a
      different `secondSub` gives the nodes of both streams, and each node
      has a sub-key for each stream that names it and no other. */
  lemma NestTwiceNodes(first: seq<NodeRow>, firstSub: string, second: seq<NodeRow>, secondSub: string,
                       node: string)
    requires firstSub != secondSub
    ensures var r := Nest(Nest(map[], first, firstSub), second, secondSub);
            && r.Keys == KeysOf(first, RowNode) + KeysOf(second, RowNode)
            && (node in r ==>
                  && (firstSub in r[node] <==> node in KeysOf(first, RowNode))
                  && (secondSub in r[node] <==> node in KeysOf(second, RowNode))
                  && r[node].Keys <= {firstSub, secondSub})
  {
    var c := Nest(map[], first, firstSub);
    var r := Nest(c, second, secondSub);
    if node in c {
      NestSubKeys(map[], first, firstSub, node, secondSub);
    }
    if node in r {
      NestSubKeys(c, second, secondSub, node, firstSub);
      NestSubKeys(c, second, secondSub, node, secondSub);
      if node in c {
        NestSubKeys(map[], first, firstSub, node, firstSub);
      }
      forall mid | mid in r[node] ensures mid in {firstSub, secondSub} {
        NestSubKeys(c, second, secondSub, node, mid);
        if mid != secondSub && node in c {
          NestSubKeys(map[], first, firstSub, node, mid);
        }
      }
    }
  }

  /** Nesting one row stream under `firstSub` and then another under a
      different `secondSub` keeps them apart: the nodes are those of both
      streams, each node has a sub-key for each stream that names it and no
      other, and each sub-key holds the histogram of its own stream. */
  lemma NestTwice(first: seq<NodeRow>, firstSub: string, second: seq<NodeRow>, secondSub: string,
                  node: string, value: string)
    requires firstSub != secondSub
    ensures var r := Nest(Nest(map[], first, firstSub), second, secondSub);
            && r.Keys == KeysOf(first, RowNode) + KeysOf(second, RowNode)
            && (node in r ==>
                  && (firstSub in r[node] <==> node in KeysOf(first, RowNode))
                  && (secondSub in r[node] <==> node in KeysOf(second, RowNode))
                  && r[node].Keys <= {firstSub, secondSub})
            && HistogramAt(Leaf(r, node, firstSub), first, node, value)
            && HistogramAt(Leaf(r, node, secondSub), second, node, value)
  {
    var c := Nest(map[], first, firstSub);
    NestTwiceNodes(first, firstSub, second, secondSub, node);
    NestLeaf(map[], first, firstSub, node, value);
    NestKeepsOtherLeaf(c, second, secondSub, node, firstSub);
    NestKeepsOtherLeaf(map[], first, firstSub, node, secondSub);
    NestLeaf(c, second, secondSub, node, value);
  }

  /** What `job_instance_counts` reports: the launch type rows nested under
      "status", then the status rows nested under "launch_type". */
  function JobInstanceCountsOf(launchRows: seq<NodeRow>, statusRows: seq<NodeRow>): NodeCounts
  {
    Nest(Nest(map[], launchRows, "status"), statusRows, "launch_type")
  }

  /** The loop `for job in rows: counts.setdefault(job[0], {}).setdefault(sub,
      {})[job[1]] = job[2]` over a dictionary that starts as `c`. */
  method SetDefaultEach(c: NodeCounts, rows: seq<NodeRow>, sub: string) returns (counts: NodeCounts)
    ensures counts == Nest(c, rows, sub)
    ensures counts.Keys == c.Keys + KeysOf(rows, RowNode)
  {
    counts := c;
    var i := 0;
    while i < |rows|
      invariant 0 <= i <= |rows|
      invariant counts == Nest(c, rows[..i], sub)
    {
      NestSnoc(c, rows, sub, i);
      counts := SetDefaultAssign(counts, rows[i].node, sub, rows[i].value, rows[i].count);
      i := i + 1;
    }
    assert rows[..i] == rows;
  }

  /** `job_instance_counts`: the jobs grouped by node and launch type are
      nested under "status", then the jobs grouped by node and status under
      "launch_type". */
  method JobInstanceCounts(launchRows: seq<NodeRow>, statusRows: seq<NodeRow>) returns (counts: NodeCounts)
    ensures counts == JobInstanceCountsOf(launchRows, statusRows)
    ensures counts.Keys == KeysOf(launchRows, RowNode) + KeysOf(statusRows, RowNode)
  {
    counts := SetDefaultEach(map[], launchRows, "status");
    counts := SetDefaultEach(counts, statusRows, "launch_type");
  }

  /** The crossing in `job_instance_counts`: under each node, "status" holds
      the launch type histogram and "launch_type" the status histogram. */
  lemma JobInstanceCountsCrossed(launchRows: seq<NodeRow>, statusRows: seq<NodeRow>, node: string, value: string)
    ensures var r := JobInstanceCountsOf(launchRows, statusRows);
            && (node in r ==>
                  && ("status" in r[node] <==> node in KeysOf(launchRows, RowNode))
                  && ("launch_type" in r[node] <==> node in KeysOf(statusRows, RowNode))
                  && r[node].Keys <= {"status", "launch_type"})
            && HistogramAt(Leaf(r, node, "status"), launchRows, node, value)
            && HistogramAt(Leaf(r, node, "launch_type"), statusRows, node, value)
  {
    NestTwice(launchRows, "status", statusRows, "launch_type", node, value);
  }

  /** One manually launched job on one node is reported as a status. */
  lemma LaunchTypeReportedAsStatus()
    ensures JobInstanceCountsOf([NodeRow("node1", "manual", 1)], [])
            == map["node1" := map["status" := map["manual" := 1]]]
  {
  }

  /** `job_instance_counts` with each histogram under the name of what it
      counts. */
  function JobInstanceHistograms(launchRows: seq<NodeRow>, statusRows: seq<NodeRow>): NodeCounts
  {
    Nest(Nest(map[], launchRows, "launch_type"), statusRows, "status")
  }

  /** Under each node, "launch_type" holds the launch type histogram and
      "status" the status histogram. */
  lemma JobInstanceHistogramsLabelled(launchRows: seq<NodeRow>, statusRows: seq<NodeRow>, node: string, value: string)
    ensures var r := JobInstanceHistograms(launchRows, statusRows);
            && r.Keys == KeysOf(launchRows, RowNode) + KeysOf(statusRows, RowNode)
            && (node in r ==>
                  && ("launch_type" in r[node] <==> node in KeysOf(launchRows, RowNode))
                  && ("status" in r[node] <==> node in KeysOf(statusRows, RowNode))
                  && r[node].Keys <= {"launch_type", "status"})
            && HistogramAt(Leaf(r, node, "launch_type"), launchRows, node, value)
            && HistogramAt(Leaf(r, node, "status"), statusRows, node, value)
  {
    NestTwice(launchRows, "launch_type", statusRows, "status", node, value);
  }

  // ---------------------------------------------------------------- copy_tables

  /** What `_copy_table` returns: the path of the written file, or the
      exception raised while writing it. */
  datatype CopyResult = Written(file: string) | Raised(error: PyError)

  /** Opening a file for writing, streaming a query into it with
      `copy_expert` and closing it: `None` when that succeeded, the
      exception otherwise. */
  type CopyStep = (string, string) -> Option<PyError>

  /** The file a table is copied to is named after the table. */
  lemma TableFileBasename(path: string, table: string)
    ensures Sep !in table ==> Basename(Join(path, table + "_table.csv")) == table + "_table.csv"
  {
    if Sep !in table {
      assert Sep !in table + "_table.csv";
      JoinedBasename(path, table + "_table.csv");
    }
  }

  /** `_copy_table(table, query, path)`: the file is `<table>_table.csv`
      under `path`; an exception from the copy is returned, not raised. */
  function CopyTable(table: string, query: string, path: string, copy: CopyStep): (r: CopyResult)
    ensures r.Written? <==> copy(Join(path, table + "_table.csv"), query).None?
    ensures r.Raised? ==> copy(Join(path, table + "_table.csv"), query) == Some(r.error)
    ensures r.Written? ==> r.file == Join(path, table + "_table.csv")
    ensures r.Written? && Sep !in table ==>
              && Basename(r.file) == table + "_table.csv"
              && |path| <= |r.file| && r.file[..|path|] == path
  {
    var eventsFile := Join(path, table + "_table.csv");
    TableFileBasename(path, table);
    match copy(eventsFile, query)
    case None => Written(eventsFile)
    case Some(e) => Raised(e)
  }

  /** `copy_tables`: the events table and then the unified jobs table are
      copied into `fullPath`. The collector returns None and drops both
      outcomes; they are returned here so that their independence can be
      stated: the second copy is attempted, and succeeds or fails, whatever
      became of the first. */
  function CopyTables(fullPath: string, eventsQuery: string, unifiedJobsQuery: string, copy: CopyStep)
    : (attempts: seq<CopyResult>)
    ensures |attempts| == 2
    ensures attempts[0].Written? <==> copy(Join(fullPath, "events_table.csv"), eventsQuery).None?
    ensures attempts[0].Written? ==> attempts[0].file == Join(fullPath, "events_table.csv")
    ensures attempts[1].Written? <==> copy(Join(fullPath, "unified_jobs_table.csv"), unifiedJobsQuery).None?
    ensures attempts[1].Written? ==> attempts[1].file == Join(fullPath, "unified_jobs_table.csv")
  {
    assert "events" + "_table.csv" == "events_table.csv";
    assert "unified_jobs" + "_table.csv" == "unified_jobs_table.csv";
    [CopyTable("events", eventsQuery, fullPath, copy),
     CopyTable("unified_jobs", unifiedJobsQuery, fullPath, copy)]
  }
}
