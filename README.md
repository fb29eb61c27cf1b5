# AWX analytics collectors

A Dafny model of the analytics collectors of AWX (`awx/main/analytics/collectors.py`).
Each collector asks the database for rows and folds them into a JSON-ready dictionary. Here each query result is an input sequence of rows. The helpers the collectors import are inputs too: the license lookup, the version strings, `camelcase_to_underscore`, the per-class object count, and the open-and-copy step of `copy_tables`. What is modelled is the folding itself:

- keyed overlays, where a later row with the same key overwrites an earlier one;
- `dict.get` defaults and `dict.pop` with its `KeyError`;
- nested `setdefault`;
- the rebinding loop of `instance_info`;
- the path filter of `counts`;
- the path and error handling of `_copy_table`.

Three modules:

- `Dicts` (`dicts.dfy`): the collection idioms. `Overlay` is the keyed-assignment fold. `LastIndex` is its reference definition, giving the position of the last row with a key. `AssignEach` is the loop, proved equal to `Overlay`. `Get` and `Pop` model `dict.get` and `dict.pop`, and `Filter` a filtering list comprehension.
- `Paths` (`paths.dfy`): `str.rstrip('/')`, `os.path.basename` and `os.path.join` on POSIX paths.
- `Collectors` (`collectors.dfy`): one member per collector. Where the source builds a dictionary in a loop, the model is a method whose loop invariant ties it to a specification function.

## Model

| member | source | states |
|---|---|---|
| Dicts.LastIndex | awx/main/analytics/collectors.py:86 | the index of the last row carrying a key: that row has the key, no later row does, and it is -1 exactly when no row has the key |
| Dicts.KeysOfSnoc | awx/main/analytics/collectors.py:86 | the keys of a sequence of rows are those of all but the last row plus the last row's key |
| Dicts.Overlay | awx/main/analytics/collectors.py:86 | assigning `d[key(row)] = val(row)` row by row gives a dictionary whose keys are the starting keys plus every row's key |
| Dicts.OverlaySnoc | awx/main/analytics/collectors.py:86 | one more row in the loop adds one more assignment to the dictionary built so far |
| Dicts.OverlayAt | awx/main/analytics/collectors.py:86 | after the keyed assignments, a key some row carries holds the value of its last such row; a key no row carries is present and valued exactly as in the starting dictionary |
| Dicts.OverlayAll | awx/main/analytics/collectors.py:86 | the same for all keys at once: row keys hold their last row's value, untouched keys keep their values |
| Dicts.AssignEach | awx/main/analytics/collectors.py:86 | the assignment loop computes the overlay: keys are the start's plus the rows', values come from the last row with that key, other keys are unchanged |
| Dicts.Get | awx/main/analytics/collectors.py:40-42 | `dict.get` returns the stored value for a present key and the default for a missing one |
| Dicts.Pop | awx/main/analytics/collectors.py:67 | `dict.pop` fails with `KeyError(k)` exactly when `k` is missing; otherwise it returns `m[k]` and the dictionary without `k`, with every other entry unchanged |
| Dicts.Filter | awx/main/analytics/collectors.py:61-64 | a filtering list comprehension keeps each element exactly as many times as it occurs when the condition holds for it, and never otherwise, so it is no longer than its input |
| Paths.RStrip | awx/main/analytics/collectors.py:63 | `rstrip('/')` yields a prefix that does not end in `/`, and everything it removed is `/` |
| Paths.Basename | awx/main/analytics/collectors.py:63 | the basename is a suffix of the path with no `/` in it, and it is preceded by a `/` unless it is the whole path |
| Paths.Join | awx/main/analytics/collectors.py:183 | `os.path.join(a, b)` ends in `b`; an absolute `b` replaces `a`, otherwise the result starts with `a` |
| Paths.JoinedBasename | awx/main/analytics/collectors.py:183 | a file name without `/` joined to any directory is the basename of the result |
| Paths.RStripSeparators | awx/main/analytics/collectors.py:63 | `rstrip('/')` removes exactly the trailing run of `/` after a path that does not end in one |
| Paths.BasenameAfterSep | awx/main/analytics/collectors.py:63 | the basename of `dir/file` is `file` when `file` has no `/` |
| Collectors.Config | awx/main/analytics/collectors.py:33-46 | `config` reports exactly its ten fields; three license fields default to "UNLICENSED", 0 and 0 when the license lacks "license_type", "free instances" or "time_remaining"; settings and versions pass through unchanged |
| Collectors.DictOf | awx/main/analytics/collectors.py:66 | `dict(rows)` of grouped rows has exactly the grouped values as keys, each mapped to the count of its last row |
| Collectors.AnsibleVenvIsNotCustom | awx/main/analytics/collectors.py:63 | a path ending in `/ansible`, with any number of trailing `/`, is never counted as a custom virtualenv |
| Collectors.CountObjects | awx/main/analytics/collectors.py:51-58 | the class loop has a key per converted class name, holding the object count of the last class mapped to that key |
| Collectors.InventoryKinds | awx/main/analytics/collectors.py:66-68 | the per-kind map fails with `KeyError('')` exactly when no inventory has the empty kind; otherwise the empty kind is removed, its count is stored under "normal" (replacing any "normal" kind), and every other kind keeps its count |
| Collectors.CountCustomVenvs | awx/main/analytics/collectors.py:61-64 | the custom virtualenv count is the length of the filtered list, which keeps exactly the occurrences of the virtualenvs whose stripped basename is not "ansible"; it is at most the number of virtualenvs |
| Collectors.RecordTotals | awx/main/analytics/collectors.py:61-77 | the derived keys are added to the class counts with their numbers; channel sessions are active minus API sessions, negative exactly when API sessions exceed active ones; other keys are unchanged |
| Collectors.Counts | awx/main/analytics/collectors.py:50-78 | `counts` fails with `KeyError('')` exactly when no inventory has the empty kind; otherwise it holds the class counts, the custom virtualenv count, the renamed per-kind map, and the session and job numbers, with channel sessions unclamped |
| Collectors.OrgCounts | awx/main/analytics/collectors.py:82-90 | one record per organization id, holding name, users and teams of the last row with that id |
| Collectors.CredTypeCounts | awx/main/analytics/collectors.py:94-102 | one record per credential type id, holding name, credential count and managed flag of the last row with that id |
| Collectors.NormalInventoryRecord | awx/main/analytics/collectors.py:110-114 | a normal inventory reports "name", "kind", "hosts" and "sources", never "num_hosts" |
| Collectors.SmartInventoryRecord | awx/main/analytics/collectors.py:117-121 | a smart inventory reports the same counts as "num_hosts" and "num_sources", never "hosts" |
| Collectors.InventoryCountsAt | awx/main/analytics/collectors.py:106-122 | every inventory of either kind is reported; a smart row overrides a normal row with the same id; normal records carry "hosts" and smart ones "num_hosts", never both |
| Collectors.InventoryCounts | awx/main/analytics/collectors.py:107-122 | the two id-keyed loops compute the normal records overlaid by the smart ones, keyed by every id of either query |
| Collectors.ScmKey | awx/main/analytics/collectors.py:128 | `scm_type or 'manual'` is never empty, keeps a non-empty type and maps the empty type to "manual" |
| Collectors.ProjectsByScmType | awx/main/analytics/collectors.py:127-135 | the keys are the mapped choices plus the mapped observed types, "" is never a key, a choice with no row maps to 0, and an observed type holds the count of its last row |
| Collectors.InstanceRecordFields | awx/main/analytics/collectors.py:144-150 | an instance is reported by exactly its six fields, each holding the row's value, and never by its host name |
| Collectors.InstanceInfo | awx/main/analytics/collectors.py:140-151 | with no instances the result is empty; otherwise it is the record of the last instance only, and "hostname" is never a key |
| Collectors.InstanceInfoKeepsOnlyLast | awx/main/analytics/collectors.py:143-151 | whatever instances precede the last one, the report is that of the last one alone |
| Collectors.InstanceInfoDropsEarlierInstance | awx/main/analytics/collectors.py:143-151 | of two instances with different UUIDs, the first UUID is not reported |
| Collectors.InstanceInfoByUuid | awx/main/analytics/collectors.py:140-151 | keyed by UUID, every instance's UUID is a key, holding the record of the last row with that UUID |
| Collectors.JobCounts | awx/main/analytics/collectors.py:155-161 | `job_counts` holds the total and, for status and for launch type, exactly the grouped values, each with its last row's count |
| Collectors.Nest | awx/main/analytics/collectors.py:170-171 | the nested `setdefault` loop has as nodes the starting nodes plus every row's node |
| Collectors.LeafAfterAssign | awx/main/analytics/collectors.py:171 | one `setdefault` assignment sets one value in the innermost dictionary of its node and leaves every other node's dictionary as it was |
| Collectors.NestSnoc | awx/main/analytics/collectors.py:170-171 | one more row in the loop applies one more `setdefault` assignment |
| Collectors.NestSubKeys | awx/main/analytics/collectors.py:171 | under a node, the sub-key the loop writes is present exactly when it was before or a row names the node; every other sub-key is present and valued as before |
| Collectors.NestLeaf | awx/main/analytics/collectors.py:171 | the innermost dictionary holds, for each value a row names with the node, the last such row's count, and is unchanged for other values |
| Collectors.NestKeepsOtherLeaf | awx/main/analytics/collectors.py:171 | the loop writing under one sub-key leaves the dictionary under any other sub-key unchanged |
| Collectors.NestTwiceNodes | awx/main/analytics/collectors.py:166-177 | two row streams nested under different sub-keys give the nodes of both streams, and each node has a sub-key for each stream naming it and no other |
| Collectors.NestTwice | awx/main/analytics/collectors.py:166-177 | two row streams nested under different sub-keys stay apart: nodes are those of both streams, each node has only the sub-keys of the streams naming it, and each sub-key holds its own stream's histogram |
| Collectors.SetDefaultEach | awx/main/analytics/collectors.py:170-171 | the `setdefault` loop computes the nesting of its rows, and its nodes are the starting nodes plus every row's node |
| Collectors.JobInstanceCounts | awx/main/analytics/collectors.py:166-177 | the two loops compute the launch-type rows nested under "status", then the status rows under "launch_type"; the nodes are those of either stream |
| Collectors.JobInstanceCountsCrossed | awx/main/analytics/collectors.py:166-177 | as written, each node's "status" holds the launch-type histogram and its "launch_type" the status histogram; a later duplicate row overwrites an earlier one |
| Collectors.LaunchTypeReportedAsStatus | awx/main/analytics/collectors.py:168-171 | one manually launched job on one node is reported as `{"node1": {"status": {"manual": 1}}}` |
| Collectors.JobInstanceHistogramsLabelled | awx/main/analytics/collectors.py:166-177 | with the labels matching their contents, "launch_type" holds the launch-type histogram and "status" the status histogram under each node |
| Collectors.TableFileBasename | awx/main/analytics/collectors.py:183 | the file a table is copied to has `<table>_table.csv` as its basename |
| Collectors.CopyTable | awx/main/analytics/collectors.py:182-191 | `_copy_table` returns the path `join(path, table + '_table.csv')` exactly when the copy step succeeds, and otherwise returns the exception instead of raising it |
| Collectors.CopyTables | awx/main/analytics/collectors.py:211-234 | both tables are always attempted, each succeeding or failing on its own copy step whatever the other did, into `events_table.csv` and `unified_jobs_table.csv` under the target directory |

## Left out

- The database queries (`objects.count()`, `annotate`, `values_list`, `filter`, distinct counts) are not modelled. Their results are input sequences of rows, and SQL grouping semantics are not modelled.
- The settings values, `get_license`, `get_awx_version`, `get_ansible_version`, `get_custom_venv_choices`, `camelcase_to_underscore` and `cls.objects.count()` are foreign calls. They are inputs or function parameters.
- `now()` and the session expiry filters are left out: the two session counts are inputs.
- The `since` argument is left out: it only filters queries.
- Opening the file, `cursor.copy_expert` and closing the file are one opaque copy-step parameter. A file left open when the copy fails is not modelled.
- The text of the two `COPY` queries and their `strftime` formatting are left out. The queries are input strings.
- The `@register` decorator, JSON serialisation and archiving are left out.
- Dictionary insertion order is not modelled: Dafny maps are unordered.
- Collectors.CopyTables: the collector returns None and discards both outcomes. The model returns the two outcomes so that their independence can be stated.
- Collectors.Counts: the source writes "custom_virtualenvs" before the `pop` that may raise. The model writes the derived keys after that check. The partial dictionary is discarded when the exception propagates, so the outcome is the same.
- Consistency between the collectors' numbers (for example, inventory counts per kind summing to the inventory total) depends on the database. No model here states it.

## Findings

| source | as written | input that shows it | evidently intended | confidence | as-written member | corrected member |
|---|---|---|---|---|---|---|
| awx/main/analytics/collectors.py:143-151 | `info` is rebound to a new dictionary on every iteration, so only the last instance is reported | two instances with different UUIDs: the first one's UUID appears nowhere in the result | one record per instance, keyed by its UUID | not executed | Collectors.InstanceInfoDropsEarlierInstance | Collectors.InstanceInfoByUuid |
| awx/main/analytics/collectors.py:168-176 | the launch-type counts are stored under "status" and the status counts under "launch_type" | one manual job on node1: the report is `{"node1": {"status": {"manual": 1}}}` | each histogram under the name of the field it counts | not executed | Collectors.LaunchTypeReportedAsStatus | Collectors.JobInstanceHistogramsLabelled |
