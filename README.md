# Integrated group assistant plugin — a Dafny model

This project models the core of a chat-bot plugin for QQ groups. The plugin has two features:

- **Invitation statistics.** An admin turns tracking on or off per group. While tracking is on, every
  "member joined by invitation" notice adds an entry to a persistent ledger: group, then inviter, then
  the list of invitees. Members can query one user's invitees or the group's top-10 leaderboard.
- **Group broadcast.** An admin marks groups as broadcast targets and can list which groups are marked.
  The broadcast command is then a two-step conversation. The admin first sends the message and then
  confirms it. The plugin sends the message to every target and reports how many sends succeeded and
  how many failed.

Modules, one per part of the program:

| module | file | models |
|---|---|---|
| `Invitations` | `invitation_manager.dfy` | the ledger and `InvitationManager` |
| `Toggles` | `toggles.dfy` | the two switch lists and their enable/disable commands |
| `InviteEvents` | `invite_events.dfy` | the notice filter of `event_monitoring` |
| `Query` | `query.dfy` | `query_invites` and the leaderboard ranking; the group order of `broadcast_list` |
| `Partition` | `partition.dfy` | the order-keeping split of `broadcast_list` |
| `Broadcast` | `broadcast.dfy` | the broadcast conversation as a transition function, and the send loop |
| `Plugin` | `plugin.dfy` | the plugin object, with one method per handler |
| `StableSort` | `stable_sort.dfy` | Python's stable `sorted` / `list.sort` with a key |
| `PyText` | `pytext.dfy` | Python's `str()` of an integer, and its parse-back |
| `Wrappers` | `wrappers.dfy` | `Option` |

Modelling choices:

- **Ledger shape.** A group's record (inviter to invitee list) is an ordered association list with
  unique inviters. Python dicts keep insertion order, and the leaderboard's tie order depends on it.
  The ledger maps group ids to these records.
- **Auto-created entries.** A `defaultdict` creates a missing entry on first access. Here that is
  "append, inserting the inviter at the end if absent".
- **Restored groups.** A group record restored from the config store is a plain dict, so a new
  inviter there raises `KeyError`. The ghost set `plainGroups` and the precondition `CanRecord`
  capture this.
- **Saving.** `save_data` is the ghost snapshot `saved`.
- **No group.** An empty group id stands for "not in a group".
- **Broadcast flow.** `Broadcast.Next` maps one event (a message or a wait's timeout) to the new
  flow state, the pending message, the reply and the sends it makes. `Plugin.IntegratedPlugin.Step`
  is proved equal to it.
- **Send results.** Whether each `send_group_msg` call succeeds is an input sequence of booleans.
- **Live targets.** The targets are read from the live broadcast list at each step, because the
  source's `able_gids` is the same list object, not a copy.

## Model

| member | source | states |
|---|---|---|
| PyText.IntText | main_backup.py:198 | `str(int)` is non-empty, starts with `-` exactly for negative values, and otherwise starts with a digit |
| PyText.IntTextRoundTrip | main_backup.py:198 | parsing `str(n)` back gives `n`, so the text form loses nothing |
| PyText.IntTextInjective | main_backup.py:198 | distinct group ids give distinct strings, so the string membership test of `broadcast_list` identifies each group |
| StableSort.SortBy | main_backup.py:136 | sorting returns a permutation of its input (same multiset, same length) |
| StableSort.SortBySorted | main_backup.py:136 | the sorted list is ordered by the key |
| StableSort.SortByStable | main_backup.py:136 | equal keys keep their input order: for every key value, the sorted list holds the same elements with that key, in the same order |
| StableSort.KeyFilterPrefix | main_backup.py:138 | cutting a list to a prefix keeps, for each key value, a prefix of that key's elements |
| Invitations.Lookup | core/invitation_manager.py:27 | `record.get(u, [])` returns a non-empty list only for a recorded inviter |
| Invitations.LookupSpec | core/invitation_manager.py:24-27 | an inviter with no entry has no invitees; with unique inviters, the inviter's entry list is returned |
| Invitations.Append | core/invitation_manager.py:17 | `record[i].append(v)` adds at most one entry (a new inviter) and leaves the record non-empty |
| Invitations.AppendLookup | core/invitation_manager.py:17 | after appending invitee `v` for inviter `i`, `i`'s list grows by exactly `v` and every other inviter's list is unchanged |
| Invitations.AppendInviters | core/invitation_manager.py:17 | appending keeps the inviter order and adds a new inviter only at the end, as dict insertion order does |
| Invitations.AppendUnique | core/invitation_manager.py:17 | appending keeps inviters unique (a dict has one entry per key) |
| Invitations.AppendNonEmpty | core/invitation_manager.py:17 | appending never creates an inviter with an empty list |
| Invitations.UserInvites | core/invitation_manager.py:24-27 | an unknown group or unknown inviter gives `[]`; otherwise the inviter's stored list |
| Invitations.Record | core/invitation_manager.py:15-17 | recording adds the group if it was absent and leaves every other group's record unchanged |
| Invitations.RecordGroupInvites | core/invitation_manager.py:15-22 | after `add_invite(g, i, v)`, `get_invites_by_group(g)` is the old record with `record[i].append(v)` applied; every other group's record reads as before |
| Invitations.GroupInvitesEmpty | main_backup.py:130-133 | in a ledger without empty entries, a group has no record exactly when every member's invitee list is empty, so the "no records" reply means nobody in the group invited anyone |
| Invitations.RecordUserInvites | core/invitation_manager.py:15-17 | after `add_invite(g, i, v)`, the query for `(g, i)` returns the old list plus `v`; every other query's answer is unchanged |
| Invitations.RecordInviters | core/invitation_manager.py:15-17 | recording in group `g` adds inviter `i` to that group's inviter order only if absent, at the end |
| Invitations.RecordShape | core/invitation_manager.py:15-17 | recording preserves unique inviters per group, and no inviter ever has an empty list |
| Invitations.ReplayUserInvites | core/invitation_manager.py:15-17 | after a sequence of invites, a user's list is the old list followed by that user's invitees in that group, in arrival order |
| Invitations.FreshLedgerUserInvites | core/invitation_manager.py:15-17 | from an empty ledger, a user's list is exactly that user's invitees in that group, in order |
| Invitations.ReplayKeepsShape | core/invitation_manager.py:15-17 | a sequence of invites keeps the ledger well formed; its groups are the old ones plus those that saw an invite |
| Invitations.InvitationManager.constructor | core/invitation_manager.py:6-8 | the ledger starts as the restored `invitation_data`; every restored group is a plain dict |
| Invitations.InvitationManager.AddInvite | core/invitation_manager.py:15-18 | the ledger becomes `Record(old ledger, g, i, v)` and is saved right away |
| Invitations.InvitationManager.InvitesByGroup | core/invitation_manager.py:20-22 | an unknown group gives an empty record, a known group its stored record; any record returned has unique inviters, like a dict |
| Invitations.InvitationManager.InvitesByUser | core/invitation_manager.py:24-27 | an unknown group or an unknown inviter gives `[]`; otherwise the inviter's stored invitee list |
| Toggles.GroupToggle.IsEnabled | main_backup.py:33-39 | list membership: a group is enabled exactly when the list holds at least one copy of its id |
| Toggles.MembershipGates | main_backup.py:33-39 | membership, the test of `is_feature_enabled` / `is_broadcast_enabled`, is exactly what makes enable answer "already enabled" and what makes disable remove the group |
| Toggles.FirstIndex | main_backup.py:71 | the position of the first occurrence of an element that is in the list |
| Toggles.RemoveFirst | main_backup.py:71 | `list.remove` deletes exactly the first occurrence: one element shorter, one copy fewer, everything else in place |
| Toggles.RemoveFirstUnique | main_backup.py:71 | on a list without duplicates, removal leaves no copy of the element and no duplicates |
| Toggles.EnableOutcome | main_backup.py:43-56 | outside a group it refuses; an enabled group gets "already enabled" with the list unchanged; otherwise the group is appended at the end; duplicate-freedom is kept |
| Toggles.DisableOutcome | main_backup.py:60-73 | outside a group it refuses; a group not in the list gets "not enabled"; otherwise the list is `list.remove` of it (first occurrence gone, others in order); with no duplicates, the group is gone afterwards |
| Toggles.EnableIdempotent | main_backup.py:50-52 | enabling twice: the second call answers "already enabled" and changes nothing |
| Toggles.DisableIdempotent | main_backup.py:67-69 | on a duplicate-free list, disabling twice: the second call answers "not enabled" and changes nothing |
| Toggles.DisableUndoesEnable | main_backup.py:54-71 | disabling right after enabling a new group restores the original list |
| Toggles.EnableAfterDisable | main_backup.py:54-71 | on a duplicate-free list that holds the group, re-enabling after disabling appends it again, at the end, with the original multiset restored |
| Toggles.GroupToggle.constructor | main_backup.py:27-28 | the list starts as the one read from the config store |
| Toggles.GroupToggle.Enable | main_backup.py:43-56 | the reply and the new list are those of `EnableOutcome`; afterwards the group is enabled |
| Toggles.GroupToggle.Disable | main_backup.py:60-73 | the reply and the new list are those of `DisableOutcome`; for a duplicate-free list, the group is disabled afterwards |
| InviteEvents.PyStrIntIds | main_backup.py:93-94 | `str()` turns integer ids into ledger keys that identify them: two integer ids give the same key exactly when they are equal, and the key parses back to the id |
| InviteEvents.InviteOf | main_backup.py:80-95 | an invite is recorded exactly when the raw message is a dict, `post_type` is `notice`, `notice_type` is `group_increase`, tracking is on in the group and `sub_type` is `invite`; inviter and invitee are the `str()` of `operator_id` and `user_id` |
| Query.Ranking | main_backup.py:136-138 | the leaderboard has min(10, number of inviters) entries, never more than 10 |
| Query.RankingSize | main_backup.py:136-138 | the leaderboard has min(10, number of inviters) entries, all taken from the record |
| Query.RankingOrdered | main_backup.py:136-138 | leaderboard counts never increase down the list |
| Query.RankingIsTop | main_backup.py:136-138 | any inviter with more invitees than some listed inviter is listed too |
| Query.RankingStable | main_backup.py:136-138 | for each count, the listed inviters are the first inviters with that count, in the record's order |
| Query.QueryInvites | main_backup.py:98-147 | refuses when tracking is off; with a mention, reports the first mentioned user's invitees; without one, "no records" for an empty group, else the ranking |
| Query.IsTargetOfIds | main_backup.py:198-201 | when the target list holds the decimal texts of some ids, a group is a target exactly when its id is one of them |
| Query.SortedGroups | main_backup.py:191-192 | the group list is reordered by ascending id, as a permutation |
| Partition.Select | main_backup.py:197-204 | each side of the split is never longer than the input |
| Partition.SelectSnoc | main_backup.py:197-204 | one more group goes to the end of the list whose test it meets, and the other list is unchanged |
| Partition.SelectMembers | main_backup.py:197-204 | each output list holds only groups that pass its test (enabled or not enabled) |
| Partition.SelectSplits | main_backup.py:197-204 | the two lists together hold every group exactly as often as the input |
| Partition.SelectSorted | main_backup.py:197-204 | a side taken from a key-sorted list is key-sorted |
| Partition.SelectSubsequence | main_backup.py:197-204 | each side is a subsequence of the input: its elements appear in the order they have in the input |
| Query.BroadcastSplit | main_backup.py:191-204 | over the id-sorted groups, the two lists together hold every group as often as it occurs; the first holds only targets and the second only non-targets; both are in ascending id order and are subsequences of the sorted list |
| Broadcast.CountTrue | main_backup.py:250-258 | the number of successful sends is at most the number of targets |
| Broadcast.CountTrueOccurrences | main_backup.py:250-258 | the success count is the number of `true` outcomes and the failure count the number of `false` outcomes |
| Broadcast.SendsTo | main_backup.py:252-255 | the send loop makes one call per target, in list order, each with the pending message |
| Broadcast.Next | main_backup.py:215-280 | events from another sender or group are ignored; timeouts and cancels end the flow; a message is stored and then either "nothing to broadcast" or the confirmation wait; a confirmation sends to every target once, reports success + failure = number of targets, and clears the message; nothing is sent and the message is not cleared in any other case |
| Broadcast.NextHolds | main_backup.py:231-262 | while awaiting confirmation a message is always held, so every send carries a message |
| Broadcast.ThreeTargetsOneFailure | main_backup.py:241-262 | a session with three targets where the second send fails asks to confirm 3, reports 2 and 1, and sends to all three |
| Broadcast.CountTrueSnoc | main_backup.py:256 | one more successful send adds one to the success count |
| Broadcast.SendAll | main_backup.py:250-259 | the loop's success count is the number of successful deliveries, success + failure is the number of targets, and the calls are exactly `SendsTo(targets, message)` |
| Plugin.IntegratedPlugin.constructor | main_backup.py:24-30 | both lists and the ledger come from the config store; no message is pending and no flow is open |
| Plugin.IntegratedPlugin.EnableFeature | main_backup.py:43-56 | the tracking list follows `EnableOutcome`; the broadcast list is untouched |
| Plugin.IntegratedPlugin.DisableFeature | main_backup.py:60-73 | the tracking list follows `DisableOutcome`; the broadcast list is untouched |
| Plugin.IntegratedPlugin.EnableBroadcast | main_backup.py:153-167 | the broadcast list follows `EnableOutcome`; the tracking list is untouched |
| Plugin.IntegratedPlugin.DisableBroadcast | main_backup.py:171-185 | the broadcast list follows `DisableOutcome`; the tracking list is untouched |
| Plugin.IntegratedPlugin.EventMonitoring | main_backup.py:78-95 | the ledger gains the invite that `InviteOf` accepts, and is saved then; otherwise ledger and saved copy are unchanged |
| Plugin.IntegratedPlugin.QueryInvites | main_backup.py:98-147 | refuses exactly when tracking is off in the group; with a mention, reports the first mentioned user's list from the manager; "no records" exactly for an empty group record without a mention; otherwise the ranking of the group's record |
| Plugin.IntegratedPlugin.BroadcastList | main_backup.py:189-204 | the loop builds exactly the two sides of `Select` over the id-sorted groups, split by broadcast state; their properties are in `Query.BroadcastSplit` |
| Plugin.IntegratedPlugin.Begin | main_backup.py:215-219 | the command opens the wait for that group and sender's message and prompts; nothing is sent |
| Plugin.IntegratedPlugin.Step | main_backup.py:222-280 | the new flow, pending message, reply and sends are exactly those of `Next` on the live broadcast list |

## Left out

- Timers: `session_waiter` and its 30-second limit are left out. A timeout is an input event.
- Cancel and timeout leave `broadcast_message` in place. Only a completed broadcast clears it, as at
  main_backup.py:262. The model keeps this behaviour (it is not an error for the flow).
- The random 1–3 second pause between sends is left out. It changes timing, not results.
- Foreign calls made through the bot are left out:
  - member name lookups;
  - `send_group_msg` (its success or failure is an input);
  - `get_group_list` (its result is an input);
  - `_parse_onebot_json` and `MessageChain` (the message is an opaque payload).
- Reply texts, their formatting and logging are left out. Replies are datatype constructors carrying
  the numbers they print.
- Broadcast.Next: a confirmation yields one reply, the final `Report`. The "broadcasting..." notice
  sent just before the send loop (main_backup.py:249) is a second reply that the model does not emit.
- Decorators are left out: command routing, admin permission filters and the adapter-type filter.
  Each handler is modelled as called directly.
- `initialize` and `terminate` are left out. They repeat the constructor's loading and save the config.
  `event.stop_event` is left out too.
- Persistence of the two switch lists is left out (`config.save_config` and `config.set`). Only the
  in-memory lists are modelled. The ledger's save is modelled as the `saved` snapshot.
- Plugin.IntegratedPlugin.Begin: requires that no broadcast flow is open. Several interleaved flows
  would be concurrent sessions, which are not modelled.
- Plugin.IntegratedPlugin.Step: toggles made while the send loop awaits are not modelled. The loop
  runs as one step over the list as it stands at confirmation.
- Plugin.IntegratedPlugin.EventMonitoring: requires `CanRecord` for the invite it accepts, for the
  reason given for `AddInvite` on the next line.
- Invitations.InvitationManager.AddInvite: requires `CanRecord`. A new inviter in a group restored
  from the config store would raise `KeyError` in the source; the model excludes that call instead
  of modelling the exception.
- Mentions (`get_ats`) are taken as strings. The `int()` conversions used only for name lookups are
  left out.
- `str()` of values other than strings, integers and `None` is modelled as an opaque text.
