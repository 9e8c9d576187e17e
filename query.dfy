/**
 * The read-only commands: `query_invites` (one member's invitees or the
 * group leaderboard) and the partition behind `broadcast_list`.
 */
module Query {
  import opened StableSort
  import opened PyText
  import opened Invitations
  import opened Partition

  /** How many leaderboard lines `query_invites` shows. */
  const LeaderboardSize := 10

  /** Sort key for `sorted(..., key=len(invitees), reverse=True)` as an ascending stable sort. */
  function ByCountDesc(e: Entry): int {
    -|e.invitees|
  }

  function Min(a: int, b: int): int {
    if a <= b then a else b
  }

  /** `sorted(group_invites.items(), key=..., reverse=True)[:10]`. */
  function Ranking(rec: GroupRecord): (r: seq<Entry>)
    ensures |r| == Min(LeaderboardSize, |rec|) && |r| <= LeaderboardSize
  {
    var sorted := SortBy(rec, ByCountDesc);
    sorted[..Min(LeaderboardSize, |sorted|)]
  }

  /** The leaderboard holds min(10, #inviters) entries, all from the record. */
  lemma RankingSize(rec: GroupRecord)
    ensures |Ranking(rec)| == Min(LeaderboardSize, |rec|)
    ensures multiset(Ranking(rec)) <= multiset(rec)
  {
    var sorted := SortBy(rec, ByCountDesc);
    var n := Min(LeaderboardSize, |sorted|);
    assert sorted == sorted[..n] + sorted[n..];
    assert multiset(sorted) == multiset(sorted[..n]) + multiset(sorted[n..]);
  }

  /** The leaderboard lists invitee counts in non-increasing order. */
  lemma RankingOrdered(rec: GroupRecord)
    ensures forall i, j :: 0 <= i < j < |Ranking(rec)| ==> |Ranking(rec)[i].invitees| >= |Ranking(rec)[j].invitees|
  {
    var sorted := SortBy(rec, ByCountDesc);
    SortBySorted(rec, ByCountDesc);
    var r := Ranking(rec);
    forall i, j | 0 <= i < j < |r| ensures |r[i].invitees| >= |r[j].invitees| {
      assert r[i] == sorted[i] && r[j] == sorted[j];
      assert ByCountDesc(sorted[i]) <= ByCountDesc(sorted[j]);
    }
  }

  /** An inviter with more invitees than some listed one is listed as well. */
  lemma RankingIsTop(rec: GroupRecord, e: Entry, k: nat)
    requires e in rec && k < |Ranking(rec)| && |e.invitees| > |Ranking(rec)[k].invitees|
    ensures e in Ranking(rec)
  {
    var sorted := SortBy(rec, ByCountDesc);
    var n := Min(LeaderboardSize, |sorted|);
    SortBySorted(rec, ByCountDesc);
    assert e in multiset(sorted);
    var j :| 0 <= j < |sorted| && sorted[j] == e;
    if j >= n {
      assert false;
    }
    assert Ranking(rec)[j] == e;
  }

  /**
   * Ties keep mapping order: for each count, the listed inviters are the
   * first inviters of that count in the record, in the record's order.
   */
  lemma RankingStable(rec: GroupRecord, c: int)
    ensures KeyFilter(Ranking(rec), ByCountDesc, c) <= KeyFilter(rec, ByCountDesc, c)
  {
    var sorted := SortBy(rec, ByCountDesc);
    SortByStable(rec, ByCountDesc);
    KeyFilterPrefix(sorted, Min(LeaderboardSize, |sorted|), ByCountDesc, c);
  }

  /** The reply of `query_invites`, before names are looked up and text is formatted. */
  datatype QueryReply =
    | TrackingOff                                   // the group has not enabled tracking
    | UserReport(user: string, invitees: seq<string>) // a member was mentioned
    | NoRecords                                     // nobody in the group has invited anyone
    | Leaderboard(top: seq<Entry>)                  // the top inviters

  /**
   * `query_invites` in group `gid` with the mentioned ids `ats`, where
   * `enabled` is the tracking list and `l` the ledger.
   */
  function QueryInvites(enabled: seq<string>, l: Ledger, gid: string, ats: seq<string>): (r: QueryReply)
    ensures r.TrackingOff? <==> gid !in enabled
    ensures r.UserReport? <==> gid in enabled && |ats| > 0
    ensures r.UserReport? ==> r.user == ats[0] && r.invitees == UserInvites(l, gid, ats[0])
    ensures r.NoRecords? <==> gid in enabled && |ats| == 0 && GroupInvites(l, gid) == []
    ensures r.Leaderboard? ==> |r.top| > 0 && r.top == Ranking(GroupInvites(l, gid))
  {
    if gid !in enabled then TrackingOff
    else if |ats| > 0 then UserReport(ats[0], UserInvites(l, gid, ats[0]))
    else
      var rec := GroupInvites(l, gid);
      if rec == [] then NoRecords
      else
        RankingSize(rec);
        Leaderboard(Ranking(rec))
  }

  /** One entry of the bot's group list. */
  datatype GroupInfo = GroupInfo(id: int, name: string)

  function GroupKey(g: GroupInfo): int {
    g.id
  }

  /** `is_broadcast_enabled(str(group_id))` against the target list `targets`. */
  predicate IsTarget(g: GroupInfo, targets: seq<string>) {
    IntText(g.id) in targets
  }

  /** The test `broadcast_list` applies to each group. */
  function TargetTest(targets: seq<string>): GroupInfo -> bool {
    g => IsTarget(g, targets)
  }

  /**
   * When the target list holds the decimal texts of the ids `ids`, a group
   * is a target exactly when its id is one of them: the text comparison of
   * `broadcast_list` neither misses nor confuses groups.
   */
  lemma IsTargetOfIds(g: GroupInfo, ids: seq<int>)
    ensures IsTarget(g, seq(|ids|, k requires 0 <= k < |ids| => IntText(ids[k]))) <==> g.id in ids
  {
    var targets := seq(|ids|, k requires 0 <= k < |ids| => IntText(ids[k]));
    if IsTarget(g, targets) {
      var k :| 0 <= k < |targets| && targets[k] == IntText(g.id);
      IntTextInjective(ids[k], g.id);
    }
    if g.id in ids {
      var k :| 0 <= k < |ids| && ids[k] == g.id;
      assert targets[k] == IntText(g.id);
    }
  }

  /** `all_groups.sort(key=group_id)`: the bot's groups by ascending id (stable). */
  function SortedGroups(all: seq<GroupInfo>): (r: seq<GroupInfo>)
    ensures multiset(r) == multiset(all)
    ensures SortedBy(r, GroupKey)
  {
    SortBySorted(all, GroupKey);
    SortBy(all, GroupKey)
  }

  /**
   * The two lists of `broadcast_list`: together they hold every group of the
   * bot's list as often as it occurs; the first holds exactly the broadcast
   * targets and the second the rest; each is in ascending id order and keeps
   * the groups in the order of the id-sorted list.
   */
  lemma BroadcastSplit(all: seq<GroupInfo>, targets: seq<string>)
    ensures var groups, test := SortedGroups(all), TargetTest(targets);
            var on, off := Select(groups, test, true), Select(groups, test, false);
            && multiset(on) + multiset(off) == multiset(all)
            && (forall g :: g in on ==> IsTarget(g, targets))
            && (forall g :: g in off ==> !IsTarget(g, targets))
            && SortedBy(on, GroupKey) && SortedBy(off, GroupKey)
            && Subsequence(on, groups) && Subsequence(off, groups)
  {
    var groups, test := SortedGroups(all), TargetTest(targets);
    SelectSplits(groups, test);
    SelectMembers(groups, test, true);
    SelectMembers(groups, test, false);
    SelectSorted(groups, test, true, GroupKey);
    SelectSorted(groups, test, false, GroupKey);
    SelectSubsequence(groups, test, true);
    SelectSubsequence(groups, test, false);
  }
}
