/**
 * A per-group on/off switch kept as a list of group ids: the invitation
 * tracking list (`enabled_groups`) and the broadcast target list
 * (`broadcast_enabled_groups`) are two instances of it. A group id of
 * `""` stands for a command issued outside any group.
 */
module Toggles {

  /** The replies of the enable and disable commands. */
  datatype Response =
    | UseInGroup       // the command was not issued in a group
    | AlreadyEnabled   // enable on a member: nothing to do
    | NowEnabled       // the group was appended
    | NotEnabled       // disable on a non-member: nothing to do
    | NowDisabled      // the group was removed

  datatype Toggled = Toggled(response: Response, groups: seq<string>)

  ghost predicate NoDuplicates(s: seq<string>) {
    forall i, j :: 0 <= i < j < |s| ==> s[i] != s[j]
  }

  /** Index of the first occurrence of `x` in `s`. */
  function FirstIndex(s: seq<string>, x: string): (k: nat)
    requires x in s
    ensures k < |s| && s[k] == x && x !in s[..k]
  {
    if s[0] == x then 0
    else
      var k := FirstIndex(s[1..], x);
      assert s[..k + 1] == [s[0]] + s[1..][..k];
      k + 1
  }

  /** Python's `list.remove(x)` on a list that holds `x`. */
  function RemoveFirst(s: seq<string>, x: string): (r: seq<string>)
    requires x in s
    ensures |r| == |s| - 1
    ensures multiset(r) == multiset(s) - multiset{x}
    ensures r == s[..FirstIndex(s, x)] + s[FirstIndex(s, x) + 1..]
  {
    var k := FirstIndex(s, x);
    assert s == s[..k] + [x] + s[k + 1..];
    s[..k] + s[k + 1..]
  }

  /** The reply and the new list of enable (`enable_feature`, `enable_broadcast`). */
  function EnableOutcome(s: seq<string>, gid: string): (o: Toggled)
    ensures o.response == UseInGroup <==> gid == ""
    ensures o.response == AlreadyEnabled <==> gid != "" && gid in s
    ensures o.response == NowEnabled <==> gid != "" && gid !in s
    ensures o.response != NowEnabled ==> o.groups == s
    ensures o.response == NowEnabled ==> o.groups == s + [gid]
    ensures gid != "" ==> gid in o.groups
    ensures forall x :: x in o.groups <==> x in s || (x == gid && gid != "")
    ensures NoDuplicates(s) ==> NoDuplicates(o.groups)
  {
    if gid == "" then Toggled(UseInGroup, s)
    else if gid in s then Toggled(AlreadyEnabled, s)
    else Toggled(NowEnabled, s + [gid])
  }

  /** The reply and the new list of disable (`disable_feature`, `disable_broadcast`). */
  function DisableOutcome(s: seq<string>, gid: string): (o: Toggled)
    ensures o.response == UseInGroup <==> gid == ""
    ensures o.response == NotEnabled <==> gid != "" && gid !in s
    ensures o.response == NowDisabled <==> gid != "" && gid in s
    ensures o.response != NowDisabled ==> o.groups == s
    ensures o.response == NowDisabled ==> o.groups == RemoveFirst(s, gid)
    ensures o.response == NowDisabled ==> |o.groups| == |s| - 1 && multiset(o.groups) == multiset(s) - multiset{gid}
    ensures forall x :: x in o.groups ==> x in s
    ensures NoDuplicates(s) ==> NoDuplicates(o.groups) && (gid != "" ==> gid !in o.groups)
  {
    if gid == "" then Toggled(UseInGroup, s)
    else if gid !in s then Toggled(NotEnabled, s)
    else
      var r := RemoveFirst(s, gid);
      assert forall x :: x in r ==> x in s by {
        forall x | x in r ensures x in s {
          assert x in multiset(r);
        }
      }
      RemoveFirstUnique(s, gid);
      Toggled(NowDisabled, r)
  }

  lemma RemoveFirstUnique(s: seq<string>, x: string)
    requires x in s
    ensures NoDuplicates(s) ==> NoDuplicates(RemoveFirst(s, x)) && x !in RemoveFirst(s, x)
  {
    if NoDuplicates(s) {
      var r := RemoveFirst(s, x);
      var k := FirstIndex(s, x);
      forall i, j | 0 <= i < j < |r| ensures r[i] != r[j] {
        var i' := if i < k then i else i + 1;
        var j' := if j < k then j else j + 1;
        assert r[i] == s[i'] && r[j] == s[j'];
      }
      forall m | 0 <= m < |r| ensures r[m] != x {
        var m' := if m < k then m else m + 1;
        assert r[m] == s[m'];
      }
    }
  }

  /**
   * Membership, the test of `is_feature_enabled` / `is_broadcast_enabled`, is
   * what makes enable answer "already enabled" and what makes disable remove
   * the group.
   */
  lemma MembershipGates(s: seq<string>, gid: string)
    requires gid != ""
    ensures gid in s <==> EnableOutcome(s, gid).response == AlreadyEnabled
    ensures gid in s <==> DisableOutcome(s, gid).response == NowDisabled
  {
  }

  /** Enabling twice is enabling once; the second call answers "already enabled". */
  lemma EnableIdempotent(s: seq<string>, gid: string)
    requires gid != ""
    ensures EnableOutcome(EnableOutcome(s, gid).groups, gid) == Toggled(AlreadyEnabled, EnableOutcome(s, gid).groups)
  {
  }

  /** Disabling twice is disabling once; the second call answers "not enabled". */
  lemma DisableIdempotent(s: seq<string>, gid: string)
    requires NoDuplicates(s) && gid != ""
    ensures DisableOutcome(DisableOutcome(s, gid).groups, gid) == Toggled(NotEnabled, DisableOutcome(s, gid).groups)
  {
  }

  /** Disable undoes an enable that appended. */
  lemma {:induction false} DisableUndoesEnable(s: seq<string>, gid: string)
    requires gid != "" && gid !in s
    ensures DisableOutcome(EnableOutcome(s, gid).groups, gid) == Toggled(NowDisabled, s)
  {
    var t := s + [gid];
    assert FirstIndex(t, gid) == |s|;
    assert t[..|s|] == s;
  }

  /** Enable after disable puts the group back, at the end of the list. */
  lemma EnableAfterDisable(s: seq<string>, gid: string)
    requires NoDuplicates(s) && gid != "" && gid in s
    ensures var o := EnableOutcome(DisableOutcome(s, gid).groups, gid);
            o.response == NowEnabled && multiset(o.groups) == multiset(s) && o.groups[|o.groups| - 1] == gid
  {
    var r := DisableOutcome(s, gid).groups;
    assert multiset(r + [gid]) == multiset(r) + multiset{gid};
    assert gid in multiset(s);
  }

  /** A switch list, mutated in place by the enable and disable commands. */
  class GroupToggle {
    var groups: seq<string>

    constructor (initial: seq<string>)
      ensures groups == initial
    {
      groups := initial;
    }

    /** `is_feature_enabled` / `is_broadcast_enabled`: list membership (see `MembershipGates`). */
    predicate IsEnabled(gid: string)
      reads this
      ensures IsEnabled(gid) <==> multiset(groups)[gid] > 0
    {
      gid in groups
    }

    method Enable(gid: string) returns (response: Response)
      modifies this
      ensures Toggled(response, groups) == EnableOutcome(old(groups), gid)
      ensures gid != "" ==> IsEnabled(gid)
    {
      if gid == "" {
        return UseInGroup;
      }
      if IsEnabled(gid) {
        return AlreadyEnabled;
      }
      groups := groups + [gid];
      response := NowEnabled;
    }

    method Disable(gid: string) returns (response: Response)
      modifies this
      ensures Toggled(response, groups) == DisableOutcome(old(groups), gid)
      ensures NoDuplicates(old(groups)) && gid != "" ==> !IsEnabled(gid)
    {
      if gid == "" {
        return UseInGroup;
      }
      if !IsEnabled(gid) {
        return NotEnabled;
      }
      groups := RemoveFirst(groups, gid);
      response := NowDisabled;
    }
  }
}
