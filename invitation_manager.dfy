/**
 * The invitation ledger: for every group, for every inviter, the invitees
 * recorded in the order their invite notices arrived.
 *
 * The inner per-group mapping is a Python dict, which iterates in insertion
 * order, and the leaderboard's tie order depends on that order; it is
 * modelled as an association list with unique inviters. Lookups use an empty
 * default and never create entries.
 */
module Invitations {

  datatype Entry = Entry(inviter: string, invitees: seq<string>)

  /** One group's mapping inviter -> invitees, in dict iteration order. */
  type GroupRecord = seq<Entry>

  /** The whole ledger: group -> that group's record. */
  type Ledger = map<string, GroupRecord>

  /** One observed invite: `invitee` joined `group` on `inviter`'s invitation. */
  datatype Invite = Invite(group: string, inviter: string, invitee: string)

  function Inviters(rec: GroupRecord): (r: seq<string>)
    ensures |r| == |rec|
    ensures forall k :: 0 <= k < |rec| ==> r[k] == rec[k].inviter
  {
    if rec == [] then [] else [rec[0].inviter] + Inviters(rec[1..])
  }

  /** No inviter has two entries, as in a dict. */
  ghost predicate UniqueInviters(rec: GroupRecord) {
    forall i, j :: 0 <= i < j < |rec| ==> rec[i].inviter != rec[j].inviter
  }

  ghost predicate ValidLedger(l: Ledger) {
    forall g :: g in l ==> UniqueInviters(l[g])
  }

  /** Records exist only where something was recorded (a fresh ledger keeps this). */
  ghost predicate NoEmptyEntries(l: Ledger) {
    forall g :: g in l ==> |l[g]| > 0 && forall k :: 0 <= k < |l[g]| ==> |l[g][k].invitees| > 0
  }

  /** `record.get(u, [])`: only a recorded inviter has a non-empty answer. */
  function Lookup(rec: GroupRecord, u: string): (r: seq<string>)
    ensures r != [] ==> u in Inviters(rec)
  {
    if rec == [] then []
    else if rec[0].inviter == u then rec[0].invitees
    else
      var r := Lookup(rec[1..], u);
      assert Inviters(rec) == [rec[0].inviter] + Inviters(rec[1..]);
      r
  }

  /** The lookup gives the empty default for an absent inviter and the inviter's list otherwise. */
  lemma {:induction false} LookupSpec(rec: GroupRecord, u: string)
    ensures u !in Inviters(rec) ==> Lookup(rec, u) == []
    ensures UniqueInviters(rec) ==> forall k :: 0 <= k < |rec| && rec[k].inviter == u ==> Lookup(rec, u) == rec[k].invitees
  {
    if rec != [] {
      LookupSpec(rec[1..], u);
      assert Inviters(rec) == [rec[0].inviter] + Inviters(rec[1..]);
      if UniqueInviters(rec) {
        forall k | 0 <= k < |rec| && rec[k].inviter == u ensures Lookup(rec, u) == rec[k].invitees {
          if k > 0 {
            assert rec[1..][k - 1] == rec[k];
          }
        }
      }
    }
  }

  /**
   * `record[i].append(v)` on a `defaultdict(list)`: appends to `i`'s list,
   * first creating an empty list at the end of the record when `i` is new.
   */
  function Append(rec: GroupRecord, i: string, v: string): (r: GroupRecord)
    ensures |rec| <= |r| <= |rec| + 1 && |r| > 0
  {
    if rec == [] then [Entry(i, [v])]
    else if rec[0].inviter == i then [Entry(i, rec[0].invitees + [v])] + rec[1..]
    else [rec[0]] + Append(rec[1..], i, v)
  }

  /** Only `i`'s list changes, and it gains `v` at its end. */
  lemma {:induction false} AppendLookup(rec: GroupRecord, i: string, v: string, u: string)
    ensures Lookup(Append(rec, i, v), u) == Lookup(rec, u) + (if u == i then [v] else [])
  {
    if rec != [] && rec[0].inviter != i {
      AppendLookup(rec[1..], i, v, u);
      var r := Append(rec, i, v);
      assert r[1..] == Append(rec[1..], i, v);
    } else if rec != [] {
      assert Append(rec, i, v)[1..] == rec[1..];
    }
  }

  /** The inviters keep their order; a new inviter goes last. */
  lemma {:induction false} AppendInviters(rec: GroupRecord, i: string, v: string)
    ensures Inviters(Append(rec, i, v)) == if i in Inviters(rec) then Inviters(rec) else Inviters(rec) + [i]
  {
    if rec != [] {
      assert Inviters(rec) == [rec[0].inviter] + Inviters(rec[1..]);
      var r := Append(rec, i, v);
      if rec[0].inviter != i {
        AppendInviters(rec[1..], i, v);
        assert r[1..] == Append(rec[1..], i, v);
        assert Inviters(r) == [rec[0].inviter] + Inviters(Append(rec[1..], i, v));
      } else {
        assert r[1..] == rec[1..];
        assert Inviters(r) == [i] + Inviters(rec[1..]);
      }
    }
  }

  /** Appending keeps the inviters unique. */
  lemma AppendUnique(rec: GroupRecord, i: string, v: string)
    requires UniqueInviters(rec)
    ensures UniqueInviters(Append(rec, i, v))
  {
    var r := Append(rec, i, v);
    AppendInviters(rec, i, v);
    var old_ks, ks := Inviters(rec), Inviters(r);
    forall a, b | 0 <= a < b < |r| ensures r[a].inviter != r[b].inviter {
      assert r[a].inviter == ks[a] && r[b].inviter == ks[b];
      assert ks[a] == old_ks[a] == rec[a].inviter;
      if b < |rec| {
        assert ks[b] == old_ks[b] == rec[b].inviter;
      } else {
        assert ks[b] == i && i !in old_ks;
      }
    }
  }

  /** Appending creates no empty invitee list. */
  lemma {:induction false} AppendNonEmpty(rec: GroupRecord, i: string, v: string)
    requires forall k :: 0 <= k < |rec| ==> |rec[k].invitees| > 0
    ensures forall k :: 0 <= k < |Append(rec, i, v)| ==> |Append(rec, i, v)[k].invitees| > 0
  {
    if rec != [] && rec[0].inviter != i {
      AppendNonEmpty(rec[1..], i, v);
      var rest := Append(rec[1..], i, v);
      assert Append(rec, i, v) == [rec[0]] + rest;
    }
  }

  /** `get_invites_by_group(g)`: the group's record, or an empty one. */
  function GroupInvites(l: Ledger, g: string): (r: GroupRecord)
    ensures g !in l ==> r == []
    ensures g in l ==> r == l[g]
  {
    if g in l then l[g] else []
  }

  /** `get_invites_by_user(g, u)`: `u`'s invitees in `g`, or an empty list. */
  function UserInvites(l: Ledger, g: string, u: string): (r: seq<string>)
    ensures g !in l ==> r == []
    ensures g in l && u !in Inviters(l[g]) ==> r == []
    ensures g in l && ValidLedger(l) ==> forall k :: 0 <= k < |l[g]| && l[g][k].inviter == u ==> r == l[g][k].invitees
  {
    LookupSpec(GroupInvites(l, g), u);
    Lookup(GroupInvites(l, g), u)
  }

  /**
   * The ledger after `add_invite(g, i, v)` on the auto-vivifying nested
   * mapping: only the (g, i) list changes, and it gains `v` at its end.
   */
  function Record(l: Ledger, g: string, i: string, v: string): (r: Ledger)
    ensures r.Keys == l.Keys + {g}
    ensures forall h :: h in l && h != g ==> r[h] == l[h]
  {
    l[g := Append(GroupInvites(l, g), i, v)]
  }

  /**
   * `add_invite(g, i, v)` appends `v` at the end of the (g, i) list, so that
   * list grows by exactly one, and every other (group, inviter) list reads
   * as before.
   */
  lemma RecordUserInvites(l: Ledger, g: string, i: string, v: string, h: string, u: string)
    ensures UserInvites(Record(l, g, i, v), h, u) == UserInvites(l, h, u) + (if h == g && u == i then [v] else [])
    ensures h == g && u == i ==> |UserInvites(Record(l, g, i, v), h, u)| == |UserInvites(l, h, u)| + 1
  {
    if h == g {
      AppendLookup(GroupInvites(l, g), i, v, u);
    }
  }

  /** `add_invite(g, i, v)` changes only g's record, where it is `record[i].append(v)`. */
  lemma RecordGroupInvites(l: Ledger, g: string, i: string, v: string, h: string)
    ensures GroupInvites(Record(l, g, i, v), h) ==
              if h == g then Append(GroupInvites(l, g), i, v) else GroupInvites(l, h)
  {
  }

  /**
   * In a ledger without empty entries, a group has no record exactly when
   * nobody in it has invited anyone: the "no records" reply of the
   * leaderboard query means what it says.
   */
  lemma GroupInvitesEmpty(l: Ledger, g: string)
    requires NoEmptyEntries(l)
    ensures GroupInvites(l, g) == [] <==> forall u :: UserInvites(l, g, u) == []
  {
    var rec := GroupInvites(l, g);
    if rec != [] {
      var u := rec[0].inviter;
      assert UserInvites(l, g, u) == rec[0].invitees;
      assert |rec[0].invitees| > 0;
    }
  }

  /** Recording under (g, i) keeps the order of g's inviters, adding i last if new. */
  lemma RecordInviters(l: Ledger, g: string, i: string, v: string)
    ensures Inviters(Record(l, g, i, v)[g]) ==
              if i in Inviters(GroupInvites(l, g)) then Inviters(GroupInvites(l, g)) else Inviters(GroupInvites(l, g)) + [i]
  {
    AppendInviters(GroupInvites(l, g), i, v);
  }

  /** Recording keeps the dict shape and creates no empty entries. */
  lemma RecordShape(l: Ledger, g: string, i: string, v: string)
    ensures ValidLedger(l) ==> ValidLedger(Record(l, g, i, v))
    ensures NoEmptyEntries(l) ==> NoEmptyEntries(Record(l, g, i, v))
  {
    var rec := GroupInvites(l, g);
    if ValidLedger(l) {
      AppendUnique(rec, i, v);
    }
    if NoEmptyEntries(l) {
      AppendNonEmpty(rec, i, v);
    }
  }

  function RecordInvite(l: Ledger, e: Invite): Ledger {
    Record(l, e.group, e.inviter, e.invitee)
  }

  /** The ledger after a sequence of `add_invite` calls, in call order. */
  function Replay(l: Ledger, log: seq<Invite>): Ledger
    decreases |log|
  {
    if log == [] then l else Replay(RecordInvite(l, log[0]), log[1..])
  }

  /** The invitees that `log` records for (g, i), in call order. */
  function InviteesFor(log: seq<Invite>, g: string, i: string): seq<string> {
    if log == [] then []
    else (if log[0].group == g && log[0].inviter == i then [log[0].invitee] else []) + InviteesFor(log[1..], g, i)
  }

  /**
   * After any sequence of `add_invite` calls, `get_invites_by_user(g, i)` is
   * what it was before followed by the invitees added for (g, i), in order.
   */
  lemma {:induction false} ReplayUserInvites(l: Ledger, log: seq<Invite>, g: string, i: string)
    ensures UserInvites(Replay(l, log), g, i) == UserInvites(l, g, i) + InviteesFor(log, g, i)
    decreases |log|
  {
    if log != [] {
      var e := log[0];
      var l' := RecordInvite(l, e);
      var head := if e.group == g && e.inviter == i then [e.invitee] else [];
      var a, b := UserInvites(l, g, i), InviteesFor(log[1..], g, i);
      assert Replay(l, log) == Replay(l', log[1..]);
      assert InviteesFor(log, g, i) == head + b;
      assert UserInvites(l', g, i) == a + head by {
        RecordUserInvites(l, e.group, e.inviter, e.invitee, g, i);
      }
      ReplayUserInvites(l', log[1..], g, i);
      ConcatAssoc(a, head, b);
    }
  }

  lemma ConcatAssoc<T>(a: seq<T>, b: seq<T>, c: seq<T>)
    ensures a + b + c == a + (b + c)
  {
  }

  /** From an empty ledger, the user's list is exactly the invitees logged for them. */
  lemma FreshLedgerUserInvites(log: seq<Invite>, g: string, i: string)
    ensures UserInvites(Replay(map[], log), g, i) == InviteesFor(log, g, i)
  {
    ReplayUserInvites(map[], log, g, i);
  }

  /** The groups that `log` mentions. */
  function GroupsOf(log: seq<Invite>): set<string> {
    if log == [] then {} else {log[0].group} + GroupsOf(log[1..])
  }

  /** Replaying keeps the dict shape and creates no empty records. */
  lemma {:induction false} ReplayKeepsShape(l: Ledger, log: seq<Invite>)
    requires ValidLedger(l) && NoEmptyEntries(l)
    ensures ValidLedger(Replay(l, log)) && NoEmptyEntries(Replay(l, log))
    ensures Replay(l, log).Keys == l.Keys + GroupsOf(log)
    decreases |log|
  {
    if log != [] {
      RecordShape(l, log[0].group, log[0].inviter, log[0].invitee);
      ReplayKeepsShape(RecordInvite(l, log[0]), log[1..]);
    }
  }

  /**
   * `InvitationManager`: the in-memory ledger and the copy last written to
   * the config store by `save_data`.
   */
  class InvitationManager {
    var data: Ledger
    /** What the config store holds under "invitation_data". */
    ghost var saved: Ledger
    /**
     * Groups restored from the config at start. Their inner mappings are plain
     * dicts, not `defaultdict(list)`, so indexing a new inviter there raises
     * `KeyError`.
     */
    ghost const plainGroups: set<string>

    ghost predicate Valid()
      reads this
    {
      ValidLedger(data) && plainGroups <= data.Keys
    }

    constructor (restored: Ledger)
      requires ValidLedger(restored)
      ensures Valid()
      ensures data == restored && saved == restored && plainGroups == restored.Keys
    {
      data := restored;
      saved := restored;
      plainGroups := restored.Keys;
    }

    /** `add_invite` can run without `KeyError`. */
    ghost predicate CanRecord(g: string, i: string)
      reads this
      requires Valid()
    {
      g in plainGroups ==> i in Inviters(data[g])
    }

    /** `add_invite(g, i, v)`, followed by `save_data()`. */
    method AddInvite(g: string, i: string, v: string)
      requires Valid() && CanRecord(g, i)
      modifies this
      ensures Valid()
      ensures data == Record(old(data), g, i, v)
      ensures saved == data
    {
      RecordShape(data, g, i, v);
      data := data[g := Append(GroupInvites(data, g), i, v)];
      saved := data;
    }

    /** `get_invites_by_group(g)`: a dict-shaped record, empty for an unknown group. */
    function InvitesByGroup(g: string): (r: GroupRecord)
      reads this
      ensures g !in data ==> r == []
      ensures g in data ==> r == data[g]
      ensures Valid() ==> UniqueInviters(r)
    {
      GroupInvites(data, g)
    }

    /** `get_invites_by_user(g, u)`: `u`'s list in `g`, or the empty default. */
    function InvitesByUser(g: string, u: string): (r: seq<string>)
      reads this
      ensures g !in data || u !in Inviters(data[g]) ==> r == []
      ensures Valid() && g in data ==> forall k :: 0 <= k < |data[g]| && data[g][k].inviter == u ==> r == data[g][k].invitees
    {
      UserInvites(data, g, u)
    }
  }
}
