/**
 * The plugin object: the two switch lists, the invitation ledger, the
 * pending broadcast message and the broadcast flow, with one method per
 * command or event handler.
 */
module Plugin {
  import opened Wrappers
  import opened StableSort
  import opened PyText
  import opened Invitations
  import opened Toggles
  import opened InviteEvents
  import opened Query
  import opened Partition
  import opened Broadcast

  /** What the config store holds at start: "invitation_data", "enabled_groups", "broadcast_enabled_groups". */
  datatype Config = Config(invitationData: Ledger, enabledGroups: seq<string>, broadcastEnabledGroups: seq<string>)

  class IntegratedPlugin {
    /** `enabled_groups`: groups whose invitations are tracked. */
    const feature: GroupToggle
    /** `broadcast_enabled_groups`: the broadcast targets. */
    const broadcast: GroupToggle
    const invitations: InvitationManager
    /** `broadcast_message`. */
    var broadcastMessage: Option<Payload>
    var flow: Flow
    /** Every `send_group_msg` call made so far, in order. */
    ghost var sent: seq<Send>

    ghost predicate Valid()
      reads this, invitations
    {
      feature != broadcast && invitations.Valid() && Holds(flow, broadcastMessage)
    }

    constructor (config: Config)
      requires ValidLedger(config.invitationData)
      ensures Valid()
      ensures fresh(feature) && fresh(broadcast) && fresh(invitations)
      ensures feature.groups == config.enabledGroups && broadcast.groups == config.broadcastEnabledGroups
      ensures invitations.data == config.invitationData && invitations.plainGroups == config.invitationData.Keys
      ensures broadcastMessage == None && flow == Idle && sent == []
    {
      feature := new GroupToggle(config.enabledGroups);
      broadcast := new GroupToggle(config.broadcastEnabledGroups);
      invitations := new InvitationManager(config.invitationData);
      broadcastMessage := None;
      flow := Idle;
      sent := [];
    }

    /** `enable_feature` (功能开启) in group `gid`. */
    method EnableFeature(gid: string) returns (response: Response)
      requires Valid()
      modifies feature
      ensures Valid()
      ensures Toggled(response, feature.groups) == EnableOutcome(old(feature.groups), gid)
      ensures broadcast.groups == old(broadcast.groups)
    {
      response := feature.Enable(gid);
    }

    /** `disable_feature` (功能关闭) in group `gid`. */
    method DisableFeature(gid: string) returns (response: Response)
      requires Valid()
      modifies feature
      ensures Valid()
      ensures Toggled(response, feature.groups) == DisableOutcome(old(feature.groups), gid)
      ensures broadcast.groups == old(broadcast.groups)
    {
      response := feature.Disable(gid);
    }

    /** `enable_broadcast` (开启广播) in group `gid`. */
    method EnableBroadcast(gid: string) returns (response: Response)
      requires Valid()
      modifies broadcast
      ensures Valid()
      ensures Toggled(response, broadcast.groups) == EnableOutcome(old(broadcast.groups), gid)
      ensures feature.groups == old(feature.groups)
    {
      response := broadcast.Enable(gid);
    }

    /** `disable_broadcast` (关闭广播) in group `gid`. */
    method DisableBroadcast(gid: string) returns (response: Response)
      requires Valid()
      modifies broadcast
      ensures Valid()
      ensures Toggled(response, broadcast.groups) == DisableOutcome(old(broadcast.groups), gid)
      ensures feature.groups == old(feature.groups)
    {
      response := broadcast.Disable(gid);
    }

    /**
     * `event_monitoring` for an event seen in group `gid`: records the invite
     * when the filter accepts it, and leaves the ledger alone otherwise.
     */
    method EventMonitoring(raw: RawMessage, gid: string)
      requires Valid()
      requires InviteOf(raw, gid, feature.groups).Some? ==>
                 invitations.CanRecord(gid, InviteOf(raw, gid, feature.groups).value.inviter)
      modifies invitations
      ensures Valid()
      ensures var inv := InviteOf(raw, gid, feature.groups);
              && invitations.data == (if inv.Some? then RecordInvite(old(invitations.data), inv.value) else old(invitations.data))
              && invitations.saved == (if inv.Some? then invitations.data else old(invitations.saved))
    {
      if !IsGroupIncrease(raw) {
        return;
      }
      if !feature.IsEnabled(gid) {
        return;
      }
      if Get(raw.fields, SubType) == Str("invite") {
        var inviter := PyStr(Get(raw.fields, OperatorId));
        var invitee := PyStr(Get(raw.fields, UserId));
        invitations.AddInvite(gid, inviter, invitee);
      }
    }

    /** `query_invites` in group `gid` with the mentioned ids `ats`. */
    function QueryInvites(gid: string, ats: seq<string>): (r: QueryReply)
      reads this, feature, invitations
      ensures r.TrackingOff? <==> !feature.IsEnabled(gid)
      ensures r.UserReport? ==> feature.IsEnabled(gid) && ats != [] && r.user == ats[0] && r.invitees == invitations.InvitesByUser(gid, ats[0])
      ensures r.NoRecords? <==> feature.IsEnabled(gid) && ats == [] && invitations.InvitesByGroup(gid) == []
      ensures r.Leaderboard? ==> ats == [] && r.top == Ranking(invitations.InvitesByGroup(gid))
    {
      Query.QueryInvites(feature.groups, invitations.data, gid, ats)
    }

    /**
     * `broadcast_list`: the bot's groups `all`, sorted by id, split into the
     * broadcast targets and the rest.
     */
    method BroadcastList(all: seq<GroupInfo>) returns (enabledList: seq<GroupInfo>, disabledList: seq<GroupInfo>)
      ensures enabledList == Select(SortedGroups(all), TargetTest(broadcast.groups), true)
      ensures disabledList == Select(SortedGroups(all), TargetTest(broadcast.groups), false)
    {
      var groups := SortedGroups(all);
      ghost var test := TargetTest(broadcast.groups);
      enabledList, disabledList := [], [];
      for k := 0 to |groups|
        invariant enabledList == Select(groups[..k], test, true)
        invariant disabledList == Select(groups[..k], test, false)
      {
        var g := groups[k];
        ghost var on := test(g);
        assert on == (IntText(g.id) in broadcast.groups);
        assert Select(groups[..k + 1], test, true) == enabledList + (if on then [g] else []) &&
               Select(groups[..k + 1], test, false) == disabledList + (if on then [] else [g]) by {
          assert groups[..k + 1] == groups[..k] + [g];
          SelectSnoc(groups[..k], g, test, true);
          SelectSnoc(groups[..k], g, test, false);
        }
        if broadcast.IsEnabled(IntText(g.id)) {
          enabledList := enabledList + [g];
        } else {
          disabledList := disabledList + [g];
        }
      }
      assert groups[..|groups|] == groups;
    }

    /** The `broadcast` (广播) command from `sender` in `group`: opens the first wait. */
    method Begin(group: string, sender: string) returns (reply: Reply)
      requires Valid() && flow.Idle?
      modifies this
      ensures Valid()
      ensures flow == AwaitingMessage(group, sender) && reply == Prompt
      ensures broadcastMessage == old(broadcastMessage) && sent == old(sent)
    {
      flow := AwaitingMessage(group, sender);
      reply := Prompt;
    }

    /**
     * One event for the broadcast flow; `delivery` gives the outcome of each
     * send should the event start the send loop.
     */
    method Step(ev: Event, delivery: seq<bool>) returns (reply: Reply)
      requires Valid()
      requires Confirms(flow, ev) ==> |delivery| == |broadcast.groups|
      modifies this
      ensures Valid()
      ensures var a := Next(old(flow), old(broadcastMessage), broadcast.groups, ev, delivery);
              flow == a.flow && broadcastMessage == a.pending && reply == a.reply && sent == old(sent) + a.sends
    {
      NextHolds(flow, broadcastMessage, broadcast.groups, ev, delivery);
      match flow
      case Idle =>
        reply := NoReply;
      case AwaitingMessage(g, s) =>
        if ev.Timeout? {
          flow, reply := Idle, MessageTimedOut;
          return;
        }
        if g != ev.group || s != ev.sender {
          return NoReply;
        }
        if ev.text == CancelKeyword {
          flow, reply := Idle, Cancelled;
          return;
        }
        broadcastMessage := Some(ev.payload);
        var targets := broadcast.groups;
        if |targets| == 0 {
          flow, reply := Idle, NothingToBroadcast;
          return;
        }
        flow, reply := AwaitingConfirmation(g, s), AskConfirm(|targets|);
      case AwaitingConfirmation(g, s) =>
        if ev.Timeout? {
          flow, reply := Idle, ConfirmTimedOut;
          return;
        }
        if g != ev.group || s != ev.sender {
          return NoReply;
        }
        if ev.text == ConfirmKeyword {
          var success, failure, sends := SendAll(broadcast.groups, broadcastMessage, delivery);
          sent := sent + sends;
          broadcastMessage := None;
          flow, reply := Idle, Report(success, failure);
        } else {
          flow, reply := Idle, Cancelled;
        }
    }
  }
}
